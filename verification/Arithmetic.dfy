/** Division rounded up. */
module Arithmetic {
  /** ceil(a / w) for a positive `a`, and 0 otherwise. */
  ghost function CeilDiv(a: int, w: nat): nat
    requires w > 0
    decreases if a > 0 then a else 0
  {
    if a <= 0 then 0 else 1 + CeilDiv(a - w, w)
  }

  lemma {:induction false} CeilDivRoundsUp(a: int, w: nat)
    requires w > 0 && a > 0
    ensures (CeilDiv(a, w) - 1) * w < a <= CeilDiv(a, w) * w
    decreases a
  {
    if a > w {
      CeilDivRoundsUp(a - w, w);
      assert CeilDiv(a, w) * w == CeilDiv(a - w, w) * w + w;
    } else {
      assert CeilDiv(a - w, w) == 0;
    }
  }

  lemma CeilDivMonotone(a: int, b: int, w: nat)
    requires w > 0 && a <= b
    ensures CeilDiv(a, w) <= CeilDiv(b, w)
    decreases if b > 0 then b else 0
  {
    if a > 0 {
      CeilDivMonotone(a - w, b - w, w);
    }
  }

  lemma {:induction false} CeilDivByOne(n: nat)
    ensures CeilDiv(n, 1) == n
  {
    if n > 0 { CeilDivByOne(n - 1); }
  }

  lemma MulMonotone(n: nat, a: nat, b: nat)
    requires a <= b
    ensures n * a <= n * b
  {}

  /** `k` times `n`, for proofs that should stay linear. */
  ghost function Multiple(n: nat, k: nat): nat {
    if k == 0 then 0 else Multiple(n, k - 1) + n
  }

  lemma {:induction false} MultipleIs(n: nat, k: nat)
    ensures Multiple(n, k) == k * n
  {
    if k > 0 { MultipleIs(n, k - 1); }
  }

  lemma {:induction false} CeilDivExact(w: nat, k: nat)
    requires w > 0
    ensures CeilDiv(Multiple(w, k), w) == k
  {
    if k > 0 { CeilDivExact(w, k - 1); }
  }
}
