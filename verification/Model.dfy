/** The vocabulary shared by every component: identifiers, rows, messages and an optional value. */
module Model {
  datatype Option<+T> = None | Some(value: T)

  type Time = nat
  type NotificationId = nat
  type UserId = string
  type InstanceId = string
  type Ticket = string
  type SessionId = nat
  type RequestId = nat

  datatype Status = Online | Away

  /** The part of a notification that never changes after the insert; also what a client is sent. */
  datatype Envelope = Envelope(nid: NotificationId, user: UserId, kind: string, payload: string, createdAt: Time)

  /** A row of the notifications table. */
  datatype Row = Row(note: Envelope, live: bool, readAt: Option<Time>)

  /** A row of the read_receipts table. */
  datatype Receipt = Receipt(nid: NotificationId, user: UserId, readAt: Time)

  /** A Pub/Sub message on the channel of one instance. `epoch` says which subscription of that
      instance it was handed to: a message does not outlive the subscription. */
  datatype Packet = Packet(inst: InstanceId, epoch: nat, user: UserId, note: Envelope)

  /** Both limiters share one key prefix; connection ids are UUIDs and never equal a caller's host. */
  datatype LimitKey = Connection(id: SessionId) | Caller(host: string)
}
