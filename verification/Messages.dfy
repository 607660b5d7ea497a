/** Message rows shared by the outbox and the event service, and the receipt merge on one row. */
module Messages {
  import opened Base

  datatype MessageStatus = Received | InQueue | Sending | Sent | Delivered | Read | NotSent

  datatype MessageKind = Text | Image | Audio | Video | Document | System

  datatype Message = Message(account: AccountId, conversation: ConversationId, contact: Option<ContactId>,
                             outbound: bool, kind: MessageKind, waId: Option<WaId>, content: string,
                             status: MessageStatus, errorCode: Option<string>, retries: nat,
                             sentAt: Option<Time>, deliveredAt: Option<Time>, readAt: Option<Time>,
                             occurredAt: Option<Time>)

  type MessageDb = map<MessageId, Message>

  predicate Named(m: Message, account: AccountId, wa: WaId) {
    m.account == account && m.waId == Some(wa)
  }

  predicate SameWaId(x: Message, y: Message) {
    x.waId.Some? && x.waId == y.waId && x.account == y.account
  }

  /** The unique index on (account_id, wa_message_id) where the id is present. */
  ghost predicate UniqueWaIds(messages: MessageDb) {
    forall i, j :: i in messages && j in messages && SameWaId(messages[i], messages[j]) ==> i == j
  }

  ghost function FindMessage(messages: MessageDb, account: AccountId, wa: WaId): (r: Option<MessageId>)
    ensures r.Some? ==> r.value in messages && Named(messages[r.value], account, wa)
    ensures r.None? ==> forall id :: id in messages ==> !Named(messages[id], account, wa)
  {
    if exists id :: id in messages && Named(messages[id], account, wa)
    then var id :| id in messages && Named(messages[id], account, wa); Some(id)
    else None
  }

  // ---------------------------------------------------------------- receipts

  datatype ReceiptType = WasSent | WasDelivered | WasRead | HasFailed

  /** rank.get(status, 0) */
  function ReceiptRank(s: MessageStatus): nat {
    match s
    case Sent => 1
    case Delivered => 2
    case Read => 3
    case _ => 0
  }

  function Target(t: ReceiptType): MessageStatus {
    match t
    case WasSent => Sent
    case WasDelivered => Delivered
    case WasRead => Read
    case HasFailed => NotSent
  }

  function MergeReceipt(m: Message, t: ReceiptType, at: Time, error: Option<string>): Message {
    if t.HasFailed? then
      if ReceiptRank(m.status) == 0 then m.(status := NotSent, errorCode := error) else m
    else if ReceiptRank(Target(t)) < ReceiptRank(m.status) then m
    else
      var merged := m.(status := Target(t), errorCode := None);
      match t
      case WasSent => merged.(sentAt := Some(at))
      case WasDelivered => merged.(deliveredAt := Some(at))
      case WasRead => merged.(readAt := Some(at))
      case HasFailed => merged
  }

  /** The order in which receipts settle a status: base < failed < sent < delivered < read. */
  function Level(s: MessageStatus): nat {
    match s
    case NotSent => 1
    case Sent => 2
    case Delivered => 3
    case Read => 4
    case _ => 0
  }

  function Join(x: MessageStatus, y: MessageStatus): MessageStatus {
    if Level(x) >= Level(y) then x else y
  }

  /** A receipt moves the status to the join of what it was and what the receipt says, and nothing else of the identity. */
  lemma MergeIsJoin(m: Message, t: ReceiptType, at: Time, error: Option<string>)
    ensures MergeReceipt(m, t, at, error).status == Join(m.status, Target(t))
    ensures MergeReceipt(m, t, at, error).waId == m.waId && MergeReceipt(m, t, at, error).account == m.account
    ensures MergeReceipt(m, t, at, error).content == m.content
  {
  }
}
