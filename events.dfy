/** The four domain events published on the `opsdesk.events` topic exchange,
    with the payload shapes of their interfaces, and their JSON form
    `{ event, payload }`. */
module Events {
  import opened Wrappers
  import opened JsonValue

  datatype EventType = TicketCreated | TicketStatusChanged | TicketUpdated | MessageSent {
    /** The routing key, which is also the `event` field of the message. */
    function RoutingKey(): string {
      match this
      case TicketCreated => "ticket.created"
      case TicketStatusChanged => "ticket.status_changed"
      case TicketUpdated => "ticket.updated"
      case MessageSent => "message.sent"
    }
  }

  lemma RoutingKeyInjective(a: EventType, b: EventType)
    requires a.RoutingKey() == b.RoutingKey()
    ensures a == b
  {
  }

  datatype TicketCreatedPayload = TicketCreatedPayload(
    id: string, title: string, description: string, ownerId: string, createdAt: string)

  datatype TicketStatusChangedPayload = TicketStatusChangedPayload(
    id: string, oldStatus: string, newStatus: string, changedBy: string, changedAt: string)

  datatype TicketUpdatedPayload = TicketUpdatedPayload(
    id: string, title: Option<string>, description: Option<string>,
    updatedBy: string, updatedAt: string)

  datatype MessageSentPayload = MessageSentPayload(
    id: string, ticketId: string, authorId: string, content: string, sentAt: string)

  /** An event of one of the four types, with its payload. */
  datatype Payload =
    | Created(created: TicketCreatedPayload)
    | StatusChanged(statusChanged: TicketStatusChangedPayload)
    | Updated(updated: TicketUpdatedPayload)
    | Sent(sent: MessageSentPayload)
  {
    function Type(): EventType {
      match this
      case Created(_) => TicketCreated
      case StatusChanged(_) => TicketStatusChanged
      case Updated(_) => TicketUpdated
      case Sent(_) => MessageSent
    }
  }

  /** The payload object as JSON.stringify writes it (absent optional fields
      are omitted). */
  function PayloadFields(p: Payload): map<string, Json> {
    match p
    case Created(e) =>
      map["id" := JStr(e.id), "title" := JStr(e.title), "description" := JStr(e.description),
          "ownerId" := JStr(e.ownerId), "createdAt" := JStr(e.createdAt)]
    case StatusChanged(e) =>
      map["id" := JStr(e.id), "oldStatus" := JStr(e.oldStatus), "newStatus" := JStr(e.newStatus),
          "changedBy" := JStr(e.changedBy), "changedAt" := JStr(e.changedAt)]
    case Updated(e) =>
      var base := map["id" := JStr(e.id), "updatedBy" := JStr(e.updatedBy), "updatedAt" := JStr(e.updatedAt)];
      var withTitle := if e.title.Some? then base["title" := JStr(e.title.value)] else base;
      if e.description.Some? then withTitle["description" := JStr(e.description.value)] else withTitle
    case Sent(e) =>
      map["id" := JStr(e.id), "ticketId" := JStr(e.ticketId), "authorId" := JStr(e.authorId),
          "content" := JStr(e.content), "sentAt" := JStr(e.sentAt)]
  }

  /** The message body `{ event, payload }` of an event. */
  function Encode(p: Payload): (j: Json)
    ensures j.JObj? && "event" in j.fields && "payload" in j.fields
    ensures j.fields["event"] == JStr(p.Type().RoutingKey())
    ensures j.fields["payload"] == JObj(PayloadFields(p))
  {
    JObj(map["event" := JStr(p.Type().RoutingKey()), "payload" := JObj(PayloadFields(p))])
  }
}
