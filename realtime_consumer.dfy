/** The realtime service's RabbitMQ consumer: it forwards `message.sent` and
    `ticket.status_changed` events to the room of their ticket and settles
    every delivery with exactly one ack or nack. */
module RealtimeConsumer {
  import opened Wrappers
  import opened JsonValue
  import opened Events
  import opened RealtimeGateway

  const Exchange := "opsdesk.events"
  const QueueName := "realtime.queue"
  /** The routing keys the queue is bound to. */
  const Bindings := [MessageSent.RoutingKey(), TicketStatusChanged.RoutingKey()]

  datatype Delivery = Delivery(deliveryTag: nat, content: seq<bv8>)

  /** What the consumer tells the channel about a delivery. */
  datatype ChannelOp = Ack(tag: nat) | Nack(tag: nat, allUpTo: bool, requeue: bool)

  /** A call `emitToTicketRoom(event, ticketId, payload)`. */
  datatype TicketEmit = TicketEmit(event: string, ticketId: string, payload: Json) {
    function Emitted(): Emission {
      Emission(TicketRoom(ticketId), event, payload)
    }
  }

  /** Whether reading the ticket id throws: the payload is missing or null,
      or the id does not convert to text in the room name
      `ticket:${ticketId}` that `emitToTicketRoom` builds. */
  predicate IdUnreadable(parsed: Json, idField: string)
    requires !parsed.JNull?
  {
    var payload := Property(parsed, "payload");
    Nullish(payload) || TemplateText(Property(payload.value, idField)).None?
  }

  /** The emission for an event whose payload carries the ticket id under
      `idField`; None when that throws. A missing id is interpolated as
      `undefined`. */
  function EmitFor(parsed: Json, event: string, idField: string): (r: Option<TicketEmit>)
    requires !parsed.JNull?
    ensures r.None? <==> IdUnreadable(parsed, idField)
    ensures r.Some? ==> r.value.event == event && r.value.payload == Property(parsed, "payload").value
    ensures r.Some? ==> Some(r.value.ticketId) == TemplateText(Property(Property(parsed, "payload").value, idField))
  {
    var payload := Property(parsed, "payload");
    match ReadProperty(payload, idField)
    case None => None
    case Some(ticketId) =>
      match TemplateText(ticketId)
      case None => None
      case Some(room) => Some(TicketEmit(event, room, payload.value))
  }

  /** The handling of a parsed message: None when it throws, otherwise the
      emission it makes, if any. */
  function Route(parsed: Json): (r: Option<Option<TicketEmit>>)
    ensures r.None? <==> parsed.JNull?
                         || (Property(parsed, "event") == Some(JStr("message.sent")) && IdUnreadable(parsed, "ticketId"))
                         || (Property(parsed, "event") == Some(JStr("ticket.status_changed")) && IdUnreadable(parsed, "id"))
    ensures r.Some? && r.value.Some? ==>
              Property(parsed, "event") in {Some(JStr("message.sent")), Some(JStr("ticket.status_changed"))}
    ensures !parsed.JNull? && Property(parsed, "event") == Some(JStr("message.sent"))
            && !IdUnreadable(parsed, "ticketId")
            ==> r == Some(EmitFor(parsed, "message:new", "ticketId"))
    ensures !parsed.JNull? && Property(parsed, "event") == Some(JStr("ticket.status_changed"))
            && !IdUnreadable(parsed, "id")
            ==> r == Some(EmitFor(parsed, "ticket:statusChanged", "id"))
    ensures !parsed.JNull? && Property(parsed, "event") !in {Some(JStr("message.sent")), Some(JStr("ticket.status_changed"))}
            ==> r == Some(None)
  {
    if parsed.JNull? then None
    else
      var event := Property(parsed, "event");
      if event == Some(JStr("message.sent")) then
        match EmitFor(parsed, "message:new", "ticketId")
        case None => None
        case Some(e) => Some(Some(e))
      else if event == Some(JStr("ticket.status_changed")) then
        match EmitFor(parsed, "ticket:statusChanged", "id")
        case None => None
        case Some(e) => Some(Some(e))
      else Some(None)
  }

  /** The emissions a delivery causes and whether it is acked; a body that
      does not parse as JSON is nacked. */
  function Handle(parse: seq<bv8> -> Option<Json>, content: seq<bv8>): (r: (seq<Emission>, bool))
    ensures |r.0| <= 1
    ensures !r.1 ==> r.0 == []
    ensures r.1 <==> parse(content).Some? && Route(parse(content).value).Some?
    ensures r.1 ==> var route := Route(parse(content).value).value;
                    r.0 == (if route.Some? then [route.value.Emitted()] else [])
  {
    match parse(content)
    case None => ([], false)
    case Some(parsed) =>
      match Route(parsed)
      case None => ([], false)
      case Some(None) => ([], true)
      case Some(Some(e)) => ([e.Emitted()], true)
  }

  /** A message-sent event reaches the room of its ticket as `message:new`
      with its payload. */
  lemma MessageSentReachesTicketRoom(e: MessageSentPayload)
    ensures Route(Encode(Sent(e))) == Some(Some(TicketEmit("message:new", e.ticketId, JObj(PayloadFields(Sent(e))))))
  {
    var j := Encode(Sent(e));
    assert Property(j, "event") == Some(JStr("message.sent"));
    assert Property(JObj(PayloadFields(Sent(e))), "ticketId") == Some(JStr(e.ticketId));
  }

  /** A status change reaches the room of its ticket as
      `ticket:statusChanged`. */
  lemma StatusChangedReachesTicketRoom(e: TicketStatusChangedPayload)
    ensures Route(Encode(StatusChanged(e)))
            == Some(Some(TicketEmit("ticket:statusChanged", e.id, JObj(PayloadFields(StatusChanged(e))))))
  {
    var j := Encode(StatusChanged(e));
    assert Property(j, "event") == Some(JStr("ticket.status_changed"));
    assert Property(JObj(PayloadFields(StatusChanged(e))), "id") == Some(JStr(e.id));
  }

  /** A message whose ticket id is an object with its own `toString` key
      throws while the room name is built, so it is nacked and nothing is
      emitted. */
  lemma UnconvertibleTicketIdNacked(id: map<string, Json>, other: map<string, Json>)
    requires "toString" in id
    ensures var parsed := JObj(map["event" := JStr("message.sent"), "payload" := JObj(other["ticketId" := JObj(id)])]);
            Route(parsed).None?
  {
    var parsed := JObj(map["event" := JStr("message.sent"), "payload" := JObj(other["ticketId" := JObj(id)])]);
    assert Property(parsed, "event") == Some(JStr("message.sent"));
    assert Property(Property(parsed, "payload").value, "ticketId") == Some(JObj(id));
  }

  /** The other two events are acked without any emission. */
  lemma OtherEventsAckedSilently(p: Payload)
    requires p.Created? || p.Updated?
    ensures Route(Encode(p)) == Some(None)
  {
    var j := Encode(p);
    assert Property(j, "event") == Some(JStr(p.Type().RoutingKey()));
  }

  class Consumer {
    /** `JSON.parse` of the message body; None where it throws. */
    const parse: seq<bv8> -> Option<Json>
    const gateway: Gateway
    var channel: seq<ChannelOp>

    constructor(parse: seq<bv8> -> Option<Json>, gateway: Gateway)
      ensures this.parse == parse && this.gateway == gateway && channel == []
    {
      this.parse := parse;
      this.gateway := gateway;
      channel := [];
    }

    /** The consume callback: a null delivery is ignored; any other is
        settled exactly once, with an ack after its emission or a nack
        without requeue when handling throws. */
    method OnMessage(msg: Option<Delivery>)
      modifies this, gateway
      ensures msg.None? ==> channel == old(channel) && gateway.emitted == old(gateway.emitted)
      ensures msg.Some? ==>
                var (emissions, acked) := Handle(parse, msg.value.content);
                gateway.emitted == old(gateway.emitted) + emissions
                && channel == old(channel) + [if acked then Ack(msg.value.deliveryTag)
                                              else Nack(msg.value.deliveryTag, false, false)]
    {
      if msg.None? {
        return;
      }
      var tag := msg.value.deliveryTag;
      var parsed := parse(msg.value.content);
      if parsed.None? {
        channel := channel + [Nack(tag, false, false)];
        return;
      }
      var route := Route(parsed.value);
      match route {
        case None =>
          channel := channel + [Nack(tag, false, false)];
        case Some(None) =>
          channel := channel + [Ack(tag)];
        case Some(Some(e)) =>
          gateway.EmitToTicketRoom(e.event, e.ticketId, e.payload);
          channel := channel + [Ack(tag)];
      }
    }
  }
}
