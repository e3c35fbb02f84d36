/** The event-processing worker: the state its module-level clients hold
    (the processed-events table, the cache and the metrics counters) as the
    fields of one object, and its functions as methods that update them in
    place. Each method is proved against the functions of `WorkerModel`. */
module WorkerConsumer {
  import opened Wrappers
  import opened Text
  import opened JsonValue
  import opened Events
  import opened WorkerModel

  /** How many times the worker tries to reach the broker. */
  const ConnectAttempts := 10
  /** The wait between two connection attempts, in milliseconds. */
  const ConnectRetryDelay := 3000

  /** `connectWithRetry`: tries to connect while attempts remain, waiting
      between failed attempts; `ready(i)` says whether attempt `i` (from 0)
      reaches the broker and sets up the exchange, the queues and the
      consumers. */
  method ConnectWithRetry(retries: nat, ready: nat -> bool) returns (connected: bool, attempts: nat, waits: seq<nat>)
    ensures connected <==> exists i :: 0 <= i < retries && ready(i)
    ensures connected ==> 0 < attempts <= retries && ready(attempts - 1)
                          && forall i :: 0 <= i < attempts - 1 ==> !ready(i)
    ensures !connected ==> attempts == retries
    ensures waits == seq(if connected then attempts - 1 else attempts, _ => ConnectRetryDelay)
  {
    var left: nat := retries;
    attempts := 0;
    waits := [];
    while left > 0
      invariant left + attempts == retries
      invariant forall i :: 0 <= i < attempts ==> !ready(i)
      invariant waits == seq(attempts, _ => ConnectRetryDelay)
    {
      attempts := attempts + 1;
      if ready(attempts - 1) {
        connected := true;
        return;
      }
      left := left - 1;
      waits := waits + [ConnectRetryDelay];
    }
    connected := false;
  }

  class Worker {
    /** `JSON.parse` of the message body; None where it throws. */
    const parse: seq<bv8> -> Option<Json>
    /** The processed-events table, keyed by event id. */
    var ledger: map<string, string>
    /** The keys held by the cache. */
    var cache: set<string>
    var metrics: Metrics
    /** What the worker has done, in order. */
    var log: seq<Effect>

    function State(): WorkerState
      reads this
    {
      WorkerState(ledger, cache, metrics, log)
    }

    /** Starts with zeroed counters and an empty trace, over the given table
        and cache. */
    constructor(parse: seq<bv8> -> Option<Json>, ledger: map<string, string>, cache: set<string>)
      ensures this.parse == parse
      ensures State() == WorkerState(ledger, cache, Metrics(0, 0, 0, 0), [])
    {
      this.parse := parse;
      this.ledger := ledger;
      this.cache := cache;
      metrics := Metrics(0, 0, 0, 0);
      log := [];
    }

    /** `checkIfProcessed`: whether the table holds this event id with this
        event type; None when the query fails. */
    method CheckIfProcessed(eventId: string, eventType: string, fails: bool) returns (r: Option<bool>)
      ensures r.None? <==> fails
      ensures r.Some? ==> (r.value <==> eventId in ledger && ledger[eventId] == eventType)
    {
      if fails {
        return None;
      }
      r := Some(eventId in ledger && ledger[eventId] == eventType);
    }

    /** `markAsProcessed`: inserts the event unless its id is already in the
        table; false when the insert fails, leaving the table as it was. */
    method MarkAsProcessed(eventId: string, eventType: string, fails: bool) returns (ok: bool)
      modifies this
      ensures ok <==> !fails
      ensures ledger == (if fails then old(ledger) else Record(old(ledger), eventId, eventType))
      ensures cache == old(cache) && metrics == old(metrics) && log == old(log)
    {
      if fails {
        return false;
      }
      if eventId !in ledger {
        ledger := ledger[eventId := eventType];
      }
      ok := true;
    }

    /** `invalidateTicketsCache`: deletes every key matching `tickets:list*`
        when there is any; a failing cache changes nothing and raises
        nothing. */
    method InvalidateTicketsCache(fails: bool)
      modifies this
      ensures cache == Invalidate(old(cache), fails)
      ensures ledger == old(ledger) && metrics == old(metrics) && log == old(log)
    {
      if fails {
        return;
      }
      var keys := set k | k in cache && GlobMatch(InvalidationPattern, k);
      forall k | k in cache
        ensures k in keys <==> k !in Invalidate(cache, false)
      {
        InvalidateExact(cache, k);
      }
      if |keys| > 0 {
        cache := cache - keys;
      } else {
        assert cache == cache - keys;
      }
    }

    /** The four event handlers: each reads fields of `event.payload` and
        throws, returning false, when it cannot or when a field its log
        template interpolates does not convert to text. The ticket handlers
        invalidate the tickets-list cache (`ticket.created` before its
        template, `ticket.status_changed` after its first one); the message
        handler does not touch the cache. */
    method RunHandler(kind: EventType, event: Json, cacheFails: bool) returns (ok: bool)
      modifies this
      ensures ok <==> HandlerSucceeds(kind, event)
      ensures cache == HandlerCache(kind, event, old(cache), cacheFails)
      ensures ledger == old(ledger) && metrics == old(metrics) && log == old(log)
    {
      if event.JNull? || Nullish(Property(event, "payload")) {
        return false;
      }
      var payload := Property(event, "payload").value;
      match kind {
        case TicketCreated =>
          InvalidateTicketsCache(cacheFails);
          var owner := TemplateText(Property(payload, "ownerId"));
          ok := owner.Some?;
        case TicketStatusChanged =>
          var id := TemplateText(Property(payload, "id"));
          var oldStatus := TemplateText(Property(payload, "oldStatus"));
          var newStatus := TemplateText(Property(payload, "newStatus"));
          if id.None? || oldStatus.None? || newStatus.None? {
            return false;
          }
          InvalidateTicketsCache(cacheFails);
          ok := true;
        case TicketUpdated =>
          InvalidateTicketsCache(cacheFails);
          ok := true;
        case MessageSent =>
          var ticketId := TemplateText(Property(payload, "ticketId"));
          var authorId := TemplateText(Property(payload, "authorId"));
          ok := ticketId.Some? && authorId.Some?;
      }
    }

    /** `retryMessage`: waits the backoff for `count`, republishes the
        message to the exchange with its routing key, content and message id
        and with the retry header set to `next`, then acks the original. */
    method RetryMessage(d: Delivery, count: nat, next: HeaderValue)
      modifies this
      ensures log == old(log) + [Delay(BackoffDelay(count)),
                                 Publish(Exchange, d.routingKey, d.content, d.headers[RetryHeader := next], d.messageId, true),
                                 Ack(d.deliveryTag)]
      ensures ledger == old(ledger) && cache == old(cache) && metrics == old(metrics)
    {
      var delay := InitialRetryDelay * Pow2(count);
      if delay > MaxRetryDelay {
        delay := MaxRetryDelay;
      }
      log := log + [Delay(delay)];
      log := log + [Publish(Exchange, d.routingKey, d.content, d.headers[RetryHeader := next], d.messageId, true)];
      log := log + [Ack(d.deliveryTag)];
    }

    /** The `try` block of `handleMessage`: skips a duplicate, or runs the
        handler and records the event; true when it throws. */
    method TryHandle(kind: EventType, d: Delivery, faults: StoreFaults) returns (threw: bool)
      modifies this
      ensures threw <==> Process(old(State()), kind, d, parse, faults).Threw?
      ensures State() == Process(old(State()), kind, d, parse, faults).state
    {
      var messageId := MessageId(d);
      var eventType := kind.RoutingKey();
      var processed := CheckIfProcessed(messageId, eventType, faults.lookupFails);
      if processed.None? {
        return true;
      }
      if processed.value {
        metrics := metrics.(duplicates := metrics.duplicates + 1);
        log := log + [Ack(d.deliveryTag)];
        return false;
      }
      var event := parse(d.content);
      if event.None? {
        return true;
      }
      log := log + [HandlerInvoked(kind)];
      var handled := RunHandler(kind, event.value, faults.cacheFails);
      if !handled {
        return true;
      }
      var marked := MarkAsProcessed(messageId, eventType, faults.insertFails);
      if !marked {
        return true;
      }
      log := log + [MarkedProcessed(messageId, eventType), Ack(d.deliveryTag)];
      metrics := metrics.(processed := metrics.processed + 1);
      threw := false;
    }

    /** The `catch` block of `handleMessage`: retries below the limit,
        dead-letters at it. */
    method CatchFailure(d: Delivery)
      modifies this
      ensures State() == Fail(old(State()), d)
    {
      match RetryDecision(d.headers) {
        case Retry(count, next) =>
          RetryMessage(d, count, next);
          metrics := metrics.(retried := metrics.retried + 1);
        case Exhausted =>
          metrics := metrics.(failed := metrics.failed + 1);
          log := log + [Nack(d.deliveryTag, false, false)];
      }
    }

    /** `handleMessage` for a delivery from the queue of `kind`, with the
        store failures it meets. */
    method HandleMessage(kind: EventType, d: Delivery, faults: StoreFaults)
      modifies this
      ensures State() == Handle(old(State()), kind, d, parse, faults)
    {
      var threw := TryHandle(kind, d, faults);
      if threw {
        CatchFailure(d);
      }
    }

    /** A queue's consume callback: a null delivery is ignored, any other is
        handled. */
    method Consume(kind: EventType, msg: Option<Delivery>, faults: StoreFaults)
      modifies this
      ensures msg.None? ==> State() == old(State())
      ensures msg.Some? ==> State() == Handle(old(State()), kind, msg.value, parse, faults)
    {
      if msg.None? {
        return;
      }
      HandleMessage(kind, msg.value, faults);
    }
  }
}
