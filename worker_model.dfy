/** The event-processing worker's handling of one delivery, as functions of
    its state: the processed-events ledger, the set of cache keys, the four
    counters and the trace of what it did (handler calls, ledger writes,
    waits, and what it told the broker). Store failures are inputs. */
module WorkerModel {
  import opened Wrappers
  import opened Text
  import opened JsonValue
  import opened Events
  import CacheKeys

  const Exchange := "opsdesk.events"
  const DeadLetterQueue := "tickets.dlq"
  const MaxRetries := 3
  const InitialRetryDelay := 1000
  const MaxRetryDelay := 30000
  const RetryHeader := "x-retry-count"
  const InvalidationPattern := "tickets:list*"

  // ---- queues -------------------------------------------------------------

  /** The queue each event type is consumed from. It is bound to the
      exchange with the event type's routing key, which is also the event
      type the ledger records. */
  function QueueName(t: EventType): (r: string)
    ensures r == t.RoutingKey() + ".queue"
  {
    match t
    case TicketCreated => "ticket.created.queue"
    case TicketStatusChanged => "ticket.status_changed.queue"
    case TicketUpdated => "ticket.updated.queue"
    case MessageSent => "message.sent.queue"
  }

  /** Each event type has a queue of its own. */
  lemma QueueNameInjective(a: EventType, b: EventType)
    requires QueueName(a) == QueueName(b)
    ensures a == b
  {
    var q := QueueName(a);
    assert a.RoutingKey() == q[..|q| - 6];
    assert b.RoutingKey() == q[..|q| - 6];
    RoutingKeyInjective(a, b);
  }

  // ---- deliveries -----------------------------------------------------------

  /** A header value: a number, or a text. */
  datatype HeaderValue = Number(n: nat) | Str(s: string)

  datatype Delivery = Delivery(
    deliveryTag: nat,
    routingKey: string,
    content: seq<bv8>,
    messageId: Option<string>,
    headers: map<string, HeaderValue>)

  /** `messageId || deliveryTag.toString()`: an empty message id falls back
      to the delivery tag too. */
  function MessageId(d: Delivery): (r: string)
    ensures d.messageId.Some? && d.messageId.value != "" ==> r == d.messageId.value
    ensures d.messageId.None? || d.messageId.value == "" ==> r == NatToString(d.deliveryTag)
  {
    if d.messageId.Some? && d.messageId.value != "" then d.messageId.value
    else NatToString(d.deliveryTag)
  }

  /** What a failure does with a delivery: republish it after the backoff for
      `count`, with `next` as its retry header, or dead-letter it. */
  datatype RetryState = Retry(count: nat, next: HeaderValue) | Exhausted

  /** `headers['x-retry-count'] || 0` compared with `MAX_RETRIES`, and the
      header the republished copy carries (`count + 1`, which on a text is
      concatenation). Of the texts, only the empty one and plain decimal
      digits are compared by value; every other text is taken as never
      below the limit. */
  function RetryDecision(headers: map<string, HeaderValue>): RetryState {
    if RetryHeader !in headers then Retry(0, Number(1))
    else match headers[RetryHeader]
      case Number(n) => if n < MaxRetries then Retry(n, Number(n + 1)) else Exhausted
      case Str(s) =>
        if s == "" then Retry(0, Number(1))
        else if AllDigits(s) && ParseDigits(s) < MaxRetries then Retry(ParseDigits(s), Str(s + "1"))
        else Exhausted
  }

  /** A numeric count is retried exactly while it is below 3, and the copy
      carries the next count. */
  lemma RetryDecisionOfNumber(headers: map<string, HeaderValue>)
    requires RetryHeader !in headers || headers[RetryHeader].Number?
    ensures var n := if RetryHeader in headers then headers[RetryHeader].n else 0;
            (n < MaxRetries ==> RetryDecision(headers) == Retry(n, Number(n + 1)))
            && (n >= MaxRetries ==> RetryDecision(headers) == Exhausted)
  {
  }

  // ---- backoff ----------------------------------------------------------------

  function Pow2(n: nat): (r: nat)
    ensures r >= 1
  {
    if n == 0 then 1 else 2 * Pow2(n - 1)
  }

  lemma {:induction false} Pow2Monotone(m: nat, n: nat)
    requires m <= n
    ensures Pow2(m) <= Pow2(n)
  {
    if m < n {
      Pow2Monotone(m, n - 1);
    }
  }

  /** `Math.min(INITIAL_RETRY_DELAY * 2 ** count, MAX_RETRY_DELAY)` */
  function BackoffDelay(count: nat): nat {
    var d := InitialRetryDelay * Pow2(count);
    if d < MaxRetryDelay then d else MaxRetryDelay
  }

  /** The delays before the first three republications, and the cap. */
  lemma BackoffValues()
    ensures BackoffDelay(0) == 1000 && BackoffDelay(1) == 2000 && BackoffDelay(2) == 4000
    ensures BackoffDelay(5) == MaxRetryDelay
  {
    assert Pow2(5) == 32;
  }

  lemma BackoffBounds(count: nat)
    ensures InitialRetryDelay <= BackoffDelay(count) <= MaxRetryDelay
  {
  }

  lemma BackoffMonotone(m: nat, n: nat)
    requires m <= n
    ensures BackoffDelay(m) <= BackoffDelay(n)
  {
    Pow2Monotone(m, n);
  }

  // ---- state --------------------------------------------------------------------

  /** What the worker does, in order. */
  datatype Effect =
    | HandlerInvoked(kind: EventType)
    | MarkedProcessed(eventId: string, eventType: string)
    | Delay(ms: nat)
    | Publish(exchange: string, routingKey: string, content: seq<bv8>,
              headers: map<string, HeaderValue>, messageId: Option<string>, persistent: bool)
    | Ack(tag: nat)
    | Nack(tag: nat, allUpTo: bool, requeue: bool)

  /** An effect that settles the delivery with the broker. */
  predicate Settles(e: Effect) {
    e.Ack? || e.Nack?
  }

  /** Which store operations fail on this delivery: the ledger lookup, the
      ledger insert, and the cache's KEYS/DEL. */
  datatype StoreFaults = StoreFaults(lookupFails: bool, insertFails: bool, cacheFails: bool)

  datatype Metrics = Metrics(processed: nat, failed: nat, retried: nat, duplicates: nat)

  /** The ledger maps an event id to the event type recorded with it (the
      event id is the table's unique key). */
  datatype WorkerState = WorkerState(
    ledger: map<string, string>,
    cache: set<string>,
    metrics: Metrics,
    log: seq<Effect>)

  // ---- ledger -------------------------------------------------------------------

  /** `checkIfProcessed`: the lookup is by event id and event type. */
  predicate IsRecorded(ledger: map<string, string>, eventId: string, eventType: string) {
    eventId in ledger && ledger[eventId] == eventType
  }

  /** `markAsProcessed`: an insert that does nothing when the event id is
      already present, whatever type it was recorded with. */
  function Record(ledger: map<string, string>, eventId: string, eventType: string): (r: map<string, string>)
    ensures eventId in r
    ensures eventId in ledger ==> r == ledger
    ensures eventId !in ledger ==> r == ledger[eventId := eventType]
    ensures forall k :: k in ledger ==> k in r && r[k] == ledger[k]
  {
    if eventId in ledger then ledger else ledger[eventId := eventType]
  }

  // ---- cache ----------------------------------------------------------------------

  /** `invalidateTicketsCache`: deletes the tickets-list keys; when the
      cache fails nothing is deleted and nothing is raised. That these are
      the keys KEYS `tickets:list*` returns is `InvalidateExact`. */
  function Invalidate(cache: set<string>, fails: bool): set<string> {
    if fails then cache else set k | k in cache && !StartsWith(k, CacheKeys.ListPrefix)
  }

  lemma InvalidationPatternIsListPattern()
    ensures InvalidationPattern == CacheKeys.TicketsListPattern()
    ensures InvalidationPattern == CacheKeys.ListPrefix + "*"
  {
  }

  /** Invalidation removes exactly the keys that KEYS `tickets:list*`
      returns, which are the keys that start with `tickets:list`. */
  lemma InvalidateExact(cache: set<string>, k: string)
    ensures k in Invalidate(cache, false) <==> k in cache && !GlobMatch(InvalidationPattern, k)
    ensures k in Invalidate(cache, false) <==> k in cache && !StartsWith(k, CacheKeys.ListPrefix)
  {
    assert InvalidationPattern == CacheKeys.ListPrefix + "*";
    assert Literal(CacheKeys.ListPrefix);
    GlobLiteralStar(CacheKeys.ListPrefix, k);
  }

  /** Every tickets-list key the API builds is removed, and the permission
      and single-ticket keys survive. */
  lemma InvalidationScope(cache: set<string>, p: CacheKeys.ListParams, userId: string, ticketId: string)
    ensures CacheKeys.ListKey(p) !in Invalidate(cache, false)
    ensures CacheKeys.UserPermissions(userId) in cache ==> CacheKeys.UserPermissions(userId) in Invalidate(cache, false)
    ensures CacheKeys.Ticket(ticketId) in cache ==> CacheKeys.Ticket(ticketId) in Invalidate(cache, false)
  {
    CacheKeys.ListKeyMatchesPattern(p);
    InvalidateExact(cache, CacheKeys.ListKey(p));
    var u := CacheKeys.UserPermissions(userId);
    InvalidateExact(cache, u);
    assert u[0] != CacheKeys.ListPrefix[0];
    var t := CacheKeys.Ticket(ticketId);
    InvalidateExact(cache, t);
    assert t[6] != CacheKeys.ListPrefix[6];
  }

  // ---- handling ---------------------------------------------------------------------

  /** Whether a handler can read its event: every handler reads fields of
      `event.payload`, which throws when the parsed value or its payload is
      null or missing. */
  predicate PayloadReadable(j: Json) {
    !j.JNull? && !Nullish(Property(j, "payload"))
  }

  /** Whether `${payload.field}` converts without throwing. */
  predicate FieldConverts(payload: Json, field: string)
    requires !payload.JNull?
  {
    TemplateText(Property(payload, field)).Some?
  }

  /** Whether the status handler's first log line converts: it interpolates
      the id and both statuses. */
  predicate StatusLineConverts(payload: Json)
    requires !payload.JNull?
  {
    FieldConverts(payload, "id") && FieldConverts(payload, "oldStatus") && FieldConverts(payload, "newStatus")
  }

  /** Whether the handler for `kind` returns normally: it can read the
      payload and every payload field its template literals interpolate
      converts to text (`ownerId`; `id`, `oldStatus` and `newStatus`;
      nothing; `ticketId` and `authorId`). */
  predicate HandlerSucceeds(kind: EventType, j: Json) {
    PayloadReadable(j)
    && var payload := Property(j, "payload").value;
       match kind
       case TicketCreated => FieldConverts(payload, "ownerId")
       case TicketStatusChanged => StatusLineConverts(payload)
       case TicketUpdated => true
       case MessageSent => FieldConverts(payload, "ticketId") && FieldConverts(payload, "authorId")
  }

  /** The cache after a handler, whether or not it then throws: the
      `ticket.created` and `ticket.updated` handlers invalidate right after
      reading the payload; the status handler invalidates after its first
      log line, so only when that line converts; `message.sent` does not
      touch the cache. */
  function HandlerCache(kind: EventType, j: Json, cache: set<string>, fails: bool): set<string> {
    if !PayloadReadable(j) then cache
    else match kind
      case TicketStatusChanged =>
        if StatusLineConverts(Property(j, "payload").value) then Invalidate(cache, fails) else cache
      case MessageSent => cache
      case _ => Invalidate(cache, fails)
  }

  /** A handler that succeeds has invalidated exactly when it handles a
      ticket event; one that throws has invalidated only when it is the
      `ticket.created` handler, which clears the cache before the template
      that throws, so the retried message invalidates again. */
  lemma HandlerCacheOutcome(kind: EventType, j: Json, cache: set<string>, fails: bool)
    ensures HandlerSucceeds(kind, j) ==>
              HandlerCache(kind, j, cache, fails) == (if kind == MessageSent then cache else Invalidate(cache, fails))
    ensures !HandlerSucceeds(kind, j) ==>
              HandlerCache(kind, j, cache, fails)
                == (if kind == TicketCreated && PayloadReadable(j) then Invalidate(cache, fails) else cache)
  {
  }

  /** Every well-formed event is handled without throwing: its payload is
      an object and every interpolated field is a string. */
  lemma EncodedEventsReadable(p: Payload)
    ensures HandlerSucceeds(p.Type(), Encode(p))
  {
    var payload := Property(Encode(p), "payload").value;
    assert payload == JObj(PayloadFields(p));
    match p
    case Created(e) =>
      assert Property(payload, "ownerId") == Some(JStr(e.ownerId));
    case StatusChanged(e) =>
      assert Property(payload, "id") == Some(JStr(e.id));
      assert Property(payload, "oldStatus") == Some(JStr(e.oldStatus));
      assert Property(payload, "newStatus") == Some(JStr(e.newStatus));
    case Updated(e) =>
    case Sent(e) =>
      assert Property(payload, "ticketId") == Some(JStr(e.ticketId));
      assert Property(payload, "authorId") == Some(JStr(e.authorId));
  }

  /** Where the `try` block of `handleMessage` ends: acked as a duplicate,
      completed, or thrown (with what happened before the throw). */
  datatype Processing = Duplicate(state: WorkerState) | Completed(state: WorkerState) | Threw(state: WorkerState)

  /** The `try` block of `handleMessage`. */
  function Process(s: WorkerState, kind: EventType, d: Delivery,
                   parse: seq<bv8> -> Option<Json>, faults: StoreFaults): Processing
  {
    var id := MessageId(d);
    var eventType := kind.RoutingKey();
    if faults.lookupFails then Threw(s)
    else if IsRecorded(s.ledger, id, eventType) then
      Duplicate(s.(metrics := s.metrics.(duplicates := s.metrics.duplicates + 1),
                   log := s.log + [Ack(d.deliveryTag)]))
    else match parse(d.content)
      case None => Threw(s)
      case Some(j) =>
        var handled := s.(log := s.log + [HandlerInvoked(kind)],
                          cache := HandlerCache(kind, j, s.cache, faults.cacheFails));
        if !HandlerSucceeds(kind, j) || faults.insertFails then Threw(handled)
        else Completed(handled.(ledger := Record(s.ledger, id, eventType),
                                log := handled.log + [MarkedProcessed(id, eventType), Ack(d.deliveryTag)],
                                metrics := s.metrics.(processed := s.metrics.processed + 1)))
  }

  /** What the `catch` block tells the broker: wait the backoff, republish
      the message with the next retry count and ack the original; or, once
      the count has reached the limit, nack it without requeue so that it
      goes to the dead-letter queue. */
  function FailEffects(d: Delivery): (t: seq<Effect>)
    ensures |t| > 0 && t[|t| - 1] == (if RetryDecision(d.headers).Retry? then Ack(d.deliveryTag)
                                      else Nack(d.deliveryTag, false, false))
    ensures forall i :: 0 <= i < |t| - 1 ==> !Settles(t[i])
  {
    match RetryDecision(d.headers)
    case Retry(count, next) =>
      [Delay(BackoffDelay(count)),
       Publish(Exchange, d.routingKey, d.content, d.headers[RetryHeader := next], d.messageId, true),
       Ack(d.deliveryTag)]
    case Exhausted => [Nack(d.deliveryTag, false, false)]
  }

  /** The `catch` block: its effects, and the retried or failed counter. */
  function Fail(s: WorkerState, d: Delivery): WorkerState {
    if RetryDecision(d.headers).Retry? then
      s.(log := s.log + FailEffects(d), metrics := s.metrics.(retried := s.metrics.retried + 1))
    else
      s.(log := s.log + FailEffects(d), metrics := s.metrics.(failed := s.metrics.failed + 1))
  }

  /** `handleMessage` for a delivery from the queue of `kind`. */
  function Handle(s: WorkerState, kind: EventType, d: Delivery,
                  parse: seq<bv8> -> Option<Json>, faults: StoreFaults): WorkerState
  {
    match Process(s, kind, d, parse, faults)
    case Duplicate(st) => st
    case Completed(st) => st
    case Threw(st) => Fail(st, d)
  }

  // ---- properties of one delivery --------------------------------------------------

  /** The effects of the `try` block, as a list: the ack of a duplicate, or
      the handler call followed, when the handler and the ledger write
      succeed, by the ledger write and the ack. */
  function TryEffects(s: WorkerState, kind: EventType, d: Delivery,
                      parse: seq<bv8> -> Option<Json>, faults: StoreFaults): (t: seq<Effect>)
    ensures Process(s, kind, d, parse, faults).state.log == s.log + t
    ensures Process(s, kind, d, parse, faults).Threw? ==> t == [] || t == [HandlerInvoked(kind)]
  {
    if faults.lookupFails then []
    else if IsRecorded(s.ledger, MessageId(d), kind.RoutingKey()) then [Ack(d.deliveryTag)]
    else match parse(d.content)
      case None => []
      case Some(j) =>
        if !HandlerSucceeds(kind, j) || faults.insertFails then [HandlerInvoked(kind)]
        else [HandlerInvoked(kind), MarkedProcessed(MessageId(d), kind.RoutingKey()), Ack(d.deliveryTag)]
  }

  /** What the worker did for the delivery: the effects added to the trace. */
  function Trace(s: WorkerState, kind: EventType, d: Delivery,
                 parse: seq<bv8> -> Option<Json>, faults: StoreFaults): (t: seq<Effect>)
    ensures Handle(s, kind, d, parse, faults).log == s.log + t
  {
    var before := TryEffects(s, kind, d, parse, faults);
    if Process(s, kind, d, parse, faults).Threw? then before + FailEffects(d) else before
  }

  /** Each delivery is settled exactly once, and settling is the last thing
      done for it. */
  lemma ExactlyOneSettlement(s: WorkerState, kind: EventType, d: Delivery,
                             parse: seq<bv8> -> Option<Json>, faults: StoreFaults)
    ensures var t := Trace(s, kind, d, parse, faults);
            |t| > 0 && Settles(t[|t| - 1]) && t[|t| - 1].tag == d.deliveryTag
            && forall i :: 0 <= i < |t| - 1 ==> !Settles(t[i])
  {
    var t := Trace(s, kind, d, parse, faults);
    var before := TryEffects(s, kind, d, parse, faults);
    if Process(s, kind, d, parse, faults).Threw? {
      var f := FailEffects(d);
      assert t == before + f;
      forall i | 0 <= i < |t| - 1
        ensures !Settles(t[i])
      {
        if i >= |before| {
          assert t[i] == f[i - |before|];
        }
      }
    }
  }

  /** A delivery whose id is recorded with this event type is acked and
      counted as a duplicate; the handler is not invoked and the ledger and
      the cache are unchanged. */
  lemma DuplicateDelivery(s: WorkerState, kind: EventType, d: Delivery,
                          parse: seq<bv8> -> Option<Json>, faults: StoreFaults)
    requires !faults.lookupFails && IsRecorded(s.ledger, MessageId(d), kind.RoutingKey())
    ensures var s' := Handle(s, kind, d, parse, faults);
            Trace(s, kind, d, parse, faults) == [Ack(d.deliveryTag)]
            && s'.ledger == s.ledger && s'.cache == s.cache
            && s'.metrics == s.metrics.(duplicates := s.metrics.duplicates + 1)
  {
  }

  /** An event published without a message id is recorded under its
      delivery tag's text. A later delivery of any other such event that
      gets the same tag (tags restart with each channel, the ledger does
      not) is acked as a duplicate and its handler never runs. */
  lemma TagFallbackDuplicate(s: WorkerState, kind: EventType, d1: Delivery, d2: Delivery,
                             parse: seq<bv8> -> Option<Json>, f1: StoreFaults, f2: StoreFaults)
    requires d1.messageId.None? && d2.messageId.None? && d1.deliveryTag == d2.deliveryTag
    requires NatToString(d1.deliveryTag) !in s.ledger
    requires Process(s, kind, d1, parse, f1).Completed? && !f2.lookupFails
    ensures Trace(Handle(s, kind, d1, parse, f1), kind, d2, parse, f2) == [Ack(d2.deliveryTag)]
  {
    var s1 := Handle(s, kind, d1, parse, f1);
    assert IsRecorded(s1.ledger, MessageId(d2), kind.RoutingKey());
    DuplicateDelivery(s1, kind, d2, parse, f2);
  }

  /** The success path: handler, then the ledger write, then the ack, and the
      processed counter; it is taken exactly when nothing fails. */
  lemma SuccessPath(s: WorkerState, kind: EventType, d: Delivery,
                    parse: seq<bv8> -> Option<Json>, faults: StoreFaults)
    ensures Process(s, kind, d, parse, faults).Completed? <==>
              !faults.lookupFails && !IsRecorded(s.ledger, MessageId(d), kind.RoutingKey())
              && parse(d.content).Some? && HandlerSucceeds(kind, parse(d.content).value) && !faults.insertFails
    ensures Process(s, kind, d, parse, faults).Completed? ==>
              var s' := Handle(s, kind, d, parse, faults);
              Trace(s, kind, d, parse, faults)
                == [HandlerInvoked(kind), MarkedProcessed(MessageId(d), kind.RoutingKey()), Ack(d.deliveryTag)]
              && s'.metrics == s.metrics.(processed := s.metrics.processed + 1)
              && s'.ledger == Record(s.ledger, MessageId(d), kind.RoutingKey())
              && s'.cache == (if kind == MessageSent then s.cache else Invalidate(s.cache, faults.cacheFails))
  {
  }

  /** A `try` block that throws leaves the ledger and the counters as they
      were, and the `catch` block's effects follow its own. */
  lemma ThrewThenCaught(s: WorkerState, kind: EventType, d: Delivery,
                        parse: seq<bv8> -> Option<Json>, faults: StoreFaults)
    requires Process(s, kind, d, parse, faults).Threw?
    ensures Process(s, kind, d, parse, faults).state.ledger == s.ledger
    ensures Process(s, kind, d, parse, faults).state.metrics == s.metrics
    ensures Handle(s, kind, d, parse, faults) == Fail(Process(s, kind, d, parse, faults).state, d)
    ensures Trace(s, kind, d, parse, faults) == TryEffects(s, kind, d, parse, faults) + FailEffects(d)
  {
  }

  /** Below the limit, a failure ends with wait, republish and ack. */
  lemma FailureRetried(s: WorkerState, kind: EventType, d: Delivery,
                       parse: seq<bv8> -> Option<Json>, faults: StoreFaults)
    requires Process(s, kind, d, parse, faults).Threw? && RetryDecision(d.headers).Retry?
    ensures var s' := Handle(s, kind, d, parse, faults);
            var t := Trace(s, kind, d, parse, faults);
            var r := RetryDecision(d.headers);
            s'.ledger == s.ledger
            && |t| >= 3
            && t[|t| - 3..] == [Delay(BackoffDelay(r.count)),
                                Publish(Exchange, d.routingKey, d.content,
                                        d.headers[RetryHeader := r.next], d.messageId, true),
                                Ack(d.deliveryTag)]
            && s'.metrics == s.metrics.(retried := s.metrics.retried + 1)
  {
    ThrewThenCaught(s, kind, d, parse, faults);
    var t := Trace(s, kind, d, parse, faults);
    var f := FailEffects(d);
    assert t[|t| - 3..] == f;
  }

  /** At the limit, a failure ends with a nack and publishes nothing. */
  lemma FailureExhausted(s: WorkerState, kind: EventType, d: Delivery,
                         parse: seq<bv8> -> Option<Json>, faults: StoreFaults)
    requires Process(s, kind, d, parse, faults).Threw? && RetryDecision(d.headers).Exhausted?
    ensures var s' := Handle(s, kind, d, parse, faults);
            var t := Trace(s, kind, d, parse, faults);
            s'.ledger == s.ledger
            && |t| >= 1 && t[|t| - 1] == Nack(d.deliveryTag, false, false)
            && (forall i :: 0 <= i < |t| ==> !t[i].Publish?)
            && s'.metrics == s.metrics.(failed := s.metrics.failed + 1)
  {
    ThrewThenCaught(s, kind, d, parse, faults);
    var t := Trace(s, kind, d, parse, faults);
    var before := TryEffects(s, kind, d, parse, faults);
    var f := FailEffects(d);
    forall i | 0 <= i < |t|
      ensures !t[i].Publish?
    {
      if i >= |before| {
        assert t[i] == f[i - |before|];
      }
    }
  }

  /** Any failure below the retry limit republishes the message after the
      backoff and then acks the original; at the limit it nacks without
      requeue and publishes nothing. The ledger never changes on failure. */
  lemma FailurePath(s: WorkerState, kind: EventType, d: Delivery,
                    parse: seq<bv8> -> Option<Json>, faults: StoreFaults)
    requires Process(s, kind, d, parse, faults).Threw?
    ensures var s' := Handle(s, kind, d, parse, faults);
            var t := Trace(s, kind, d, parse, faults);
            s'.ledger == s.ledger
            && (RetryDecision(d.headers).Retry? ==>
                  var r := RetryDecision(d.headers);
                  |t| >= 3
                  && t[|t| - 3..] == [Delay(BackoffDelay(r.count)),
                                      Publish(Exchange, d.routingKey, d.content,
                                              d.headers[RetryHeader := r.next], d.messageId, true),
                                      Ack(d.deliveryTag)]
                  && s'.metrics == s.metrics.(retried := s.metrics.retried + 1))
            && (RetryDecision(d.headers).Exhausted? ==>
                  |t| >= 1 && t[|t| - 1] == Nack(d.deliveryTag, false, false)
                  && (forall i :: 0 <= i < |t| ==> !t[i].Publish?)
                  && s'.metrics == s.metrics.(failed := s.metrics.failed + 1))
  {
    if RetryDecision(d.headers).Retry? {
      FailureRetried(s, kind, d, parse, faults);
    } else {
      FailureExhausted(s, kind, d, parse, faults);
    }
  }

  /** The republished copy keeps every other header as it was. */
  lemma RepublishKeepsHeaders(d: Delivery, h: string)
    requires RetryDecision(d.headers).Retry? && h != RetryHeader && h in d.headers
    ensures var headers := d.headers[RetryHeader := RetryDecision(d.headers).next];
            h in headers && headers[h] == d.headers[h]
  {
  }

  /** The counters never decrease, and exactly one goes up by one. */
  lemma MetricsMonotone(s: WorkerState, kind: EventType, d: Delivery,
                        parse: seq<bv8> -> Option<Json>, faults: StoreFaults)
    ensures var m := Handle(s, kind, d, parse, faults).metrics;
            m.processed >= s.metrics.processed && m.failed >= s.metrics.failed
            && m.retried >= s.metrics.retried && m.duplicates >= s.metrics.duplicates
            && m.processed + m.failed + m.retried + m.duplicates
               == s.metrics.processed + s.metrics.failed + s.metrics.retried + s.metrics.duplicates + 1
  {
  }

  /** The ledger only grows, and a recorded type is never overwritten. */
  lemma LedgerOnlyGrows(s: WorkerState, kind: EventType, d: Delivery,
                        parse: seq<bv8> -> Option<Json>, faults: StoreFaults)
    ensures var l := Handle(s, kind, d, parse, faults).ledger;
            forall k :: k in s.ledger ==> k in l && l[k] == s.ledger[k]
  {
  }

  /** A message processed once is a duplicate when it comes again with the
      same id, provided its id was not in the ledger before. */
  lemma DedupIdempotent(s: WorkerState, kind: EventType, d: Delivery, again: Delivery,
                        parse: seq<bv8> -> Option<Json>, faults: StoreFaults, faults2: StoreFaults)
    requires Process(s, kind, d, parse, faults).Completed?
    requires MessageId(d) !in s.ledger
    requires MessageId(again) == MessageId(d) && !faults2.lookupFails
    ensures var s1 := Handle(s, kind, d, parse, faults);
            Process(s1, kind, again, parse, faults2).Duplicate?
            && Trace(s1, kind, again, parse, faults2) == [Ack(again.deliveryTag)]
            && Handle(s1, kind, again, parse, faults2).ledger == s1.ledger
  {
  }

  /** An id already recorded under another event type is never recorded
      under this one, so a redelivery of it is processed again. */
  lemma SecondTypeNeverRecorded(s: WorkerState, kind: EventType, d: Delivery,
                                parse: seq<bv8> -> Option<Json>, faults: StoreFaults)
    requires MessageId(d) in s.ledger && s.ledger[MessageId(d)] != kind.RoutingKey()
    ensures var s' := Handle(s, kind, d, parse, faults);
            s'.ledger[MessageId(d)] == s.ledger[MessageId(d)]
            && !IsRecorded(s'.ledger, MessageId(d), kind.RoutingKey())
  {
  }

  /** `message.sent` never touches the cache. */
  lemma MessageSentLeavesCache(s: WorkerState, d: Delivery,
                               parse: seq<bv8> -> Option<Json>, faults: StoreFaults)
    ensures Handle(s, MessageSent, d, parse, faults).cache == s.cache
  {
  }

  /** A failing cache never changes how a delivery ends: its errors are
      swallowed. */
  lemma CacheFailureSwallowed(s: WorkerState, kind: EventType, d: Delivery,
                              parse: seq<bv8> -> Option<Json>, faults: StoreFaults)
    ensures var other := faults.(cacheFails := !faults.cacheFails);
            Handle(s, kind, d, parse, faults).log == Handle(s, kind, d, parse, other).log
            && Handle(s, kind, d, parse, faults).metrics == Handle(s, kind, d, parse, other).metrics
            && Handle(s, kind, d, parse, faults).ledger == Handle(s, kind, d, parse, other).ledger
  {
    var other := faults.(cacheFails := !faults.cacheFails);
    var p, q := Process(s, kind, d, parse, faults), Process(s, kind, d, parse, other);
    assert p.Threw? == q.Threw? && p.state.(cache := s.cache) == q.state.(cache := s.cache);
  }

  // ---- bounded retry ------------------------------------------------------------

  /** The delivery the broker makes of the copy a failure republishes. */
  function Redelivery(d: Delivery, tag: nat): (r: Delivery)
    requires RetryDecision(d.headers).Retry?
    ensures r.routingKey == d.routingKey && r.content == d.content && r.messageId == d.messageId
  {
    Delivery(tag, d.routingKey, d.content, d.messageId, d.headers[RetryHeader := RetryDecision(d.headers).next])
  }

  predicate Republished(s: WorkerState, kind: EventType, d: Delivery,
                        parse: seq<bv8> -> Option<Json>, faults: StoreFaults)
  {
    Process(s, kind, d, parse, faults).Threw? && RetryDecision(d.headers).Retry?
  }

  /** One message through its deliveries: each republished copy comes back
      with the next tag of `tags`, under the next faults of `faults`. */
  function Deliveries(s: WorkerState, kind: EventType, d: Delivery, parse: seq<bv8> -> Option<Json>,
                      faults: seq<StoreFaults>, tags: seq<nat>): WorkerState
    decreases |faults|
  {
    if faults == [] then s
    else
      var s1 := Handle(s, kind, d, parse, faults[0]);
      if Republished(s, kind, d, parse, faults[0]) && tags != [] then
        Deliveries(s1, kind, Redelivery(d, tags[0]), parse, faults[1..], tags[1..])
      else s1
  }

  /** How many more times a numeric retry count allows republication. */
  function RetriesLeft(headers: map<string, HeaderValue>): nat
    requires RetryHeader !in headers || headers[RetryHeader].Number?
  {
    if RetryHeader !in headers then MaxRetries
    else if headers[RetryHeader].n < MaxRetries then MaxRetries - headers[RetryHeader].n
    else 0
  }

  /** However often it fails, a message that starts without a retry count
      (or with a numeric one) is republished at most three times. */
  lemma {:induction false} RetriesBounded(s: WorkerState, kind: EventType, d: Delivery,
                                          parse: seq<bv8> -> Option<Json>,
                                          faults: seq<StoreFaults>, tags: seq<nat>)
    requires RetryHeader !in d.headers || d.headers[RetryHeader].Number?
    ensures Deliveries(s, kind, d, parse, faults, tags).metrics.retried <= s.metrics.retried + RetriesLeft(d.headers)
    decreases |faults|
  {
    if faults != [] {
      var s1 := Handle(s, kind, d, parse, faults[0]);
      RetryDecisionOfNumber(d.headers);
      MetricsMonotone(s, kind, d, parse, faults[0]);
      if Process(s, kind, d, parse, faults[0]).Threw? {
        FailurePath(s, kind, d, parse, faults[0]);
      }
      if Republished(s, kind, d, parse, faults[0]) && tags != [] {
        FailurePath(s, kind, d, parse, faults[0]);
        var d1 := Redelivery(d, tags[0]);
        RetriesBounded(s1, kind, d1, parse, faults[1..], tags[1..]);
      }
    }
  }

  /** The retry counts carried by the copies published in a trace. */
  function PublishedCounts(t: seq<Effect>): seq<HeaderValue> {
    if t == [] then []
    else
      (if t[0].Publish? && RetryHeader in t[0].headers then [t[0].headers[RetryHeader]] else [])
      + PublishedCounts(t[1..])
  }

  lemma {:induction false} PublishedCountsAppend(a: seq<Effect>, b: seq<Effect>)
    ensures PublishedCounts(a + b) == PublishedCounts(a) + PublishedCounts(b)
  {
    if a == [] {
      assert a + b == b;
    } else {
      assert (a + b)[1..] == a[1..] + b;
      PublishedCountsAppend(a[1..], b);
    }
  }

  /** One failed delivery below the limit publishes exactly one copy, with
      the next count. */
  lemma OneFailureCounts(s: WorkerState, kind: EventType, d: Delivery,
                         parse: seq<bv8> -> Option<Json>, faults: StoreFaults)
    requires Republished(s, kind, d, parse, faults)
    ensures PublishedCounts(Trace(s, kind, d, parse, faults)) == [RetryDecision(d.headers).next]
  {
    var t := Trace(s, kind, d, parse, faults);
    var before := TryEffects(s, kind, d, parse, faults);
    var f := FailEffects(d);
    var next := RetryDecision(d.headers).next;
    assert t == before + f;
    PublishedCountsAppend(before, f);
    assert PublishedCounts(before) == [];
    assert PublishedCounts(f[1..][1..]) == [] by {
      assert f[1..][1..][1..] == [];
    }
    assert PublishedCounts(f[1..]) == [next] + PublishedCounts(f[1..][1..]);
  }

  lemma {:induction false} NoPublishNoCounts(t: seq<Effect>)
    requires forall i :: 0 <= i < |t| ==> !t[i].Publish?
    ensures PublishedCounts(t) == []
  {
    if t != [] {
      NoPublishNoCounts(t[1..]);
    }
  }

  /** Whether this message fails on every delivery: its content never yields
      an event its handler completes, and the id it is looked up under is
      not recorded with this type. */
  predicate AlwaysFails(s: WorkerState, kind: EventType, d: Delivery, parse: seq<bv8> -> Option<Json>) {
    !IsRecorded(s.ledger, MessageId(d), kind.RoutingKey())
    && (parse(d.content).None? || !HandlerSucceeds(kind, parse(d.content).value))
  }

  /** Whether none of the redeliveries under `tags` is looked up under an id
      recorded with this type. With no message id the lookup id is the
      delivery tag's text, so this is a condition on the tags. */
  predicate FreshTags(ledger: map<string, string>, kind: EventType, d: Delivery, tags: seq<nat>) {
    forall i :: 0 <= i < |tags| ==> !IsRecorded(ledger, MessageId(d.(deliveryTag := tags[i])), kind.RoutingKey())
  }

  /** A delivery of such a message below the limit is republished, and the
      copy fails in the same way. */
  lemma RetriedStep(s: WorkerState, kind: EventType, d: Delivery,
                    parse: seq<bv8> -> Option<Json>, faults: StoreFaults, tag: nat)
    requires AlwaysFails(s, kind, d, parse) && RetryDecision(d.headers).Retry?
    requires !IsRecorded(s.ledger, MessageId(d.(deliveryTag := tag)), kind.RoutingKey())
    ensures var s1 := Handle(s, kind, d, parse, faults);
            Republished(s, kind, d, parse, faults)
            && s1.ledger == s.ledger
            && s1.metrics == s.metrics.(retried := s.metrics.retried + 1)
            && PublishedCounts(Trace(s, kind, d, parse, faults)) == [RetryDecision(d.headers).next]
            && AlwaysFails(s1, kind, Redelivery(d, tag), parse)
  {
    FailurePath(s, kind, d, parse, faults);
    OneFailureCounts(s, kind, d, parse, faults);
    assert MessageId(Redelivery(d, tag)) == MessageId(d.(deliveryTag := tag));
  }

  /** A delivery of such a message at the limit is dead-lettered. */
  lemma ExhaustedStep(s: WorkerState, kind: EventType, d: Delivery,
                      parse: seq<bv8> -> Option<Json>, faults: StoreFaults)
    requires AlwaysFails(s, kind, d, parse) && RetryDecision(d.headers).Exhausted?
    ensures var s1 := Handle(s, kind, d, parse, faults);
            var t := Trace(s, kind, d, parse, faults);
            !Republished(s, kind, d, parse, faults)
            && s1.ledger == s.ledger
            && s1.metrics == s.metrics.(failed := s.metrics.failed + 1)
            && PublishedCounts(t) == []
            && |t| > 0 && t[|t| - 1] == Nack(d.deliveryTag, false, false)
  {
    FailurePath(s, kind, d, parse, faults);
    NoPublishNoCounts(Trace(s, kind, d, parse, faults));
  }

  /** The retry counts the copies carry from count `c` up to the limit. */
  function CountsFrom(c: nat): seq<HeaderValue>
    decreases MaxRetries - c
  {
    if c >= MaxRetries then [] else [Number(c + 1)] + CountsFrom(c + 1)
  }

  /** `r` is what follows `s` once a message first delivered with retry count
      `c` has been republished up to the limit and then dead-lettered with a
      nack of `lastTag`: one retry per count, one failure, the ledger
      untouched, the copies carrying the counts after `c`. */
  predicate DeadLettered(s: WorkerState, r: WorkerState, c: nat, lastTag: nat)
    requires c <= MaxRetries
  {
    r.metrics == s.metrics.(retried := s.metrics.retried + (MaxRetries - c),
                            failed := s.metrics.failed + 1)
    && r.ledger == s.ledger
    && s.log <= r.log
    && PublishedCounts(r.log[|s.log|..]) == CountsFrom(c)
    && |r.log| > 0 && r.log[|r.log| - 1] == Nack(lastTag, false, false)
  }

  /** The delivery at the limit is the last one. */
  lemma LastDelivery(s: WorkerState, kind: EventType, d: Delivery,
                     parse: seq<bv8> -> Option<Json>, faults: seq<StoreFaults>)
    requires FailsFrom(s, kind, d, parse, MaxRetries)
    requires |faults| == 1
    ensures DeadLettered(s, Deliveries(s, kind, d, parse, faults, []), MaxRetries, d.deliveryTag)
  {
    RetryDecisionOfNumber(d.headers);
    var r := Deliveries(s, kind, d, parse, faults, []);
    var t := Trace(s, kind, d, parse, faults[0]);
    ExhaustedStep(s, kind, d, parse, faults[0]);
    assert r == Handle(s, kind, d, parse, faults[0]);
    assert r.log[|s.log|..] == t;
  }

  /** The tag of the last delivery: the first one's when there are no
      redeliveries, otherwise the last redelivery's. */
  function LastTag(first: nat, tags: seq<nat>): nat {
    if tags == [] then first else tags[|tags| - 1]
  }

  lemma LastTagOfRest(first: nat, tags: seq<nat>)
    requires tags != []
    ensures LastTag(tags[0], tags[1..]) == LastTag(first, tags)
  {
    if tags[1..] != [] {
      assert tags[1..][|tags[1..]| - 1] == tags[|tags| - 1];
    }
  }

  /** A message that always fails, carrying numeric retry count `c` (no
      header counting as 0). */
  predicate FailsFrom(s: WorkerState, kind: EventType, d: Delivery, parse: seq<bv8> -> Option<Json>, c: nat) {
    AlwaysFails(s, kind, d, parse)
    && if RetryHeader in d.headers then d.headers[RetryHeader] == Number(c) else c == 0
  }

  /** `s1` follows `s` after one republication of a message with count `c`:
      one more retry, the ledger untouched, one copy carrying `c + 1`. */
  predicate HandedOn(s: WorkerState, s1: WorkerState, c: nat) {
    s1.ledger == s.ledger
    && s1.metrics == s.metrics.(retried := s.metrics.retried + 1)
    && s.log <= s1.log
    && PublishedCounts(s1.log[|s.log|..]) == [Number(c + 1)]
  }

  /** A delivery below the limit hands the message on to its copy, `d1`,
      which carries the next count and meets state `s1`. */
  lemma RetriedDelivery(s: WorkerState, kind: EventType, d: Delivery,
                        parse: seq<bv8> -> Option<Json>, faults: seq<StoreFaults>, tags: seq<nat>, c: nat)
    returns (s1: WorkerState, d1: Delivery)
    requires FailsFrom(s, kind, d, parse, c) && FreshTags(s.ledger, kind, d, tags)
    requires c < MaxRetries && faults != [] && tags != []
    ensures Deliveries(s, kind, d, parse, faults, tags) == Deliveries(s1, kind, d1, parse, faults[1..], tags[1..])
    ensures HandedOn(s, s1, c)
    ensures FailsFrom(s1, kind, d1, parse, c + 1) && FreshTags(s1.ledger, kind, d1, tags[1..])
    ensures d1.deliveryTag == tags[0]
  {
    RetryDecisionOfNumber(d.headers);
    assert RetryDecision(d.headers) == Retry(c, Number(c + 1));
    s1 := Handle(s, kind, d, parse, faults[0]);
    d1 := Redelivery(d, tags[0]);
    var t := Trace(s, kind, d, parse, faults[0]);
    RetriedStep(s, kind, d, parse, faults[0], tags[0]);
    assert s1.log[|s.log|..] == t;
    forall i | 0 <= i < |tags[1..]|
      ensures MessageId(d1.(deliveryTag := tags[1..][i])) == MessageId(d.(deliveryTag := tags[i + 1]))
    {
    }
  }

  /** Joins one republication to the deliveries that follow it. */
  lemma Combine(s: WorkerState, s1: WorkerState, r: WorkerState, c: nat, lastTag: nat)
    requires c < MaxRetries
    requires HandedOn(s, s1, c)
    requires DeadLettered(s1, r, c + 1, lastTag)
    ensures DeadLettered(s, r, c, lastTag)
  {
    var mine, rest := s1.log[|s.log|..], r.log[|s1.log|..];
    assert r.log[|s.log|..] == mine + rest;
    PublishedCountsAppend(mine, rest);
  }

  /** A message that always fails, delivered with numeric retry count `c`,
      is republished once for each count up to the limit and then
      dead-lettered. */
  lemma {:induction false} AlwaysFailingDeliveries(s: WorkerState, kind: EventType, d: Delivery,
                                                   parse: seq<bv8> -> Option<Json>,
                                                   faults: seq<StoreFaults>, tags: seq<nat>, c: nat)
    requires FailsFrom(s, kind, d, parse, c) && FreshTags(s.ledger, kind, d, tags)
    requires c <= MaxRetries && |faults| == MaxRetries - c + 1 && |tags| == MaxRetries - c
    ensures DeadLettered(s, Deliveries(s, kind, d, parse, faults, tags), c, LastTag(d.deliveryTag, tags))
    decreases MaxRetries - c, 1
  {
    if c == MaxRetries {
      LastDelivery(s, kind, d, parse, faults);
    } else {
      RetriedDeliveries(s, kind, d, parse, faults, tags, c);
    }
  }

  /** The same, for a count below the limit: the first delivery hands the
      message on to its copy, and the copy's deliveries follow. */
  lemma {:induction false} RetriedDeliveries(s: WorkerState, kind: EventType, d: Delivery,
                                             parse: seq<bv8> -> Option<Json>,
                                             faults: seq<StoreFaults>, tags: seq<nat>, c: nat)
    requires FailsFrom(s, kind, d, parse, c) && FreshTags(s.ledger, kind, d, tags)
    requires c < MaxRetries && |faults| == MaxRetries - c + 1 && |tags| == MaxRetries - c
    ensures DeadLettered(s, Deliveries(s, kind, d, parse, faults, tags), c, LastTag(d.deliveryTag, tags))
    decreases MaxRetries - c, 0
  {
    var s1, d1 := RetriedDelivery(s, kind, d, parse, faults, tags, c);
    LastTagOfRest(d.deliveryTag, tags);
    AlwaysFailingDeliveries(s1, kind, d1, parse, faults[1..], tags[1..], c + 1);
    Combine(s, s1, Deliveries(s1, kind, d1, parse, faults[1..], tags[1..]), c, LastTag(d.deliveryTag, tags));
  }

  /** A message that always fails and starts without a retry count is
      republished three times, with counts 1, 2 and 3, and dead-lettered on
      its fourth delivery. */
  lemma DeadLetteredOnFourthDelivery(s: WorkerState, kind: EventType, d: Delivery,
                                     parse: seq<bv8> -> Option<Json>,
                                     faults: seq<StoreFaults>, tags: seq<nat>)
    requires RetryHeader !in d.headers
    requires AlwaysFails(s, kind, d, parse) && FreshTags(s.ledger, kind, d, tags)
    requires |faults| == 4 && |tags| == 3
    ensures var r := Deliveries(s, kind, d, parse, faults, tags);
            r.metrics == s.metrics.(retried := s.metrics.retried + 3, failed := s.metrics.failed + 1)
            && r.ledger == s.ledger
            && s.log <= r.log
            && PublishedCounts(r.log[|s.log|..]) == [Number(1), Number(2), Number(3)]
            && r.log[|r.log| - 1] == Nack(tags[2], false, false)
  {
    AlwaysFailingDeliveries(s, kind, d, parse, faults, tags, 0);
    CountsFromZero();
  }

  lemma CountsFromZero()
    ensures CountsFrom(0) == [Number(1), Number(2), Number(3)]
  {
    assert CountsFrom(3) == [];
  }
}
