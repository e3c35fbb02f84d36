/** The query of `GET /v1/tickets`: `offset`, `limit` and `order`, each
    optional with a default, the two numbers converted from their query
    text before they are checked. */
module ListTicketsDto {
  import opened Wrappers
  import opened Text
  import opened Validation

  datatype ListTickets = ListTickets(offset: int, limit: int, order: string)

  const Allowed := {"offset", "limit", "order"}
  const DefaultOffset := 0
  const DefaultLimit := 20
  const DefaultOrder := "desc"
  const MaxLimit := 100

  /** The result of `Number(text)` as far as `@IsInt()` cares: an integer,
      or something else (NaN, a fraction). */
  datatype NumberValue = Integer(value: int) | NotInteger

  /** The least magnitude `Number()` turns into an infinity, 2^1024 - 2^970:
      halfway between the largest finite double and 2^1024, a tie that
      rounds up. */
  const DoubleOverflow: int :=
    0xFFFFFFFFFFFFFC00_0000000000000000_0000000000000000_0000000000000000_0000000000000000_0000000000000000_0000000000000000_0000000000000000_0000000000000000_0000000000000000_0000000000000000_0000000000000000_0000000000000000_0000000000000000_0000000000000000_0000000000000000

  /** The largest integer every smaller one of which is exactly a double,
      2^53 - 1. */
  const MaxSafeInteger: int := 0x1F_FFFF_FFFF_FFFF

  /** A decimal magnitude as `Number()` leaves it: an infinity, which is not
      an integer, from `DoubleOverflow` on. */
  function Magnitude(n: nat, negative: bool): (r: NumberValue)
    ensures n < DoubleOverflow ==> r == Integer(if negative then -(n as int) else n)
    ensures n >= DoubleOverflow ==> r == NotInteger
  {
    if n >= DoubleOverflow then NotInteger
    else if negative then Integer(-(n as int))
    else Integer(n)
  }

  /** `Number(text)` for the empty text (0) and optionally signed decimal
      digits; any other text counts as not an integer, and so does a
      magnitude that overflows to an infinity. */
  function ToNumber(s: string): (r: NumberValue)
    ensures s == "" ==> r == Integer(0)
    ensures AllDigits(s) && ParseDigits(s) < DoubleOverflow ==> r == Integer(ParseDigits(s))
    ensures |s| > 1 && s[0] == '-' && AllDigits(s[1..]) && ParseDigits(s[1..]) < DoubleOverflow
            ==> r == Integer(-(ParseDigits(s[1..]) as int))
    ensures AllDigits(s) && ParseDigits(s) >= DoubleOverflow ==> r == NotInteger
    ensures r.Integer? && s != "" ==> AllDigits(s) || (s[0] in "+-" && AllDigits(s[1..]))
    ensures r.Integer? ==> -DoubleOverflow < r.value < DoubleOverflow
  {
    if s == "" then Integer(0)
    else if AllDigits(s) then Magnitude(ParseDigits(s), false)
    else if s[0] == '+' && AllDigits(s[1..]) then Magnitude(ParseDigits(s[1..]), false)
    else if s[0] == '-' && AllDigits(s[1..]) then Magnitude(ParseDigits(s[1..]), true)
    else NotInteger
  }

  /** `@IsOptional() @IsInt() @Min(lo) @Max(hi)` on a converted query value. */
  predicate IntInRange(query: map<string, string>, key: string, lo: int, hi: Option<int>) {
    key !in query
    || (ToNumber(query[key]).Integer? && lo <= ToNumber(query[key]).value
        && (hi.None? || ToNumber(query[key]).value <= hi.value))
  }

  predicate OffsetOk(query: map<string, string>) { IntInRange(query, "offset", 0, None) }
  predicate LimitOk(query: map<string, string>) { IntInRange(query, "limit", 1, Some(MaxLimit)) }
  /** `@IsOptional() @IsIn(['asc', 'desc'])`; a present empty text is checked. */
  predicate OrderOk(query: map<string, string>) {
    "order" !in query || query["order"] in {"asc", "desc"}
  }

  function Violations(query: map<string, string>): set<string> {
    NotWhitelisted(query, Allowed)
    + (if OffsetOk(query) then {} else {"offset"})
    + (if LimitOk(query) then {} else {"limit"})
    + (if OrderOk(query) then {} else {"order"})
  }

  function Validate(query: map<string, string>): (r: Result<ListTickets, set<string>>)
    ensures r.Success? <==> OffsetOk(query) && LimitOk(query) && OrderOk(query) && query.Keys <= Allowed
    ensures r.Success? ==> 0 <= r.value.offset && 1 <= r.value.limit <= MaxLimit
                           && r.value.order in {"asc", "desc"}
    ensures r.Success? && "offset" !in query ==> r.value.offset == DefaultOffset
    ensures r.Success? && "limit" !in query ==> r.value.limit == DefaultLimit
    ensures r.Success? && "order" !in query ==> r.value.order == DefaultOrder
    ensures r.Success? && "offset" in query ==> Integer(r.value.offset) == ToNumber(query["offset"])
    ensures r.Success? && "limit" in query ==> Integer(r.value.limit) == ToNumber(query["limit"])
    ensures r.Success? && "order" in query ==> r.value.order == query["order"]
    ensures r.Failure? ==> ("offset" in r.error <==> !OffsetOk(query))
    ensures r.Failure? ==> ("limit" in r.error <==> !LimitOk(query))
    ensures r.Failure? ==> ("order" in r.error <==> !OrderOk(query))
    ensures r.Failure? ==> forall k :: k in query && k !in Allowed ==> k in r.error
  {
    var v := Violations(query);
    if v == {} then
      assert query.Keys <= Allowed by {
        forall k | k in query.Keys ensures k in Allowed { assert k !in NotWhitelisted(query, Allowed); }
      }
      Success(ListTickets(
        if "offset" in query then ToNumber(query["offset"]).value else DefaultOffset,
        if "limit" in query then ToNumber(query["limit"]).value else DefaultLimit,
        if "order" in query then query["order"] else DefaultOrder))
    else Failure(v)
  }

  /** An empty query gets every default. */
  lemma Defaults()
    ensures Validate(map[]) == Success(ListTickets(DefaultOffset, DefaultLimit, DefaultOrder))
  {
    var empty: map<string, string> := map[];
    assert NotWhitelisted(empty, Allowed) == {};
  }

  /** Any in-range offset and limit, written as the query text a client
      sends, are read back as themselves. */
  lemma {:induction false} QueryTextRoundTrip(offset: nat, limit: nat, order: string)
    requires offset <= MaxSafeInteger && 1 <= limit <= MaxLimit && order in {"asc", "desc"}
    ensures Validate(map["offset" := NatToString(offset), "limit" := NatToString(limit), "order" := order])
            == Success(ListTickets(offset, limit, order))
  {
    var q := map["offset" := NatToString(offset), "limit" := NatToString(limit), "order" := order];
    ParseNatToString(offset);
    ParseNatToString(limit);
    assert ToNumber(q["offset"]) == Integer(offset);
    assert ToNumber(q["limit"]) == Integer(limit);
    assert q.Keys == Allowed;
    assert NotWhitelisted(q, Allowed) == {};
  }

  /** A limit above 100 or below 1, a negative offset, and an order other
      than the two are each rejected. */
  lemma {:induction false} OutOfRangeRejected(n: nat)
    ensures Validate(map["limit" := NatToString(MaxLimit + 1 + n)]).Failure?
    ensures Validate(map["limit" := "0"]).Failure?
    ensures Validate(map["offset" := "-" + NatToString(n + 1)]).Failure?
    ensures Validate(map["order" := ""]).Failure?
  {
    var big := NatToString(MaxLimit + 1 + n);
    ParseNatToString(MaxLimit + 1 + n);
    assert ToNumber(big).Integer? ==> ToNumber(big).value > MaxLimit;
    var q1 := map["limit" := big];
    assert !LimitOk(q1);
    var q2 := map["limit" := "0"];
    assert ToNumber("0") == Integer(0);
    assert !LimitOk(q2);
    var neg := "-" + NatToString(n + 1);
    assert neg[1..] == NatToString(n + 1);
    ParseNatToString(n + 1);
    assert ToNumber(neg).Integer? ==> ToNumber(neg).value < 0;
    var q3 := map["offset" := neg];
    assert !OffsetOk(q3);
    var q4 := map["order" := ""];
    assert !OrderOk(q4);
  }

  /** An offset too large for a double converts to an infinity, which is not
      an integer, and is rejected. */
  lemma OverflowRejected(n: nat)
    ensures Validate(map["offset" := NatToString(DoubleOverflow + n)]).Failure?
  {
    ParseNatToString(DoubleOverflow + n);
  }
}
