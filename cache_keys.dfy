/** Cache key construction for the API's cache: the per-user permission
    key, the tickets-list keys built from query parameters, the glob pattern
    that selects every list key, and the single-ticket key. */
module CacheKeys {
  import opened Wrappers
  import opened Text

  const ListPrefix := "tickets:list"

  /** `user:<userId>:permissions` */
  function UserPermissions(userId: string): (r: string)
    ensures StartsWith(r, "user:")
    ensures |r| == |userId| + 17
    ensures r[5..|r| - 12] == userId && r[|r| - 12..] == ":permissions"
  {
    "user:" + userId + ":permissions"
  }

  /** Different users never share a permissions key. */
  lemma UserPermissionsInjective(a: string, b: string)
    requires UserPermissions(a) == UserPermissions(b)
    ensures a == b
  {
    var r := UserPermissions(a);
    assert a == r[5..|r| - 12];
  }

  /** `ticket:<ticketId>` */
  function Ticket(ticketId: string): (r: string)
    ensures StartsWith(r, "ticket:") && r[7..] == ticketId
  {
    "ticket:" + ticketId
  }

  /** `tickets:list*`: matches every tickets-list key. */
  function TicketsListPattern(): (r: string)
    ensures r == ListPrefix + "*"
  {
    "tickets:list*"
  }

  /** Query parameters of a tickets listing; None stands for `undefined`. */
  datatype ListParams = ListParams(
    offset: Option<int>,
    limit: Option<int>,
    order: Option<string>,
    status: Option<string>,
    userId: Option<string>)

  const NoParams := ListParams(None, None, None, None, None)

  datatype Field = Status | User | Offset | Limit | Order {
    /** The text in front of the field's value in its segment. */
    function Tag(): string {
      match this
      case Status => "status:"
      case User => "user:"
      case Offset => "offset:"
      case Limit => "limit:"
      case Order => "order:"
    }
    /** Position of the field's segment in a key. */
    function Rank(): nat {
      match this
      case Status => 0
      case User => 1
      case Offset => 2
      case Limit => 3
      case Order => 4
    }
  }

  /** The fields in the order their segments are appended. */
  const FieldOrder: seq<Field> := [Status, User, Offset, Limit, Order]

  /** The field at each position has that position as its rank. */
  lemma RankAt(i: nat)
    requires i < |FieldOrder|
    ensures FieldOrder[i].Rank() == i
  {
  }

  datatype Segment = Segment(field: Field, value: string)

  function SegmentText(s: Segment): string {
    s.field.Tag() + s.value
  }

  /** A JavaScript string in a condition: `undefined` and "" are false. */
  predicate Truthy(s: Option<string>) {
    s.Some? && s.value != ""
  }

  /** Whether a field contributes a segment: strings when truthy, numbers
      whenever defined (so offset 0 is kept). */
  predicate IsSet(p: ListParams, f: Field) {
    match f
    case Status => Truthy(p.status)
    case User => Truthy(p.userId)
    case Offset => p.offset.Some?
    case Limit => p.limit.Some?
    case Order => Truthy(p.order)
  }

  function ValueOf(p: ListParams, f: Field): string
    requires IsSet(p, f)
  {
    match f
    case Status => p.status.value
    case User => p.userId.value
    case Offset => IntToString(p.offset.value)
    case Limit => IntToString(p.limit.value)
    case Order => p.order.value
  }

  /** The segment of a field: one when it is set, none otherwise. */
  function Opt(p: ListParams, f: Field): seq<Segment> {
    if IsSet(p, f) then [Segment(f, ValueOf(p, f))] else []
  }

  /** The segments of the first `n` fields of `FieldOrder`. */
  function Upto(p: ListParams, n: nat): seq<Segment>
    requires n <= |FieldOrder|
  {
    if n == 0 then [] else Upto(p, n - 1) + Opt(p, FieldOrder[n - 1])
  }

  function Segments(p: ListParams): seq<Segment> {
    Upto(p, |FieldOrder|)
  }

  function SegmentTexts(segs: seq<Segment>): (r: seq<string>)
    ensures |r| == |segs|
  {
    if segs == [] then [] else [SegmentText(segs[0])] + SegmentTexts(segs[1..])
  }

  /** The key `ticketsList` returns: the prefix and the segments, joined by `:`. */
  function ListKey(p: ListParams): string {
    Join([ListPrefix] + SegmentTexts(Segments(p)), ":")
  }

  /** Builds the key by pushing one segment per set parameter onto `parts`,
      in the order status, user, offset, limit, order. */
  method TicketsList(p: ListParams) returns (key: string)
    ensures key == ListKey(p)
  {
    var parts := [ListPrefix];
    ghost var before := parts;
    if Truthy(p.status) {
      parts := parts + ["status:" + p.status.value];
    }
    Pushed(p, Status, before, parts);
    before := parts;
    if Truthy(p.userId) {
      parts := parts + ["user:" + p.userId.value];
    }
    Pushed(p, User, before, parts);
    before := parts;
    if p.offset.Some? {
      parts := parts + ["offset:" + IntToString(p.offset.value)];
    }
    Pushed(p, Offset, before, parts);
    before := parts;
    if p.limit.Some? {
      parts := parts + ["limit:" + IntToString(p.limit.value)];
    }
    Pushed(p, Limit, before, parts);
    before := parts;
    if Truthy(p.order) {
      parts := parts + ["order:" + p.order.value];
    }
    Pushed(p, Order, before, parts);
    ListKeyParts(p);
    key := Join(parts, ":");
  }

  /** The text a field contributes to the key: one part when it is set,
      none otherwise. */
  function FieldParts(p: ListParams, f: Field): seq<string> {
    if IsSet(p, f) then [f.Tag() + ValueOf(p, f)] else []
  }

  /** One step of `TicketsList`: pushing the text of a field when it is set
      appends exactly that field's parts. */
  lemma Pushed(p: ListParams, f: Field, before: seq<string>, parts: seq<string>)
    requires parts == if IsSet(p, f) then before + [f.Tag() + ValueOf(p, f)] else before
    ensures parts == before + FieldParts(p, f)
  {
    if !IsSet(p, f) {
      assert before + [] == before;
    }
  }

  /** The parts of a list key: the prefix, then each field's parts in the
      order status, user, offset, limit, order. */
  lemma ListKeyParts(p: ListParams)
    ensures [ListPrefix] + SegmentTexts(Segments(p))
            == [ListPrefix] + FieldParts(p, Status) + FieldParts(p, User) + FieldParts(p, Offset)
               + FieldParts(p, Limit) + FieldParts(p, Order)
  {
    assert [ListPrefix] + SegmentTexts(Upto(p, 0)) == [ListPrefix];
    var t1 := PartsStep(p, 0, [ListPrefix]);
    var t2 := PartsStep(p, 1, t1);
    var t3 := PartsStep(p, 2, t2);
    var t4 := PartsStep(p, 3, t3);
    var t5 := PartsStep(p, 4, t4);
  }

  /** When `before` is the prefix and the texts of the first `n` fields'
      segments, appending field `n`'s parts gives the prefix and the texts of
      the first `n` + 1. */
  lemma PartsStep(p: ListParams, n: nat, before: seq<string>) returns (after: seq<string>)
    requires n < |FieldOrder|
    requires before == [ListPrefix] + SegmentTexts(Upto(p, n))
    ensures after == before + FieldParts(p, FieldOrder[n])
    ensures after == [ListPrefix] + SegmentTexts(Upto(p, n + 1))
  {
    var u := UptoTexts(p, n);
    AppendAssoc([ListPrefix], SegmentTexts(Upto(p, n)), u);
    after := before + u;
  }

  lemma AppendAssoc(a: seq<string>, b: seq<string>, c: seq<string>)
    ensures a + (b + c) == (a + b) + c
  {
  }

  lemma {:induction false} SegmentTextsAppend(segs: seq<Segment>, more: seq<Segment>)
    ensures SegmentTexts(segs + more) == SegmentTexts(segs) + SegmentTexts(more)
  {
    if segs != [] {
      var x := SegmentText(segs[0]);
      assert (segs + more)[0] == segs[0];
      assert (segs + more)[1..] == segs[1..] + more;
      SegmentTextsAppend(segs[1..], more);
      assert [x] + (SegmentTexts(segs[1..]) + SegmentTexts(more))
          == ([x] + SegmentTexts(segs[1..])) + SegmentTexts(more);
    } else {
      assert segs + more == more;
    }
  }

  /** The texts of the first `n` + 1 fields' segments: those of the first
      `n`, then the text of field `n` when it is set. */
  lemma UptoTexts(p: ListParams, n: nat) returns (u: seq<string>)
    requires n < |FieldOrder|
    ensures u == (if IsSet(p, FieldOrder[n]) then [FieldOrder[n].Tag() + ValueOf(p, FieldOrder[n])] else [])
    ensures SegmentTexts(Upto(p, n + 1)) == SegmentTexts(Upto(p, n)) + u
  {
    var o := Opt(p, FieldOrder[n]);
    SegmentTextsAppend(Upto(p, n), o);
    u := SegmentTexts(o);
    if !IsSet(p, FieldOrder[n]) {
      assert o == [];
    }
  }

  /** No field of `NoParams` is set. */
  lemma {:induction false} UptoNone(n: nat)
    requires n <= |FieldOrder|
    ensures Upto(NoParams, n) == []
  {
    if n > 0 {
      UptoNone(n - 1);
    }
  }

  /** With no parameter set the key is the bare prefix. */
  lemma NoParamsKey()
    ensures ListKey(NoParams) == "tickets:list"
  {
    UptoNone(|FieldOrder|);
  }

  /** Every list key starts with `tickets:list`, so the invalidation pattern
      `tickets:list*` matches it. */
  lemma ListKeyMatchesPattern(p: ListParams)
    ensures StartsWith(ListKey(p), ListPrefix)
    ensures GlobMatch(TicketsListPattern(), ListKey(p))
  {
    JoinStartsWithHead([ListPrefix] + SegmentTexts(Segments(p)), ":");
    GlobLiteralStar(ListPrefix, ListKey(p));
  }

  /** The segments of the first `n` fields come in strictly increasing
      rank, each of rank below `n`. */
  lemma {:induction false} UptoOrdered(p: ListParams, n: nat)
    requires n <= |FieldOrder|
    ensures forall a, b :: 0 <= a < b < |Upto(p, n)| ==>
              Upto(p, n)[a].field.Rank() < Upto(p, n)[b].field.Rank()
    ensures forall s :: s in Upto(p, n) ==> s.field.Rank() < n
  {
    if n > 0 {
      UptoOrdered(p, n - 1);
      RankAt(n - 1);
      var front := Upto(p, n - 1);
      var all := Upto(p, n);
      if IsSet(p, FieldOrder[n - 1]) {
        forall a | 0 <= a < |front| ensures all[a].field.Rank() < n - 1 {
          assert all[a] == front[a];
          assert front[a] in front;
        }
      }
    }
  }

  /** Segments appear in the fixed order status, user, offset, limit, order. */
  lemma SegmentsOrdered(p: ListParams)
    ensures forall i, j :: 0 <= i < j < |Segments(p)| ==>
              Segments(p)[i].field.Rank() < Segments(p)[j].field.Rank()
  {
    UptoOrdered(p, |FieldOrder|);
  }

  /** Among the first `n` fields, a field contributes a segment exactly when
      it is set, and the segment carries its value. */
  lemma {:induction false} UptoExactly(p: ListParams, n: nat, f: Field)
    requires f.Rank() < n <= |FieldOrder|
    ensures IsSet(p, f) <==> exists s :: s in Upto(p, n) && s.field == f
    ensures IsSet(p, f) ==> Segment(f, ValueOf(p, f)) in Upto(p, n)
  {
    RankAt(n - 1);
    var front := Upto(p, n - 1);
    assert Upto(p, n) == front + Opt(p, FieldOrder[n - 1]);
    if f.Rank() == n - 1 {
      assert FieldOrder[n - 1] == f;
      UptoOrdered(p, n - 1);
      assert forall s :: s in front ==> s.field != f;
    } else {
      UptoExactly(p, n - 1, f);
      assert FieldOrder[n - 1] != f;
    }
  }

  /** A field contributes a segment exactly when it is set, and the segment
      carries its value; in particular offset 0 and limit 0 are kept while
      empty status, user and order are dropped. */
  lemma SegmentPresentIffSet(p: ListParams, f: Field)
    ensures IsSet(p, f) <==> exists s :: s in Segments(p) && s.field == f
    ensures IsSet(p, f) ==> Segment(f, ValueOf(p, f)) in Segments(p)
  {
    UptoExactly(p, |FieldOrder|, f);
  }

  /** The text of every segment is among the texts of the segments. */
  lemma {:induction false} SegmentTextIn(segs: seq<Segment>, x: Segment)
    requires x in segs
    ensures SegmentText(x) in SegmentTexts(segs)
  {
    if segs[0] != x {
      SegmentTextIn(segs[1..], x);
    }
  }

  /** An offset of 0 is part of the key. */
  lemma OffsetZeroKept(p: ListParams)
    requires p.offset == Some(0)
    ensures "offset:0" in SegmentTexts(Segments(p))
  {
    SegmentPresentIffSet(p, Offset);
    assert IntToString(0) == "0";
    assert SegmentText(Segment(Offset, "0")) == "offset:0";
    SegmentTextIn(Segments(p), Segment(Offset, "0"));
  }
}
