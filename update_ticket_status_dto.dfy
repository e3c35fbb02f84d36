/** The body of `PATCH /v1/tickets/:id/status`. */
module UpdateTicketStatusDto {
  import opened Wrappers
  import opened JsonValue
  import opened Validation

  datatype Status = Open | Closed

  const Allowed := {"status"}

  /** `@IsEnum(['open', 'closed'])`: the status, when the value is one of
      the two strings. */
  function StatusOf(v: Json): (r: Option<Status>)
    ensures r == Some(Open) <==> v == JStr("open")
    ensures r == Some(Closed) <==> v == JStr("closed")
    ensures r.None? <==> v != JStr("open") && v != JStr("closed")
  {
    if v == JStr("open") then Some(Open)
    else if v == JStr("closed") then Some(Closed)
    else None
  }

  function Violations(body: map<string, Json>): set<string> {
    NotWhitelisted(body, Allowed)
    + (if "status" in body && StatusOf(body["status"]).Some? then {} else {"status"})
  }

  /** The status is required: a missing one is rejected like an invalid one. */
  function Validate(body: map<string, Json>): (r: Result<Status, set<string>>)
    ensures r.Success? <==> body.Keys == {"status"} && StatusOf(body["status"]).Some?
    ensures r.Success? ==> Some(r.value) == StatusOf(body["status"])
    ensures r.Failure? ==> ("status" in r.error <==> "status" !in body || StatusOf(body["status"]).None?)
    ensures r.Failure? ==> forall k :: k in body && k !in Allowed ==> k in r.error
  {
    var v := Violations(body);
    if v == {} then
      assert body.Keys == {"status"} by {
        forall k | k in body.Keys ensures k == "status" { assert k !in NotWhitelisted(body, Allowed); }
      }
      Success(StatusOf(body["status"]).value)
    else Failure(v)
  }

  /** `'closed'` and `'open'` are accepted, `'invalid'` and a missing
      status are rejected (end-to-end test cases). */
  lemma EndToEndCases()
    ensures Validate(map["status" := JStr("closed")]) == Success(Closed)
    ensures Validate(map["status" := JStr("open")]) == Success(Open)
    ensures Validate(map["status" := JStr("invalid")]) == Failure({"status"})
    ensures Validate(map[]) == Failure({"status"})
  {
    var m1 := map["status" := JStr("closed")];
    assert m1.Keys == {"status"};
    var m2 := map["status" := JStr("open")];
    assert m2.Keys == {"status"};
    var m3 := map["status" := JStr("invalid")];
    assert "invalid"[0] != "open"[0] && "invalid"[0] != "closed"[0];
    assert StatusOf(JStr("invalid")).None?;
    assert NotWhitelisted(m3, Allowed) == {};
    assert Violations(m3) == {"status"};
    var m4: map<string, Json> := map[];
    assert NotWhitelisted(m4, Allowed) == {};
  }
}
