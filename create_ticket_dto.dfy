/** The body of `POST /v1/tickets`. */
module CreateTicketDto {
  import opened Wrappers
  import opened JsonValue
  import opened Validation

  datatype CreateTicket = CreateTicket(title: string, description: string)

  const Allowed := {"title", "description"}
  const TitleMin := 3
  const DescriptionMin := 5

  /** The properties that fail validation. */
  function Violations(body: map<string, Json>): set<string> {
    NotWhitelisted(body, Allowed)
    + (if StringOfLength(body, "title", TitleMin) then {} else {"title"})
    + (if StringOfLength(body, "description", DescriptionMin) then {} else {"description"})
  }

  function Validate(body: map<string, Json>): (r: Result<CreateTicket, set<string>>)
    ensures r.Success? <==> StringOfLength(body, "title", TitleMin)
                            && StringOfLength(body, "description", DescriptionMin)
                            && body.Keys <= Allowed
    ensures r.Success? ==> r.value == CreateTicket(body["title"].s, body["description"].s)
    ensures r.Failure? ==> ("title" in r.error <==> !StringOfLength(body, "title", TitleMin))
    ensures r.Failure? ==> ("description" in r.error <==> !StringOfLength(body, "description", DescriptionMin))
    ensures r.Failure? ==> forall k :: k in body && k !in Allowed ==> k in r.error
  {
    var v := Violations(body);
    if v == {} then
      assert body.Keys <= Allowed by {
        forall k | k in body.Keys ensures k in Allowed { assert k !in NotWhitelisted(body, Allowed); }
      }
      Success(CreateTicket(body["title"].s, body["description"].s))
    else Failure(v)
  }

  /** A body with exactly a string title and a string description is
      rejected for precisely the fields that are too short. */
  lemma {:induction false} TwoStrings(title: string, description: string)
    ensures var body := map["title" := JStr(title), "description" := JStr(description)];
            Validate(body) == if ValidatorLength(title) >= TitleMin && ValidatorLength(description) >= DescriptionMin
                              then Success(CreateTicket(title, description))
                              else Failure((if ValidatorLength(title) >= TitleMin then {} else {"title"})
                                           + (if ValidatorLength(description) >= DescriptionMin then {} else {"description"}))
  {
    var body := map["title" := JStr(title), "description" := JStr(description)];
    assert body.Keys == Allowed;
    assert NotWhitelisted(body, Allowed) == {};
    assert Violations(body) == (if ValidatorLength(title) >= TitleMin then {} else {"title"})
                               + (if ValidatorLength(description) >= DescriptionMin then {} else {"description"});
  }

  /** A body that lacks a field is rejected for that field. */
  lemma {:induction false} OneString(key: string, text: string)
    requires key in Allowed
    ensures Validate(map[key := JStr(text)]).Failure?
    ensures Allowed - {key} <= Validate(map[key := JStr(text)]).error
  {
  }

  /** A title of two characters is rejected (end-to-end test case). */
  lemma ShortTitleRejected(title: string, description: string)
    requires title == "ab" && description == "valid description"
    ensures Validate(map["title" := JStr(title), "description" := JStr(description)]) == Failure({"title"})
  {
    ValidatorLengthPlain(title);
    ValidatorLengthPlain(description);
    TwoStrings(title, description);
    var none: set<string> := {};
    assert none + {"title"} + none == {"title"};
  }

  /** A description of four characters is rejected (end-to-end test case). */
  lemma ShortDescriptionRejected(title: string, description: string)
    requires title == "valid title" && description == "abcd"
    ensures Validate(map["title" := JStr(title), "description" := JStr(description)]) == Failure({"description"})
  {
    ValidatorLengthPlain(title);
    ValidatorLengthPlain(description);
    TwoStrings(title, description);
    var none: set<string> := {};
    assert none + none + {"description"} == {"description"};
  }

  /** A body that lacks the title or the description is rejected, and an
      empty body is rejected for both (end-to-end test cases). */
  lemma MissingFieldsRejected(text: string)
    ensures Validate(map["description" := JStr(text)]).Failure?
    ensures "title" in Validate(map["description" := JStr(text)]).error
    ensures Validate(map["title" := JStr(text)]).Failure?
    ensures "description" in Validate(map["title" := JStr(text)]).error
    ensures Validate(map[]) == Failure({"title", "description"})
  {
    OneString("description", text);
    OneString("title", text);
    var empty: map<string, Json> := map[];
    assert NotWhitelisted(empty, Allowed) == {};
    assert !StringOfLength(empty, "title", TitleMin) && !StringOfLength(empty, "description", DescriptionMin);
    assert Violations(empty) == {"title", "description"};
  }

  /** The sample ticket of the end-to-end tests is accepted as it is. */
  lemma SampleTicketAccepted(title: string, description: string)
    requires title == "Ticket e2e" && description == "create ticket e2e test"
    ensures Validate(map["title" := JStr(title), "description" := JStr(description)])
            == Success(CreateTicket(title, description))
  {
    ValidatorLengthPlain(title);
    ValidatorLengthPlain(description);
    TwoStrings(title, description);
  }

  /** A property outside the whitelist is rejected even next to a valid
      title and description. */
  lemma UnknownPropertyRejected(title: string, description: string, key: string, value: Json)
    requires key !in Allowed
    ensures var body := map["title" := JStr(title), "description" := JStr(description), key := value];
            Validate(body).Failure? && key in Validate(body).error
  {
  }
}
