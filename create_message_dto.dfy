/** The body of `POST /v1/messages`. */
module CreateMessageDto {
  import opened Wrappers
  import opened JsonValue
  import opened Validation

  datatype CreateMessage = CreateMessage(ticketId: string, authorId: string, content: string)

  const Allowed := {"ticketId", "authorId", "content"}

  predicate IsHexDigit(c: char) {
    ('0' <= c <= '9') || ('a' <= c <= 'f') || ('A' <= c <= 'F')
  }

  /** The positions of the dashes in the textual form of a UUID. */
  predicate DashPosition(i: int) {
    i == 8 || i == 13 || i == 18 || i == 23
  }

  /** `@IsUUID()` with no version: five groups of 8, 4, 4, 4 and 12
      hexadecimal digits of either case, separated by dashes. */
  predicate IsUuid(s: string) {
    |s| == 36 && forall i :: 0 <= i < 36 ==> if DashPosition(i) then s[i] == '-' else IsHexDigit(s[i])
  }

  /** `@IsUUID()` on a property: present, a string, and a UUID. */
  predicate UuidField(body: map<string, Json>, key: string) {
    key in body && body[key].JStr? && IsUuid(body[key].s)
  }

  function Violations(body: map<string, Json>): set<string> {
    NotWhitelisted(body, Allowed)
    + (if UuidField(body, "ticketId") then {} else {"ticketId"})
    + (if UuidField(body, "authorId") then {} else {"authorId"})
    + (if StringOfLength(body, "content", 1) then {} else {"content"})
  }

  function Validate(body: map<string, Json>): (r: Result<CreateMessage, set<string>>)
    ensures r.Success? <==> UuidField(body, "ticketId") && UuidField(body, "authorId")
                            && StringOfLength(body, "content", 1) && body.Keys <= Allowed
    ensures r.Success? ==> r.value == CreateMessage(body["ticketId"].s, body["authorId"].s, body["content"].s)
    ensures r.Success? ==> IsUuid(r.value.ticketId) && IsUuid(r.value.authorId) && |r.value.content| >= 1
    ensures r.Failure? ==> ("ticketId" in r.error <==> !UuidField(body, "ticketId"))
    ensures r.Failure? ==> ("authorId" in r.error <==> !UuidField(body, "authorId"))
    ensures r.Failure? ==> ("content" in r.error <==> !StringOfLength(body, "content", 1))
    ensures r.Failure? ==> forall k :: k in body && k !in Allowed ==> k in r.error
  {
    var v := Violations(body);
    if v == {} then
      assert body.Keys <= Allowed by {
        forall k | k in body.Keys ensures k in Allowed { assert k !in NotWhitelisted(body, Allowed); }
      }
      Success(CreateMessage(body["ticketId"].s, body["authorId"].s, body["content"].s))
    else Failure(v)
  }

  /** An empty content is rejected, and so is a content made only of
      variation selectors, whatever the ids are. */
  lemma EmptyContentRejected(ticketId: Json, authorId: Json, content: string)
    requires forall i :: 0 <= i < |content| ==> PresentationSelector(content[i])
    ensures var body := map["ticketId" := ticketId, "authorId" := authorId, "content" := JStr(content)];
            Validate(body).Failure? && "content" in Validate(body).error
  {
    SelectorsOnlyHaveNoLength(content);
  }

  lemma {:induction false} SelectorsOnlyHaveNoLength(s: string)
    requires forall i :: 0 <= i < |s| ==> PresentationSelector(s[i])
    ensures ValidatorLength(s) == 0
  {
    if s != [] {
      SelectorsOnlyHaveNoLength(s[1..]);
    }
  }

  /** A content that is not a string is rejected. */
  lemma NonStringContentRejected(body: map<string, Json>)
    requires "content" in body && !body["content"].JStr?
    ensures Validate(body).Failure? && "content" in Validate(body).error
  {
  }

  /** ASCII case conversion of one character. */
  function UpperChar(c: char): char {
    if 'a' <= c <= 'z' then (c as int - 32) as char else c
  }

  function LowerChar(c: char): char {
    if 'A' <= c <= 'Z' then (c as int + 32) as char else c
  }

  function UpperCase(s: string): (r: string)
    ensures |r| == |s| && forall i :: 0 <= i < |s| ==> r[i] == UpperChar(s[i])
  {
    seq(|s|, i requires 0 <= i < |s| => UpperChar(s[i]))
  }

  function LowerCase(s: string): (r: string)
    ensures |r| == |s| && forall i :: 0 <= i < |s| ==> r[i] == LowerChar(s[i])
  {
    seq(|s|, i requires 0 <= i < |s| => LowerChar(s[i]))
  }

  /** Case conversion keeps dashes, hexadecimal digits and everything else
      in its class. */
  lemma CaseKeepsClass(c: char)
    ensures (UpperChar(c) == '-' <==> c == '-') && (LowerChar(c) == '-' <==> c == '-')
    ensures (IsHexDigit(UpperChar(c)) <==> IsHexDigit(c)) && (IsHexDigit(LowerChar(c)) <==> IsHexDigit(c))
  {
  }

  /** Whether a text is a UUID does not depend on the case of its letters:
      an id is accepted in upper case exactly when it is in lower case. */
  lemma UuidCaseInsensitive(s: string)
    ensures IsUuid(UpperCase(s)) <==> IsUuid(s)
    ensures IsUuid(LowerCase(s)) <==> IsUuid(s)
  {
    var u, l := UpperCase(s), LowerCase(s);
    if |s| == 36 {
      forall i | 0 <= i < 36
        ensures (u[i] == '-' <==> s[i] == '-') && (IsHexDigit(u[i]) <==> IsHexDigit(s[i]))
        ensures (l[i] == '-' <==> s[i] == '-') && (IsHexDigit(l[i]) <==> IsHexDigit(s[i]))
      {
        CaseKeepsClass(s[i]);
      }
    }
  }
}
