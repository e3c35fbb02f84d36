/** What the validation pipe, as the end-to-end setup installs it
    (`whitelist`, `forbidNonWhitelisted`, `transform`), and the class-validator checks the DTOs use mean on a
    request body. A failed validation is a 400 naming the offending
    properties. */
module Validation {
  import opened Wrappers
  import opened JsonValue

  /** The variation selectors validator.js leaves out of a string's length. */
  predicate PresentationSelector(c: char) {
    c == '︎' || c == '️'
  }

  /** The length `MinLength` compares: code points, not counting variation
      selectors. */
  function ValidatorLength(s: string): (n: nat)
    ensures n <= |s|
  {
    if s == [] then 0
    else (if PresentationSelector(s[0]) then 0 else 1) + ValidatorLength(s[1..])
  }

  /** Without variation selectors the length is the number of characters. */
  lemma {:induction false} ValidatorLengthPlain(s: string)
    requires forall i :: 0 <= i < |s| ==> !PresentationSelector(s[i])
    ensures ValidatorLength(s) == |s|
  {
    if s != [] {
      ValidatorLengthPlain(s[1..]);
    }
  }

  /** `@IsString() @MinLength(min)` on a required property: present, a
      string, and long enough. */
  predicate StringOfLength(body: map<string, Json>, key: string, min: nat) {
    key in body && body[key].JStr? && ValidatorLength(body[key].s) >= min
  }

  /** The properties `forbidNonWhitelisted` rejects. */
  function NotWhitelisted<V>(body: map<string, V>, allowed: set<string>): (r: set<string>)
    ensures forall k :: k in r <==> k in body && k !in allowed
  {
    body.Keys - allowed
  }
}
