/**
 The conditional-request headers of the runtime API (apps/hosting/runtime_views.py):
 strong revision ETags in `If-Match` (section 13.1.1 of RFC 9110) and idempotency keys.
 */
module Preconditions {
  import opened Wrappers

  /** `str.isspace`. */
  predicate Space(c: char) {
    || '\t' <= c <= '\r' || '\U{1C}' <= c <= ' ' || c == '\U{85}' || c == '\U{A0}' || c == '\U{1680}'
    || '\U{2000}' <= c <= '\U{200A}' || c == '\U{2028}' || c == '\U{2029}' || c == '\U{202F}'
    || c == '\U{205F}' || c == '\U{3000}'
  }

  /** `str.strip`. */
  function Strip(text: string): (r: string)
    ensures r != "" ==> !Space(r[0]) && !Space(r[|r| - 1])
    ensures |r| <= |text|
  {
    if text == "" then ""
    else if Space(text[0]) then Strip(text[1..])
    else if Space(text[|text| - 1]) then Strip(text[..|text| - 1])
    else text
  }

  lemma StripKeepsTight(text: string)
    requires text != "" ==> !Space(text[0]) && !Space(text[|text| - 1])
    ensures Strip(text) == text
  {
  }

  predicate Digit(c: char) {
    '0' <= c <= '9'
  }

  predicate Digits(text: string) {
    forall i :: 0 <= i < |text| ==> Digit(text[i])
  }

  function Value(text: string): nat
    requires Digits(text)
  {
    if text == "" then 0
    else 10 * Value(text[..|text| - 1]) + (text[|text| - 1] as int - '0' as int)
  }

  function Decimal(n: nat): (r: string)
    ensures Digits(r) && r != ""
    ensures n > 0 ==> r[0] != '0'
  {
    var digit := ('0' as int + n % 10) as char;
    if n < 10 then [digit] else Decimal(n / 10) + [digit]
  }

  lemma {:induction false} ValueOfDecimal(n: nat)
    ensures Value(Decimal(n)) == n
  {
    if n >= 10 {
      var text := Decimal(n);
      assert text[..|text| - 1] == Decimal(n / 10);
      ValueOfDecimal(n / 10);
    } else {
      var text := Decimal(n);
      assert text[..|text| - 1] == "";
    }
  }

  /** The decimal text without leading zero is the only one with its value. */
  lemma {:induction false} DecimalOfValue(text: string)
    requires Digits(text) && text != "" && text[0] != '0'
    ensures Value(text) > 0 && Decimal(Value(text)) == text
  {
    var front := text[..|text| - 1];
    if front != "" {
      DecimalOfValue(front);
      assert Value(text) / 10 == Value(front);
      assert text == front + [text[|text| - 1]];
    } else {
      assert text == [text[0]];
    }
  }

  /** `_etag`. */
  function Etag(revision: nat): string {
    "\"" + Decimal(revision) + "\""
  }

  /** The revision in a strong ETag with no leading zero; `None` when the header is malformed. */
  function ParseEtag(header: string): Option<nat> {
    var value := Strip(header);
    if |value| < 3 || value[0] != '"' || value[|value| - 1] != '"' then None
    else
      var digits := value[1..|value| - 1];
      if !Digits(digits) || digits[0] == '0' then None else Some(Value(digits))
  }

  /** A header names a revision exactly when, up to surrounding blanks, it is that revision's ETag. */
  lemma ParsesExactlyItsEtag(header: string, revision: nat)
    ensures ParseEtag(header) == Some(revision) <==> revision > 0 && Strip(header) == Etag(revision)
  {
    var value := Strip(header);
    assert Etag(revision)[1..|Etag(revision)| - 1] == Decimal(revision);
    if ParseEtag(header).Some? {
      var digits := value[1..|value| - 1];
      DecimalOfValue(digits);
      assert value == "\"" + digits + "\"";
      ValueOfDecimal(revision);
    }
  }

  /** The machine-readable codes of refused requests; a refused release brings its own. */
  datatype Code =
    | IdempotencyKeyRequired | InvalidIdempotencyKey | IdempotencyConflict
    | PreconditionRequired | InvalidPrecondition | StaleRevision
    | NotFound | BackendUnavailable | EnvironmentDisabled | EnvironmentInvalid | CapabilityUnavailable
    | OperationInProgress | LogSnapshotInProgress | DeploymentExists | DeploymentDeleted | DeploymentDeleting
    | InvalidTransition | IdentityUnavailable | ComponentNotFound | InvalidRequest | InvalidScaling
    | LogLimitExceeded | ReleaseRefused(code: string) | ServerError

  datatype Check = Passed | Refused(code: Code)

  /** `_revision_precondition`. */
  function CheckRevision(ifMatch: Option<string>, revision: nat): (r: Check)
    ensures r.Passed? <==> ifMatch.Some? && ParseEtag(ifMatch.value) == Some(revision)
  {
    if ifMatch.None? then Refused(PreconditionRequired)
    else
      match ParseEtag(ifMatch.value)
      case None => Refused(InvalidPrecondition)
      case Some(named) => if named == revision then Passed else Refused(StaleRevision)
  }

  /** The ETag handed out with a row passes the check until, and only until, the revision moves. */
  lemma EtagRoundTrip(handedOut: nat, current: nat)
    requires handedOut > 0
    ensures CheckRevision(Some(Etag(handedOut)), current).Passed? <==> current == handedOut
  {
    StripKeepsTight(Etag(handedOut));
    ParsesExactlyItsEtag(Etag(handedOut), handedOut);
  }

  predicate KeyCharacter(c: char) {
    'a' <= c <= 'z' || 'A' <= c <= 'Z' || Digit(c) || c in {'.', '_', ':', '-'}
  }

  predicate ValidKey(key: string) {
    && 8 <= |key| <= 128
    && (forall i :: 0 <= i < |key| ==> KeyCharacter(key[i]))
    && key[0] !in {'.', '_', ':', '-'}
  }

  /** `_idempotency_key`: an absent or empty header is no key at all. */
  function KeyOf(header: Option<string>): Option<string> {
    if header.None? || header.value == "" then None else Some(Strip(header.value))
  }
}
