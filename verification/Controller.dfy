/**
 The fail-closed reading of a controller reply (apps/hosting/runtime_controller.py):
 a reply is arbitrary JSON, and only a reply that passes every check becomes a snapshot.
 */
module Controller {
  import opened Wrappers
  import opened RuntimeModel
  import Preconditions

  /** One member of the decoded JSON object. */
  datatype Field =
    | Missing
    | Text(text: string)
    | Number(number: int)
    | Items(items: seq<RawComponent>)
    | Other

  datatype RawComponent =
    | Malformed
    | RawComponent(slug: string, imageDigest: string, desiredReplicas: int, readyReplicas: int,
                   availableReplicas: int, state: string, health: string, restartCount: int,
                   lastError: string)

  datatype RawSnapshot = RawSnapshot(
    id: Field,
    state: Field,
    message: Field,
    observedGeneration: Field,
    components: Field)

  datatype Observed = Observed(slug: string, report: Component)

  datatype Snapshot = Snapshot(
    controllerId: string,
    state: ObservedState,
    message: string,
    observedGeneration: nat,
    components: seq<Observed>)

  predicate Alphanumeric(c: char) {
    'a' <= c <= 'z' || 'A' <= c <= 'Z' || '0' <= c <= '9'
  }

  predicate Lowercase(c: char) {
    'a' <= c <= 'z' || '0' <= c <= '9'
  }

  predicate ValidIdentifier(value: string) {
    && 1 <= |value| <= 128
    && Alphanumeric(value[0])
    && forall i :: 0 < i < |value| ==> Alphanumeric(value[i]) || value[i] in {'.', '_', '-'}
  }

  /** The canonical text of a UUID: groups of lower-case hexadecimal digits. */
  predicate IsUuid(value: string) {
    && |value| == 36
    && forall i :: 0 <= i < 36 ==>
      if i in {8, 13, 18, 23} then value[i] == '-'
      else '0' <= value[i] <= '9' || 'a' <= value[i] <= 'f'
  }

  lemma UuidIsIdentifier(value: string)
    requires IsUuid(value)
    ensures value != "" && ValidIdentifier(value)
  {
  }

  predicate ValidSlug(slug: string) {
    && 1 <= |slug| <= 63
    && Lowercase(slug[0])
    && forall i :: 0 < i < |slug| ==> Lowercase(slug[i]) || slug[i] == '-'
  }

  function StateNamed(name: string): Option<ObservedState> {
    match name
    case "pending" => Some(Pending)
    case "reconciling" => Some(Reconciling)
    case "running" => Some(Running)
    case "stopped" => Some(Stopped)
    case "degraded" => Some(Degraded)
    case "failed" => Some(Failed)
    case "deleting" => Some(Deleting)
    case "deleted" => Some(Deleted)
    case "unknown" => Some(Unknown)
    case _ => None
  }

  /** The name under which the controller reports a state. */
  function NameOf(state: ObservedState): string {
    match state
    case Pending => "pending"
    case Reconciling => "reconciling"
    case Running => "running"
    case Stopped => "stopped"
    case Degraded => "degraded"
    case Failed => "failed"
    case Deleting => "deleting"
    case Deleted => "deleted"
    case Unknown => "unknown"
  }

  /** Exactly the nine names are understood, each as its own state. */
  lemma StatesAreNamed(name: string, state: ObservedState)
    ensures StateNamed(name) == Some(state) <==> name == NameOf(state)
  {
  }

  predicate ValidCount(count: int) {
    0 <= count <= 100_000
  }

  predicate ValidComponent(raw: RawComponent) {
    && raw.RawComponent?
    && ValidSlug(raw.slug)
    && |raw.imageDigest| <= 255
    && |raw.state| <= 32
    && |raw.health| <= 32
    && ValidCount(raw.desiredReplicas)
    && ValidCount(raw.readyReplicas)
    && ValidCount(raw.availableReplicas)
    && ValidCount(raw.restartCount)
  }

  function Observe(raw: RawComponent): Observed
    requires ValidComponent(raw)
  {
    Observed(raw.slug,
             Component(raw.imageDigest, raw.desiredReplicas, raw.readyReplicas,
                       raw.availableReplicas, Prefix(Collapsed(raw.state), 32), Prefix(Collapsed(raw.health), 32),
                       raw.restartCount, Prefix(Collapsed(raw.lastError), 500)))
  }

  function Prefix(text: string, limit: nat): (r: string)
    ensures |r| <= limit
  {
    if |text| <= limit then text else text[..limit]
  }

  /** `" ".join(text.split())`. */
  function Collapsed(text: string): string {
    if text == "" then ""
    else if Preconditions.Space(text[0]) then Collapsed(text[1..])
    else
      var rest := Collapsed(text[1..]);
      if |text| > 1 && Preconditions.Space(text[1]) && rest != "" then [text[0]] + " " + rest else [text[0]] + rest
  }

  function WithoutSpaces(text: string): string {
    if text == "" then ""
    else (if Preconditions.Space(text[0]) then "" else [text[0]]) + WithoutSpaces(text[1..])
  }

  /** Words separated by single blanks, with none around them. */
  predicate Tidy(text: string) {
    && (text != "" ==> !Preconditions.Space(text[0]) && !Preconditions.Space(text[|text| - 1]))
    && (forall i :: 0 <= i < |text| && Preconditions.Space(text[i]) ==> text[i] == ' ')
    && (forall i :: 0 <= i < |text| - 1 ==> !(Preconditions.Space(text[i]) && Preconditions.Space(text[i + 1])))
  }

  lemma PrependTidy(c: char, rest: string)
    requires Tidy(rest) && !Preconditions.Space(c)
    ensures Tidy([c] + rest) && (rest != "" ==> Tidy([c] + " " + rest))
  {
    BlankIsSpace();
    hide Preconditions.Space;
    var word, spaced := [c] + rest, [c] + " " + rest;
    assert forall i :: 0 < i < |word| ==> word[i] == rest[i - 1];
    assert forall i :: 1 < i < |spaced| ==> spaced[i] == rest[i - 2];
  }

  /** Collapsing keeps every word and leaves exactly one blank between two. */
  lemma {:induction false} CollapsedIsTidy(text: string)
    ensures Tidy(Collapsed(text)) && WithoutSpaces(Collapsed(text)) == WithoutSpaces(text)
  {
    hide Preconditions.Space, Tidy;
    EmptyIsTidy();
    if text != "" {
      var rest := Collapsed(text[1..]);
      CollapsedIsTidy(text[1..]);
      if !Preconditions.Space(text[0]) {
        PrependTidy(text[0], rest);
        assert ([text[0]] + rest)[1..] == rest;
        var spaced := [text[0]] + " " + rest;
        assert spaced[1..] == " " + rest && (" " + rest)[1..] == rest;
        BlankIsSpace();
      }
    }
  }

  lemma EmptyIsTidy()
    ensures Tidy("")
  {
  }

  lemma BlankIsSpace()
    ensures Preconditions.Space(' ')
  {
  }

  /** Tidy text is left alone, so collapsing twice is collapsing once. */
  lemma {:induction false} TidyStays(text: string)
    requires Tidy(text)
    ensures Collapsed(text) == text
  {
    hide Preconditions.Space;
    if |text| > 1 {
      if Preconditions.Space(text[1]) {
        assert text[2..] == text[1..][1..];
        TidyTail(text, 2);
        TidyStays(text[2..]);
        assert text == [text[0]] + " " + text[2..];
      } else {
        TidyTail(text, 1);
        TidyStays(text[1..]);
      }
    }
  }

  lemma TidyTail(text: string, n: nat)
    requires Tidy(text) && n < |text| && !Preconditions.Space(text[n])
    ensures Tidy(text[n..])
  {
    hide Preconditions.Space;
  }

  predicate DistinctSlugs(components: seq<Observed>) {
    forall i, j :: 0 <= i < j < |components| ==> components[i].slug != components[j].slug
  }

  /** The reported components, each of them valid and no slug twice. */
  function ObserveAll(items: seq<RawComponent>): (r: Result<seq<Observed>, string>)
    ensures r.Ok? ==> |r.value| == |items| && DistinctSlugs(r.value)
    ensures r.Ok? ==> forall i :: 0 <= i < |items| ==> ValidComponent(items[i]) && r.value[i].slug == items[i].slug
  {
    if exists i :: 0 <= i < |items| && !ValidComponent(items[i]) then
      Err("Runtime controller returned invalid components.")
    else
      var observed := seq(|items|, i requires 0 <= i < |items| => Observe(items[i]));
      if !DistinctSlugs(observed) then Err("Runtime controller returned duplicate runtime components.") else Ok(observed)
  }

  /**
   `_snapshot`: the first failing check refuses the reply. An accepted snapshot names
   the expected deployment and never lists a component twice.
   */
  function Validate(data: RawSnapshot, fallbackId: string, requireId: bool, expectedId: string)
    : (r: Result<Snapshot, string>)
    ensures r.Ok? ==>
      && ValidIdentifier(r.value.controllerId)
      && (expectedId != "" ==> r.value.controllerId == expectedId)
      && DistinctSlugs(r.value.components)
      && |r.value.components| <= 100
      && |r.value.message| <= 500
  {
    var id := if data.id == Missing then Text(fallbackId) else data.id;
    if !id.Text? || id.text == "" || |id.text| > 128 || (requireId && id.text == fallbackId == "") then
      Err("Runtime controller omitted its deployment identifier.")
    else if !ValidIdentifier(id.text) then
      Err("Runtime controller returned an invalid deployment identifier.")
    else if expectedId != "" && id.text != expectedId then
      Err("Runtime controller returned an inconsistent deployment identifier.")
    else if !data.state.Text? || StateNamed(data.state.text).None? then
      Err("Runtime controller returned an invalid state.")
    else if !data.message.Missing? && !data.message.Text? then
      Err("Runtime controller returned an invalid status message.")
    else if !data.observedGeneration.Number? || data.observedGeneration.number < 0 then
      Err("Runtime controller returned an invalid observed generation.")
    else if !data.components.Items? || |data.components.items| > 100 then
      Err("Runtime controller returned invalid components.")
    else
      var message := if data.message.Text? then Prefix(Collapsed(data.message.text), 500) else "";
      match ObserveAll(data.components.items)
      case Err(detail) => Err(detail)
      case Ok(observed) =>
        Ok(Snapshot(id.text, StateNamed(data.state.text).value, message, data.observedGeneration.number, observed))
  }

  /** A component as the reply describes it, with its texts collapsed and cut. */
  predicate ReadsComponent(raw: RawComponent, observed: Observed) {
    && raw.RawComponent?
    && observed.slug == raw.slug
    && observed.report.imageDigest == raw.imageDigest
    && observed.report.desiredReplicas == raw.desiredReplicas
    && observed.report.readyReplicas == raw.readyReplicas
    && observed.report.availableReplicas == raw.availableReplicas
    && observed.report.restartCount == raw.restartCount
    && observed.report.state == Prefix(Collapsed(raw.state), 32)
    && observed.report.health == Prefix(Collapsed(raw.health), 32)
    && observed.report.lastError == Prefix(Collapsed(raw.lastError), 500)
  }

  /** An accepted snapshot says what the reply says, member by member. */
  lemma ReplyIsRead(data: RawSnapshot, fallbackId: string, requireId: bool, expectedId: string)
    ensures
      var r := Validate(data, fallbackId, requireId, expectedId);
      r.Ok? ==>
        && r.value.controllerId == (if data.id == Missing then fallbackId else data.id.text)
        && data.state == Text(NameOf(r.value.state))
        && data.observedGeneration == Number(r.value.observedGeneration)
        && r.value.message == (if data.message == Missing then "" else Prefix(Collapsed(data.message.text), 500))
        && data.components.Items? && |data.components.items| == |r.value.components|
        && forall i :: 0 <= i < |r.value.components| ==> ReadsComponent(data.components.items[i], r.value.components[i])
  {
    hide StateNamed, NameOf, ValidIdentifier, Collapsed, DistinctSlugs;
    var r := Validate(data, fallbackId, requireId, expectedId);
    if r.Ok? {
      StatesAreNamed(data.state.text, r.value.state);
      ComponentsAreRead(data.components.items);
    }
  }

  lemma ComponentsAreRead(items: seq<RawComponent>)
    ensures
      var r := ObserveAll(items);
      r.Ok? ==> |r.value| == |items| && forall i :: 0 <= i < |items| ==> ReadsComponent(items[i], r.value[i])
  {
    hide ValidSlug, Collapsed, DistinctSlugs;
  }

  /** Identifiers can be put into a URL as they are: no character of theirs needs quoting, and none is a dot segment. */
  lemma IdentifierIsUrlSafe(value: string)
    requires ValidIdentifier(value)
    ensures 1 <= |value| <= 128 && value != "." && value != ".."
    ensures forall i :: 0 <= i < |value| ==> Alphanumeric(value[i]) || value[i] == '.' || value[i] == '_' || value[i] == '-'
  {
  }

  predicate WellFormedComponents(items: seq<RawComponent>) {
    && (forall i :: 0 <= i < |items| ==> ValidComponent(items[i]))
    && (forall i, j :: 0 <= i < j < |items| ==> items[i].RawComponent? && items[j].RawComponent? && items[i].slug != items[j].slug)
  }

  lemma ObservesExactly(items: seq<RawComponent>)
    ensures ObserveAll(items).Ok? <==> WellFormedComponents(items)
  {
    hide ValidSlug, Collapsed;
    if forall i :: 0 <= i < |items| ==> ValidComponent(items[i]) {
      var observed := seq(|items|, i requires 0 <= i < |items| => Observe(items[i]));
      assert forall i :: 0 <= i < |items| ==> observed[i].slug == items[i].slug;
    }
  }

  /** A reply is accepted exactly when each of its members is well-formed and it names the expected deployment. */
  lemma AcceptsExactly(data: RawSnapshot, fallbackId: string, requireId: bool, expectedId: string)
    ensures Validate(data, fallbackId, requireId, expectedId).Ok? <==>
      && (data.id == Missing || data.id.Text?)
      && var id := if data.id == Missing then fallbackId else data.id.text;
      && ValidIdentifier(id) && (expectedId == "" || id == expectedId)
      && (exists state :: data.state == Text(NameOf(state)))
      && (data.message == Missing || data.message.Text?)
      && data.observedGeneration.Number? && data.observedGeneration.number >= 0
      && data.components.Items? && |data.components.items| <= 100 && WellFormedComponents(data.components.items)
  {
    hide StateNamed, NameOf, Collapsed, DistinctSlugs, ObserveAll, WellFormedComponents, ValidIdentifier;
    if data.components.Items? { ObservesExactly(data.components.items); }
    if data.id == Missing { IdentifierLength(fallbackId); } else if data.id.Text? { IdentifierLength(data.id.text); }
    if data.state.Text? {
      forall state ensures StateNamed(data.state.text) == Some(state) <==> data.state.text == NameOf(state) {
        StatesAreNamed(data.state.text, state);
      }
      if StateNamed(data.state.text).Some? { assert data.state == Text(NameOf(StateNamed(data.state.text).value)); }
    }
  }

  lemma IdentifierLength(value: string)
    ensures ValidIdentifier(value) ==> 1 <= |value| <= 128
  {
  }
}
