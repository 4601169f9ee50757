/**
 Public gateway paths (apps/gateway/services.py): which spellings are accepted, and what the
 textual overlap checks mean for the requests that a route's two patterns match.
 */
module PublicPaths {
  import opened Wrappers
  import Preconditions

  // ----- accepted spellings -----

  predicate Alphanumeric(c: char) {
    'a' <= c <= 'z' || 'A' <= c <= 'Z' || '0' <= c <= '9'
  }

  predicate SafeCharacter(c: char) {
    Alphanumeric(c) || c == '.' || c == '_' || c == '~' || c == '-'
  }

  predicate AllSafe(text: string) {
    forall i :: 0 <= i < |text| ==> SafeCharacter(text[i])
  }

  /** The segment pattern; it leaves no room for "." and "..". */
  predicate SafeSegment(segment: string) {
    segment != "" && Alphanumeric(segment[0]) && AllSafe(segment)
  }

  function Split(text: string): (r: seq<string>)
    ensures r != []
  {
    if text == "" then [""]
    else
      var rest := Split(text[1..]);
      if text[0] == '/' then [""] + rest else [[text[0]] + rest[0]] + rest[1..]
  }

  predicate SafeSegments(segments: seq<string>) {
    forall i :: 0 <= i < |segments| ==> SafeSegment(segments[i])
  }

  function StripSlashes(text: string): string {
    if text != "" && text[|text| - 1] == '/' then StripSlashes(text[..|text| - 1]) else text
  }

  predicate HasDoubleSlash(text: string) {
    exists i :: 0 <= i < |text| - 1 && text[i] == '/' && text[i + 1] == '/'
  }

  /** `_validated_public_path`; `None` is the refusal. */
  function Validated(value: string): Option<string> {
    if value != Preconditions.Strip(value) || value == "" || value[0] != '/' then None
    else
      var path := if value != "/" then StripSlashes(value) else value;
      if path == "/" then None
      else if HasDoubleSlash(path) || '\\' in path || '%' in path then None
      else if path == "" || !SafeSegments(Split(path[1..])) then None
      else Some(path)
  }

  predicate Canonical(path: string) {
    path != "" && path[0] == '/' && SafeSegments(Split(path[1..]))
  }

  function Slashes(k: nat): string {
    seq(k, _ => '/')
  }

  // Reads a path tail character by character; `opening` says that a segment is about to start.
  predicate Scan(text: string, opening: bool) {
    if text == "" then !opening
    else if opening then Alphanumeric(text[0]) && Scan(text[1..], false)
    else if text[0] == '/' then Scan(text[1..], true)
    else SafeCharacter(text[0]) && Scan(text[1..], false)
  }

  predicate SafeFrom(segments: seq<string>, opening: bool)
    requires segments != []
  {
    (if opening then SafeSegment(segments[0]) else AllSafe(segments[0])) && SafeSegments(segments[1..])
  }

  lemma {:induction false} ScanReadsSegments(text: string, opening: bool)
    ensures Scan(text, opening) <==> SafeFrom(Split(text), opening)
  {
    if text != "" {
      var tail := text[1..];
      var rest := Split(tail);
      if text[0] == '/' {
        ScanReadsSegments(tail, true);
        assert rest == [rest[0]] + rest[1..];
        assert Split(text)[1..] == rest;
        assert SafeSegments(rest) <==> SafeFrom(rest, true);
      } else {
        ScanReadsSegments(tail, false);
        var head := [text[0]] + rest[0];
        assert head[0] == text[0] && head[1..] == rest[0];
        assert Split(text)[0] == head && Split(text)[1..] == rest[1..];
        assert AllSafe(head) <==> SafeCharacter(text[0]) && AllSafe(rest[0]) by {
          assert forall i :: 0 < i < |head| ==> head[i] == rest[0][i - 1];
          assert forall i :: 0 <= i < |rest[0]| ==> rest[0][i] == head[i + 1];
        }
      }
    }
  }

  lemma {:induction false} ScannedIsClean(text: string, opening: bool)
    requires Scan(text, opening)
    ensures opening ==> text != "" && text[0] != '/'
    ensures text != "" ==> text[|text| - 1] != '/'
    ensures forall i :: 0 <= i < |text| ==> text[i] == '/' || SafeCharacter(text[i])
    ensures !HasDoubleSlash(text)
  {
    if text != "" {
      ScannedIsClean(text[1..], !opening && text[0] == '/');
      assert forall i :: 0 < i < |text| ==> text[i] == text[1..][i - 1];
    }
  }

  lemma CanonicalIsClean(path: string)
    requires Canonical(path)
    ensures |path| > 1 && path[|path| - 1] != '/' && !Preconditions.Space(path[|path| - 1])
    ensures forall i :: 0 <= i < |path| ==> path[i] == '/' || SafeCharacter(path[i])
    ensures !HasDoubleSlash(path)
  {
    var tail := path[1..];
    assert SafeFrom(Split(tail), true);
    ScanReadsSegments(tail, true);
    ScannedIsClean(tail, true);
    assert forall i :: 0 < i < |path| ==> path[i] == tail[i - 1];
  }

  lemma {:induction false} StrippedPart(text: string)
    ensures var kept := StripSlashes(text); |kept| <= |text| && text == kept + Slashes(|text| - |kept|)
  {
    if text != "" && text[|text| - 1] == '/' {
      StrippedPart(text[..|text| - 1]);
    }
  }

  lemma {:induction false} StripsAllSlashes(path: string, k: nat)
    requires path != "" && path[|path| - 1] != '/'
    ensures StripSlashes(path + Slashes(k)) == path
  {
    var text := path + Slashes(k);
    if k > 0 {
      StripsAllSlashes(path, k - 1);
      assert text[..|text| - 1] == path + Slashes(k - 1);
    } else {
      assert text == path;
    }
  }

  /** Exactly the canonical paths are accepted, with any number of trailing slashes dropped. */
  lemma AcceptsCanonicalPaths(value: string, path: string)
    ensures Validated(value) == Some(path) <==> Canonical(path) && exists k :: value == path + Slashes(k)
  {
    if Validated(value) == Some(path) {
      StrippedPart(value);
      assert value == path + Slashes(|value| - |path|);
    }
    if Canonical(path) && exists k :: value == path + Slashes(k) {
      var k :| value == path + Slashes(k);
      CanonicalIsClean(path);
      StripsAllSlashes(path, k);
      assert value[|value| - 1] == if k > 0 then '/' else path[|path| - 1];
      Preconditions.StripKeepsTight(value);
    }
  }

  /** Validation is idempotent. */
  lemma AcceptedIsStable(value: string)
    requires Validated(value).Some?
    ensures Canonical(Validated(value).value) && Validated(Validated(value).value) == Validated(value)
  {
    var path := Validated(value).value;
    AcceptsCanonicalPaths(value, path);
    AcceptsCanonicalPaths(path, path);
    assert path == path + Slashes(0);
  }

  // ----- what overlap means -----

  function FoldCharacter(c: char): char {
    if 'A' <= c <= 'Z' then c - 'A' + 'a' else c
  }

  /** Case folding; accepted paths hold ASCII only. */
  function Fold(text: string): (r: string)
    ensures |r| == |text|
    ensures forall i :: 0 <= i < |text| ==> r[i] == FoldCharacter(text[i])
  {
    seq(|text|, i requires 0 <= i < |text| => FoldCharacter(text[i]))
  }

  /** Two characters fold to one exactly when they are equal or the two cases of one ASCII letter. */
  lemma FoldsLetters(c: char, d: char)
    ensures FoldCharacter(c) == FoldCharacter(d) <==>
      || c == d
      || ('A' <= c <= 'Z' && d as int == c as int + 32)
      || ('A' <= d <= 'Z' && c as int == d as int + 32)
  {
  }

  predicate Overlap(first: string, second: string) {
    var left, right := Fold(first), Fold(second);
    left == right || right + "/" <= left || left + "/" <= right
  }

  predicate IsWithin(path: string, prefix: string) {
    Fold(path) == Fold(prefix) || Fold(prefix) + "/" <= Fold(path)
  }

  /** A route for `path` matches `path` itself and, by its second pattern, whatever continues it after a slash. */
  predicate Matches(path: string, request: string) {
    request == path || path + "/" <= request
  }

  /** The same, for an observer that ignores case. */
  predicate MatchesFolded(path: string, request: string) {
    Matches(Fold(path), Fold(request))
  }

  lemma MatchFolds(path: string, request: string)
    requires Matches(path, request)
    ensures MatchesFolded(path, request)
  {
    if path + "/" <= request {
      assert forall i :: 0 <= i <= |path| ==> (Fold(path) + "/")[i] == FoldCharacter((path + "/")[i]);
    }
  }

  /** Two paths overlap exactly when some request is matched by the routes of both, case aside. */
  lemma OverlapIsSharedRequest(first: string, second: string)
    ensures Overlap(first, second) <==> exists request :: MatchesFolded(first, request) && MatchesFolded(second, request)
  {
    if Overlap(first, second) {
      var request := if Fold(first) + "/" <= Fold(second) then second else first;
      assert MatchesFolded(first, request) && MatchesFolded(second, request);
    }
    forall request | MatchesFolded(first, request) && MatchesFolded(second, request) ensures Overlap(first, second) {
      SharedRequestOverlaps(Fold(first), Fold(second), Fold(request));
    }
  }

  lemma SharedRequestOverlaps(left: string, right: string, request: string)
    requires Matches(left, request) && Matches(right, request)
    ensures left == right || right + "/" <= left || left + "/" <= right
  {
    assert left == request[..|left|] && right == request[..|right|];
    if |left| < |right| {
      assert request[|left|] == '/';
      assert left + "/" == request[..|left| + 1] == right[..|left| + 1];
    } else if |right| < |left| {
      assert request[|right|] == '/';
      assert right + "/" == request[..|right| + 1] == left[..|right| + 1];
    }
  }

  /** Paths that do not overlap have disjoint routes. */
  lemma DisjointRoutes(first: string, second: string, request: string)
    requires !Overlap(first, second)
    ensures !(Matches(first, request) && Matches(second, request))
  {
    if Matches(first, request) && Matches(second, request) {
      MatchFolds(first, request);
      MatchFolds(second, request);
      OverlapIsSharedRequest(first, second);
    }
  }

  // ----- reserved prefixes -----

  lemma WithinFolds(path: string, prefix: string)
    requires !IsWithin(path, prefix)
    ensures path != prefix && !(prefix + "/" <= path)
  {
    if prefix + "/" <= path {
      MatchFolds(prefix, path);
    }
  }

  /** The reserved-prefix check looks one way only: what it lets through captures exactly the prefixes deeper than itself. */
  lemma ReservedCheckIsOneWay(path: string, prefix: string)
    requires !IsWithin(path, prefix)
    ensures (exists request :: Matches(path, request) && Matches(prefix, request)) <==> path + "/" <= prefix
  {
    if path + "/" <= prefix {
      assert Matches(path, prefix) && Matches(prefix, prefix);
    }
    forall request | Matches(path, request) && Matches(prefix, request) ensures path + "/" <= prefix {
      SharedRequestOverlaps(path, prefix, request);
      WithinFolds(path, prefix);
    }
  }

  lemma OneCharacterSegment(c: char, rest: string)
    requires c != '/'
    ensures Split([c]) == [[c]]
    ensures Split([c] + "/" + rest) == [[c]] + Split(rest)
  {
    assert [c][1..] == "" && Split("") == [""] && [c] + "" == [c];
    var text := [c] + "/" + rest;
    assert text[1..] == "/" + rest && ("/" + rest)[1..] == rest;
  }

  lemma {:induction false} OneSegment(text: string)
    requires '/' !in text
    ensures Split(text) == [text]
  {
    if text != "" {
      OneSegment(text[1..]);
      assert [text[0]] + text[1..] == text;
    }
  }

  /** A slash and one safe segment make a canonical path. */
  lemma SegmentIsAccepted(segment: string)
    requires SafeSegment(segment)
    ensures Canonical("/" + segment) && Validated("/" + segment) == Some("/" + segment)
  {
    var path := "/" + segment;
    forall i | 0 <= i < |segment| ensures segment[i] != '/' {
      assert SafeCharacter(segment[i]);
    }
    OneSegment(segment);
    assert path[1..] == segment;
    assert path == path + Slashes(0);
    AcceptsCanonicalPaths(path, path);
  }

  /** A path accepted beside the reserved prefix "/a/b" whose route captures that prefix. */
  lemma CapturedPrefix()
    ensures Validated("/a") == Some("/a") && Validated("/a/b") == Some("/a/b")
    ensures !IsWithin("/a", "/a/b") && Matches("/a", "/a/b")
  {
    assert "/a"[1..] == "a" && "/a/b"[1..] == "a/b";
    OneCharacterSegment('a', "");
    OneCharacterSegment('b', "");
    OneCharacterSegment('a', "b");
    assert "a/b" == ['a'] + "/" + "b";
    assert "/a" + Slashes(0) == "/a" && "/a/b" + Slashes(0) == "/a/b";
    AcceptsCanonicalPaths("/a", "/a");
    AcceptsCanonicalPaths("/a/b", "/a/b");
    assert "/a" + "/" == "/a/b"[..3];
  }

  /** A prefix of one segment, as every built-in one is, is never captured. */
  lemma SingleSegmentIsSafe(path: string, prefix: string, request: string)
    requires Canonical(path) && Canonical(prefix) && '/' !in prefix[1..]
    requires !IsWithin(path, prefix)
    ensures !(Matches(path, request) && Matches(prefix, request))
  {
    CanonicalIsClean(path);
    assert |path| < |prefix| ==> prefix[|path|] == prefix[1..][|path| - 1] != '/';
    assert (Fold(path) + "/")[|path|] == '/';
    DisjointRoutes(path, prefix, request);
  }
}
