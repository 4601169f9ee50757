/**
 Planning and publishing module routes (apps/gateway/services.py): the path check against the whole
 catalogue, the effective plan of a module, and publication under a preview precondition.
 */
module GatewayRoutes {
  import opened Wrappers
  import opened PublicPaths
  import Preconditions

  /** A route that the bootstrap installs for a module. */
  datatype DefaultRoute = DefaultRoute(slug: string, publicPath: string, host: string, port: nat)

  /** A row of the module catalogue; an empty text stands for a missing one. */
  datatype CatalogueRow = CatalogueRow(slug: string, enabled: bool, publicPath: string, host: string, port: Option<nat>)

  /** `approve` is the upstream policy: the normalised upstream, or its refusal. */
  datatype Settings = Settings(
    defaults: seq<DefaultRoute>,
    known: set<string>,
    configuredPrefixes: seq<string>,
    scriptName: string,
    gatewayPort: nat,
    debug: bool,
    productionReady: set<string>,
    introspecting: set<string>,
    approve: (string, nat) -> Option<(string, nat)>
  )

  datatype RouteError =
    | InvalidSlug | UnsafePath | PathConflict(path: string) | ReservedPrefix(prefix: string)
    | DisabledModule | UnknownModule | NotProductionReady | UnsafeUpstream | PreviewRequired | InvalidPreview | StalePreview

  const SYSTEM_PREFIXES := ["/oauth2", "/healthz", "/readyz", "/apisix", "/dealhost", "/dealiot", "/dealdata"]

  function ReservedPrefixes(settings: Settings): seq<string> {
    SYSTEM_PREFIXES + settings.configuredPrefixes + if settings.scriptName == "" then [] else [settings.scriptName]
  }

  // ----- the path of a route against the catalogue -----

  predicate Protects(row: CatalogueRow, slug: string) {
    row.enabled && row.slug != slug && row.publicPath != ""
  }

  function PathsOfOthers(rows: seq<CatalogueRow>, slug: string): seq<string> {
    if rows == [] then []
    else
      PathsOfOthers(rows[..|rows| - 1], slug)
      + if Protects(rows[|rows| - 1], slug) then [rows[|rows| - 1].publicPath] else []
  }

  function DefaultPaths(defaults: seq<DefaultRoute>): seq<string> {
    seq(|defaults|, i requires 0 <= i < |defaults| => defaults[i].publicPath)
  }

  function ProtectedPaths(settings: Settings, rows: seq<CatalogueRow>, slug: string): seq<string> {
    DefaultPaths(settings.defaults) + PathsOfOthers(rows, slug)
  }

  predicate AllValid(values: seq<string>) {
    forall i :: 0 <= i < |values| ==> Validated(values[i]).Some?
  }

  function PathsOf(values: seq<string>): seq<string>
    requires AllValid(values)
  {
    seq(|values|, i requires 0 <= i < |values| => Validated(values[i]).value)
  }

  function FirstWhere(paths: seq<string>, holds: string -> bool): (r: Option<string>)
    ensures r.Some? ==> r.value in paths && holds(r.value)
    ensures r.None? ==> forall i :: 0 <= i < |paths| ==> !holds(paths[i])
  {
    if paths == [] then None
    else
      var earlier, last := FirstWhere(paths[..|paths| - 1], holds), paths[|paths| - 1];
      if earlier.Some? then earlier else if holds(last) then Some(last) else None
  }

  lemma {:induction false} FirstInPrefix(paths: seq<string>, holds: string -> bool, n: nat)
    requires n <= |paths| && FirstWhere(paths[..n], holds).Some?
    ensures FirstWhere(paths, holds) == FirstWhere(paths[..n], holds)
  {
    if n < |paths| {
      var earlier := paths[..|paths| - 1];
      assert earlier[..n] == paths[..n];
      FirstInPrefix(earlier, holds, n);
    } else {
      assert paths[..n] == paths;
    }
  }

  function Overlapping(path: string): string -> bool {
    other => Overlap(path, other)
  }

  function Enclosing(path: string): string -> bool {
    prefix => IsWithin(path, prefix)
  }

  /** What `_validate_route_path` decides. */
  function RoutePath(settings: Settings, rows: seq<CatalogueRow>, slug: string, value: string): Result<string, RouteError> {
    var protectedPaths, reserved := ProtectedPaths(settings, rows, slug), ReservedPrefixes(settings);
    if Validated(value).None? || !AllValid(protectedPaths) then Err(UnsafePath)
    else
      var path := Validated(value).value;
      match FirstWhere(PathsOf(protectedPaths), Overlapping(path))
      case Some(other) => Err(PathConflict(other))
      case None =>
        if !AllValid(reserved) then Err(UnsafePath)
        else
          match FirstWhere(PathsOf(reserved), Enclosing(path))
          case Some(prefix) => Err(ReservedPrefix(prefix))
          case None => Ok(path)
  }

  lemma FoldedAlike(path: string, first: string, second: string)
    requires Fold(first) == Fold(second)
    ensures Overlap(path, first) <==> Overlap(path, second)
  {
  }

  /** The loop over protected paths, which skips paths whose case folding was met before. */
  method FindConflict(path: string, protectedPaths: seq<string>) returns (r: Option<string>)
    ensures r == FirstWhere(protectedPaths, Overlapping(path))
  {
    hide Overlap, Fold;
    var seenPaths: set<string> := {};
    for n := 0 to |protectedPaths|
      invariant FirstWhere(protectedPaths[..n], Overlapping(path)) == None
      invariant forall key :: key in seenPaths ==> exists i :: 0 <= i < n && key == Fold(protectedPaths[i])
    {
      assert protectedPaths[..n + 1][..n] == protectedPaths[..n];
      var key := Fold(protectedPaths[n]);
      if key in seenPaths {
        ghost var i :| 0 <= i < n && key == Fold(protectedPaths[i]);
        assert protectedPaths[..n][i] == protectedPaths[i];
        FoldedAlike(path, protectedPaths[i], protectedPaths[n]);
        continue;
      }
      seenPaths := seenPaths + {key};
      if Overlap(path, protectedPaths[n]) {
        FirstInPrefix(protectedPaths, Overlapping(path), n + 1);
        return Some(protectedPaths[n]);
      }
    }
    assert protectedPaths[..|protectedPaths|] == protectedPaths;
    return None;
  }

  method FindEnclosing(path: string, prefixes: seq<string>) returns (r: Option<string>)
    ensures r == FirstWhere(prefixes, Enclosing(path))
  {
    for n := 0 to |prefixes|
      invariant FirstWhere(prefixes[..n], Enclosing(path)) == None
    {
      assert prefixes[..n + 1][..n] == prefixes[..n];
      if IsWithin(path, prefixes[n]) {
        FirstInPrefix(prefixes, Enclosing(path), n + 1);
        return Some(prefixes[n]);
      }
    }
    assert prefixes[..|prefixes|] == prefixes;
    return None;
  }

  method ValidateAll(values: seq<string>) returns (r: Option<seq<string>>)
    ensures r.Some? <==> AllValid(values)
    ensures r.Some? ==> r.value == PathsOf(values)
  {
    hide Validated;
    var paths := [];
    for n := 0 to |values|
      invariant |paths| == n
      invariant forall i :: 0 <= i < n ==> Validated(values[i]) == Some(paths[i])
    {
      var path := Validated(values[n]);
      if path.None? { return None; }
      paths := paths + [path.value];
    }
    return Some(paths);
  }

  method CollectProtected(settings: Settings, rows: seq<CatalogueRow>, slug: string) returns (values: seq<string>)
    ensures values == ProtectedPaths(settings, rows, slug)
  {
    values := DefaultPaths(settings.defaults);
    for n := 0 to |rows|
      invariant values == DefaultPaths(settings.defaults) + PathsOfOthers(rows[..n], slug)
    {
      assert rows[..n + 1][..n] == rows[..n];
      if Protects(rows[n], slug) { values := values + [rows[n].publicPath]; }
    }
    assert rows[..|rows|] == rows;
  }

  /** `_validate_route_path`. */
  method ValidateRoutePath(settings: Settings, rows: seq<CatalogueRow>, slug: string, value: string)
    returns (r: Result<string, RouteError>)
    ensures r == RoutePath(settings, rows, slug, value)
  {
    hide Validated, AllValid, PathsOf, FirstWhere, ProtectedPaths, ReservedPrefixes;
    var path := Validated(value);
    if path.None? { return Err(UnsafePath); }
    var values := CollectProtected(settings, rows, slug);
    var protectedPaths := ValidateAll(values);
    if protectedPaths.None? { return Err(UnsafePath); }
    var conflict := FindConflict(path.value, protectedPaths.value);
    if conflict.Some? { return Err(PathConflict(conflict.value)); }
    var prefixes := ReservedPrefixes(settings);
    var reserved := ValidateAll(prefixes);
    if reserved.None? { return Err(UnsafePath); }
    var enclosing := FindEnclosing(path.value, reserved.value);
    if enclosing.Some? { return Err(ReservedPrefix(enclosing.value)); }
    return Ok(path.value);
  }

  // ----- the effective plan of a module -----

  /** In production the proxy headers follow the trusted edge; some upstreams get the caller's token back. */
  datatype Headers = Unchanged | TrustedEdge(restoresToken: bool)

  datatype Payload = Payload(
    uris: seq<string>, name: string, priority: int, strips: string, host: string, port: nat, headers: Headers)

  datatype Plan = Skipped(routeId: string) | Route(routeId: string, payload: Payload)

  const MODULE_PREFIX := "module-"

  function RouteId(slug: string): string {
    if MODULE_PREFIX <= slug then slug else MODULE_PREFIX + slug
  }

  predicate SlugCharacter(c: char) {
    Alphanumeric(c) || c == '-' || c == '_'
  }

  predicate IsSlug(slug: string) {
    slug != "" && forall i :: 0 <= i < |slug| ==> SlugCharacter(slug[i])
  }

  function FindDefault(defaults: seq<DefaultRoute>, slug: string): (r: Option<DefaultRoute>)
    ensures r.Some? ==> r.value in defaults && r.value.slug == slug
    ensures r.None? ==> forall i :: 0 <= i < |defaults| ==> defaults[i].slug != slug
  {
    if defaults == [] then None
    else if defaults[0].slug == slug then Some(defaults[0])
    else FindDefault(defaults[1..], slug)
  }

  function FindRow(rows: seq<CatalogueRow>, slug: string): (r: Option<CatalogueRow>)
    ensures r.Some? ==> r.value in rows && r.value.slug == slug
    ensures r.None? ==> forall i :: 0 <= i < |rows| ==> rows[i].slug != slug
  {
    if rows == [] then None else if rows[0].slug == slug then Some(rows[0]) else FindRow(rows[1..], slug)
  }

  /** A port of 0 counts as missing: the bootstrap route's port or the gateway's own takes its place. */
  function EffectivePort(settings: Settings, slug: string, port: nat): nat {
    var fallback := FindDefault(settings.defaults, slug);
    if port != 0 then port else if fallback.Some? then fallback.value.port else settings.gatewayPort
  }

  function PayloadFor(settings: Settings, slug: string, path: string, host: string, port: nat): Payload {
    var headers := if settings.debug then Unchanged else TrustedEdge(host in settings.introspecting);
    Payload([path, path + "/*"], RouteId(slug), 100, path, host, port, headers)
  }

  function Checked(settings: Settings, rows: seq<CatalogueRow>, slug: string, value: string, host: string, port: nat)
    : Result<Plan, RouteError>
  {
    match RoutePath(settings, rows, slug, value)
    case Err(error) => Err(error)
    case Ok(path) =>
      if !settings.debug && slug !in settings.productionReady then Err(NotProductionReady)
      else
        match settings.approve(host, port)
        case None => Err(UnsafeUpstream)
        case Some(upstream) => Ok(Route(RouteId(slug), PayloadFor(settings, slug, path, upstream.0, upstream.1)))
  }

  /** `_build_route_plan`. */
  function BuildPlan(settings: Settings, rows: seq<CatalogueRow>, name: string): Result<Plan, RouteError> {
    var slug := Preconditions.Strip(name);
    if !IsSlug(slug) then Err(InvalidSlug)
    else
      var fallback := FindDefault(settings.defaults, slug);
      match FindRow(rows, slug)
      case Some(row) =>
        if !row.enabled then Err(DisabledModule)
        else if row.publicPath == "" || row.host == "" || row.port.None? then Ok(Skipped(RouteId(slug)))
        else
          Checked(settings, rows, slug, row.publicPath, row.host, EffectivePort(settings, slug, row.port.value))
      case None =>
        match fallback
        case Some(route) => Checked(settings, rows, slug, route.publicPath, route.host, route.port)
        case None => if slug in settings.known then Ok(Skipped(RouteId(slug))) else Err(UnknownModule)
  }

  /** A pattern that ends in a slash and a star matches what starts with the text before the star. */
  predicate UriMatches(uri: string, request: string) {
    if |uri| >= 2 && uri[|uri| - 2..] == "/*" then uri[..|uri| - 1] <= request else request == uri
  }

  predicate Serves(payload: Payload, request: string) {
    exists i :: 0 <= i < |payload.uris| && UriMatches(payload.uris[i], request)
  }

  lemma ExactUri(path: string, request: string)
    requires Canonical(path)
    ensures UriMatches(path, request) <==> request == path
  {
    hide Canonical;
    CanonicalIsClean(path);
    assert path[|path| - 2..][1] == path[|path| - 1];
    assert !SafeCharacter('*');
  }

  lemma WildUri(path: string, request: string)
    ensures UriMatches(path + "/*", request) <==> path + "/" <= request
  {
    var wild := path + "/*";
    assert wild[|wild| - 2..] == "/*" && wild[..|wild| - 1] == path + "/";
  }

  lemma ServesExactlyMatches(payload: Payload, path: string, request: string)
    requires Canonical(path) && payload.uris == [path, path + "/*"]
    ensures Serves(payload, request) <==> Matches(path, request)
  {
    hide Canonical, UriMatches;
    ExactUri(path, request);
    WildUri(path, request);
    assert payload.uris[0] == path && payload.uris[1] == path + "/*";
  }

  lemma {:induction false} OthersAreProtected(rows: seq<CatalogueRow>, slug: string, row: CatalogueRow)
    requires row in rows && Protects(row, slug)
    ensures row.publicPath in PathsOfOthers(rows, slug)
  {
    var last := rows[|rows| - 1];
    if row != last { OthersAreProtected(rows[..|rows| - 1], slug, row); }
  }

  lemma DefaultIsProtected(settings: Settings, rows: seq<CatalogueRow>, slug: string, route: DefaultRoute)
    requires route in settings.defaults
    ensures route.publicPath in ProtectedPaths(settings, rows, slug)
  {
    var i :| 0 <= i < |settings.defaults| && settings.defaults[i] == route;
    assert ProtectedPaths(settings, rows, slug)[i] == route.publicPath;
  }

  /** An accepted path overlaps no protected one. */
  lemma AcceptedPathIsFree(settings: Settings, rows: seq<CatalogueRow>, slug: string, value: string, other: string)
    requires RoutePath(settings, rows, slug, value).Ok? && other in ProtectedPaths(settings, rows, slug)
    ensures Validated(value).Some? && Validated(other).Some?
    ensures !Overlap(Validated(value).value, Validated(other).value)
  {
    hide Validated, Overlap, IsWithin, ProtectedPaths, ReservedPrefixes;
    var values, path := ProtectedPaths(settings, rows, slug), Validated(value).value;
    var i :| 0 <= i < |values| && values[i] == other;
    assert !Overlapping(path)(PathsOf(values)[i]);
  }

  /** The reserved prefixes are the built-in ones, the configured ones and the script name, if there is one. */
  lemma ReservedExactly(settings: Settings, prefix: string)
    ensures prefix in ReservedPrefixes(settings) <==>
      || prefix in SYSTEM_PREFIXES || prefix in settings.configuredPrefixes
      || (prefix == settings.scriptName && prefix != "")
  {
  }

  lemma {:induction false} ProtectedAreOthers(rows: seq<CatalogueRow>, slug: string, value: string)
    requires value in PathsOfOthers(rows, slug)
    ensures exists i :: 0 <= i < |rows| && Protects(rows[i], slug) && rows[i].publicPath == value
  {
    var earlier, last := rows[..|rows| - 1], rows[|rows| - 1];
    if value in PathsOfOthers(earlier, slug) {
      ProtectedAreOthers(earlier, slug, value);
      var i :| 0 <= i < |earlier| && Protects(earlier[i], slug) && earlier[i].publicPath == value;
      assert rows[i] == earlier[i];
    } else {
      assert Protects(last, slug) && last.publicPath == value;
    }
  }

  /** A path is free beside another value when that value is a path and neither contains the other. */
  predicate Free(path: string, value: string) {
    Validated(value).Some? && !Overlap(path, Validated(value).value)
  }

  /** A value is accepted as the path of a module exactly when it is free beside every bootstrap route and every other enabled module, and under no reserved prefix. */
  lemma PathIsAcceptedExactly(settings: Settings, rows: seq<CatalogueRow>, slug: string, value: string)
    ensures RoutePath(settings, rows, slug, value).Ok? <==>
      && Validated(value).Some?
      && var path := Validated(value).value;
      && (forall i :: 0 <= i < |settings.defaults| ==> Free(path, settings.defaults[i].publicPath))
      && (forall i :: 0 <= i < |rows| && rows[i].enabled && rows[i].slug != slug && rows[i].publicPath != "" ==>
           Free(path, rows[i].publicPath))
      && (forall prefix :: prefix in ReservedPrefixes(settings) ==>
           Validated(prefix).Some? && !IsWithin(path, Validated(prefix).value))
  {
    hide Validated, Overlap, IsWithin, ReservedPrefixes, PathsOfOthers, DefaultPaths;
    if RoutePath(settings, rows, slug, value).Ok? {
      AcceptedIsFree(settings, rows, slug, value);
    } else if Validated(value).Some? {
      RefusedIsTaken(settings, rows, slug, value);
    }
  }

  lemma AcceptedIsFree(settings: Settings, rows: seq<CatalogueRow>, slug: string, value: string)
    requires RoutePath(settings, rows, slug, value).Ok?
    ensures
      && Validated(value).Some?
      && var path := Validated(value).value;
      && (forall i :: 0 <= i < |settings.defaults| ==> Free(path, settings.defaults[i].publicPath))
      && (forall i :: 0 <= i < |rows| && rows[i].enabled && rows[i].slug != slug && rows[i].publicPath != "" ==>
           Free(path, rows[i].publicPath))
      && (forall prefix :: prefix in ReservedPrefixes(settings) ==>
           Validated(prefix).Some? && !IsWithin(path, Validated(prefix).value))
  {
    hide Validated, Overlap, IsWithin, ReservedPrefixes, RoutePath, ProtectedPaths, PathsOfOthers;
    RoutedIsValid(settings, rows, slug, value);
    var path := Validated(value).value;
    forall i | 0 <= i < |settings.defaults| ensures Free(path, settings.defaults[i].publicPath) {
      DefaultIsProtected(settings, rows, slug, settings.defaults[i]);
      AcceptedPathIsFree(settings, rows, slug, value, settings.defaults[i].publicPath);
    }
    forall i | 0 <= i < |rows| && rows[i].enabled && rows[i].slug != slug && rows[i].publicPath != ""
      ensures Free(path, rows[i].publicPath)
    {
      OtherIsProtected(settings, rows, slug, rows[i]);
      AcceptedPathIsFree(settings, rows, slug, value, rows[i].publicPath);
    }
    forall prefix | prefix in ReservedPrefixes(settings)
      ensures Validated(prefix).Some? && !IsWithin(path, Validated(prefix).value)
    {
      AcceptedPathIsUnreserved(settings, rows, slug, value, prefix);
    }
  }

  lemma RoutedIsValid(settings: Settings, rows: seq<CatalogueRow>, slug: string, value: string)
    ensures RoutePath(settings, rows, slug, value).Ok? ==> Validated(value).Some?
  {
    hide Validated, ProtectedPaths, ReservedPrefixes, FirstWhere, AllValid;
  }

  lemma OtherIsProtected(settings: Settings, rows: seq<CatalogueRow>, slug: string, row: CatalogueRow)
    requires row in rows && row.enabled && row.slug != slug && row.publicPath != ""
    ensures row.publicPath in ProtectedPaths(settings, rows, slug)
  {
    OthersAreProtected(rows, slug, row);
  }

  /** A refused value meets a path that is taken or no path, or lies under a reserved prefix. */
  lemma RefusedIsTaken(settings: Settings, rows: seq<CatalogueRow>, slug: string, value: string)
    requires RoutePath(settings, rows, slug, value).Err? && Validated(value).Some?
    ensures
      var path := Validated(value).value;
      || (exists i :: 0 <= i < |settings.defaults| && !Free(path, settings.defaults[i].publicPath))
      || (exists i :: 0 <= i < |rows| && rows[i].enabled && rows[i].slug != slug && rows[i].publicPath != "" && !Free(path, rows[i].publicPath))
      || (exists prefix :: prefix in ReservedPrefixes(settings)
           && (Validated(prefix).None? || IsWithin(path, Validated(prefix).value)))
  {
    hide Validated, Overlap, IsWithin, PathsOfOthers;
    var path, values, prefixes := Validated(value).value, ProtectedPaths(settings, rows, slug), ReservedPrefixes(settings);
    if exists k :: 0 <= k < |values| && !Free(path, values[k]) {
      var k :| 0 <= k < |values| && !Free(path, values[k]);
      TakenHasOwner(settings, rows, slug, k);
    } else {
      assert forall k :: 0 <= k < |values| ==> Free(path, values[k]);
      NothingTaken(path, values);
      if !AllValid(prefixes) {
        var k :| 0 <= k < |prefixes| && Validated(prefixes[k]).None?;
      } else {
        var found := FirstWhere(PathsOf(prefixes), Enclosing(path));
        var k :| 0 <= k < |prefixes| && PathsOf(prefixes)[k] == found.value;
        assert prefixes[k] in ReservedPrefixes(settings);
      }
    }
  }

  lemma NothingTaken(path: string, values: seq<string>)
    requires forall k :: 0 <= k < |values| ==> Free(path, values[k])
    ensures AllValid(values) && FirstWhere(PathsOf(values), Overlapping(path)).None?
  {
    hide Validated, Overlap;
    assert AllValid(values);
    assert forall k :: 0 <= k < |values| ==> !Overlapping(path)(PathsOf(values)[k]);
  }

  lemma TakenHasOwner(settings: Settings, rows: seq<CatalogueRow>, slug: string, k: nat)
    requires k < |ProtectedPaths(settings, rows, slug)|
    ensures
      var value := ProtectedPaths(settings, rows, slug)[k];
      || (exists i :: 0 <= i < |settings.defaults| && settings.defaults[i].publicPath == value)
      || (exists i :: 0 <= i < |rows| && Protects(rows[i], slug) && rows[i].publicPath == value)
  {
    hide PathsOfOthers;
    var value := ProtectedPaths(settings, rows, slug)[k];
    if k < |settings.defaults| {
      assert settings.defaults[k].publicPath == value;
    } else {
      assert value in PathsOfOthers(rows, slug);
      ProtectedAreOthers(rows, slug, value);
    }
  }

  /**
   The columns of a planned route: both patterns of its path, its name, the upstream approved for the
   row's host and port, and headers that follow the trusted edge outside development.
   */
  predicate PlannedFor(settings: Settings, slug: string, row: CatalogueRow, path: string, payload: Payload) {
    && payload.uris == [path, path + "/*"] && payload.strips == path && payload.priority == 100
    && payload.name == (if "module-" <= slug then slug else "module-" + slug)
    && row.port.Some?
    && (var fallback := FindDefault(settings.defaults, slug);
        if row.port.value != 0 then settings.approve(row.host, row.port.value) == Some((payload.host, payload.port))
        else if fallback.Some? then settings.approve(row.host, fallback.value.port) == Some((payload.host, payload.port))
        else settings.approve(row.host, settings.gatewayPort) == Some((payload.host, payload.port)))
    && (settings.debug ==> payload.headers == Unchanged)
    && (!settings.debug ==> payload.headers == TrustedEdge(payload.host in settings.introspecting))
  }

  /** Only a row of the catalogue gets a route: a bootstrap default conflicts with itself. */
  lemma RoutedHasRow(settings: Settings, rows: seq<CatalogueRow>, name: string)
    requires var plan := BuildPlan(settings, rows, name); plan.Ok? && plan.value.Route?
    ensures
      var slug, payload := Preconditions.Strip(name), BuildPlan(settings, rows, name).value.payload;
      var row := FindRow(rows, slug);
      && row.Some? && row.value.enabled && row.value.publicPath != ""
      && Validated(row.value.publicPath).Some?
      && RoutePath(settings, rows, slug, row.value.publicPath) == Ok(Validated(row.value.publicPath).value)
      && (settings.debug || slug in settings.productionReady)
      && PlannedFor(settings, slug, row.value, Validated(row.value.publicPath).value, payload)
  {
    var slug := Preconditions.Strip(name);
    if FindRow(rows, slug).None? {
      DefaultIsRefused(settings, rows, slug);
    }
  }

  /** When a module gets no route: its slug is no slug, it is switched off, it has nothing to route, or it is unknown. */
  lemma UnroutedExactly(settings: Settings, rows: seq<CatalogueRow>, name: string)
    ensures
      var slug, plan := Preconditions.Strip(name), BuildPlan(settings, rows, name);
      var row, fallback := FindRow(rows, slug), FindDefault(settings.defaults, slug);
      && (plan == Err(InvalidSlug) <==> !IsSlug(slug))
      && (plan == Err(DisabledModule) <==> IsSlug(slug) && row.Some? && !row.value.enabled)
      && (plan == Err(UnknownModule) <==> IsSlug(slug) && row.None? && fallback.None? && slug !in settings.known)
      && (plan.Ok? && plan.value.Skipped? <==>
           && IsSlug(slug)
           && match row
              case Some(found) => found.enabled && (found.publicPath == "" || found.host == "" || found.port.None?)
              case None => fallback.None? && slug in settings.known)
  {
    hide FirstWhere, AllValid, ProtectedPaths, ReservedPrefixes, Validated, IsSlug, Preconditions.Strip;
  }

  lemma DefaultIsRefused(settings: Settings, rows: seq<CatalogueRow>, slug: string)
    requires FindDefault(settings.defaults, slug).Some?
    ensures RoutePath(settings, rows, slug, FindDefault(settings.defaults, slug).value.publicPath).Err?
  {
    hide Validated, RoutePath;
    var route := FindDefault(settings.defaults, slug).value;
    DefaultIsProtected(settings, rows, slug, route);
    if RoutePath(settings, rows, slug, route.publicPath).Ok? {
      AcceptedPathIsFree(settings, rows, slug, route.publicPath, route.publicPath);
    }
  }

  /** The routes of two modules planned on one catalogue never serve the same request. */
  lemma RoutesAreDisjoint(settings: Settings, rows: seq<CatalogueRow>, a: string, b: string, request: string)
    requires Preconditions.Strip(a) != Preconditions.Strip(b)
    requires var plan := BuildPlan(settings, rows, a); plan.Ok? && plan.value.Route?
    requires var plan := BuildPlan(settings, rows, b); plan.Ok? && plan.value.Route?
    ensures !(Serves(BuildPlan(settings, rows, a).value.payload, request)
              && Serves(BuildPlan(settings, rows, b).value.payload, request))
  {
    hide BuildPlan, RoutePath, Serves, Overlap, Matches, Validated, Canonical, Preconditions.Strip;
    RoutedHasRow(settings, rows, a);
    RoutedHasRow(settings, rows, b);
    var slugA, slugB := Preconditions.Strip(a), Preconditions.Strip(b);
    var rowA, rowB := FindRow(rows, slugA).value, FindRow(rows, slugB).value;
    var pathA, pathB := Validated(rowA.publicPath).value, Validated(rowB.publicPath).value;
    OthersAreProtected(rows, slugB, rowA);
    AcceptedPathIsFree(settings, rows, slugB, rowB.publicPath, rowA.publicPath);
    AcceptedIsStable(rowA.publicPath);
    AcceptedIsStable(rowB.publicPath);
    ServesExactlyMatches(BuildPlan(settings, rows, a).value.payload, pathA, request);
    ServesExactlyMatches(BuildPlan(settings, rows, b).value.payload, pathB, request);
    DisjointRoutes(pathB, pathA, request);
  }

  /** Nor does a planned route serve a request of any bootstrap route, its own module's included. */
  lemma BootstrapIsDisjoint(settings: Settings, rows: seq<CatalogueRow>, name: string, route: DefaultRoute, request: string)
    requires var plan := BuildPlan(settings, rows, name); plan.Ok? && plan.value.Route?
    requires route in settings.defaults
    ensures Validated(route.publicPath).Some?
    ensures !(Serves(BuildPlan(settings, rows, name).value.payload, request)
              && Matches(Validated(route.publicPath).value, request))
  {
    hide BuildPlan, RoutePath, Serves, Overlap, Matches, Validated, Canonical, Preconditions.Strip;
    RoutedHasRow(settings, rows, name);
    var slug := Preconditions.Strip(name);
    var row := FindRow(rows, slug).value;
    var path := Validated(row.publicPath).value;
    DefaultIsProtected(settings, rows, slug, route);
    AcceptedPathIsFree(settings, rows, slug, row.publicPath, route.publicPath);
    AcceptedIsStable(row.publicPath);
    ServesExactlyMatches(BuildPlan(settings, rows, name).value.payload, path, request);
    DisjointRoutes(path, Validated(route.publicPath).value, request);
  }

  lemma SystemPrefixHasOneSegment(prefix: string)
    requires prefix in SYSTEM_PREFIXES
    ensures |prefix| > 1 && '/' !in prefix[1..]
  {
    var i :| 0 <= i < |SYSTEM_PREFIXES| && SYSTEM_PREFIXES[i] == prefix;
  }

  lemma OneSegmentIsKept(prefix: string)
    requires |prefix| > 1 && '/' !in prefix[1..] && Validated(prefix).Some?
    ensures Canonical(prefix) && Validated(prefix).value == prefix
  {
    hide Validated, Canonical;
    var path := Validated(prefix).value;
    AcceptsCanonicalPaths(prefix, path);
    var k :| prefix == path + Slashes(k);
    assert prefix[|prefix| - 1] == prefix[1..][|prefix| - 2];
    assert k == 0 ==> prefix == path;
  }

  lemma AcceptedPathIsUnreserved(settings: Settings, rows: seq<CatalogueRow>, slug: string, value: string, prefix: string)
    requires RoutePath(settings, rows, slug, value).Ok? && prefix in ReservedPrefixes(settings)
    ensures Validated(value).Some? && Validated(prefix).Some?
    ensures !IsWithin(Validated(value).value, Validated(prefix).value)
  {
    hide Validated, Overlap, IsWithin, ProtectedPaths, ReservedPrefixes;
    var prefixes, path := ReservedPrefixes(settings), Validated(value).value;
    var i :| 0 <= i < |prefixes| && prefixes[i] == prefix;
    assert !Enclosing(path)(PathsOf(prefixes)[i]);
  }

  /** A planned route serves nothing under a built-in reserved prefix. */
  lemma SystemPrefixIsFree(settings: Settings, rows: seq<CatalogueRow>, name: string, prefix: string, request: string)
    requires var plan := BuildPlan(settings, rows, name); plan.Ok? && plan.value.Route?
    requires prefix in SYSTEM_PREFIXES
    ensures !(Serves(BuildPlan(settings, rows, name).value.payload, request) && Matches(prefix, request))
  {
    hide BuildPlan, RoutePath, Serves, IsWithin, Matches, Validated, Canonical, Preconditions.Strip;
    RoutedHasRow(settings, rows, name);
    var slug := Preconditions.Strip(name);
    var row := FindRow(rows, slug).value;
    var path := Validated(row.publicPath).value;
    AcceptedPathIsUnreserved(settings, rows, slug, row.publicPath, prefix);
    AcceptedIsStable(row.publicPath);
    SystemPrefixHasOneSegment(prefix);
    OneSegmentIsKept(prefix);
    ServesExactlyMatches(BuildPlan(settings, rows, name).value.payload, path, request);
    SingleSegmentIsSafe(path, prefix, request);
  }

  /**
   A planned route serves requests under a reserved prefix, built-in or configured, exactly when
   the prefix lies below its path.
   */
  lemma CapturesDeeperPrefixes(settings: Settings, rows: seq<CatalogueRow>, name: string, prefix: string)
    requires var plan := BuildPlan(settings, rows, name); plan.Ok? && plan.value.Route?
    requires prefix in ReservedPrefixes(settings)
    ensures
      var row, reserved := FindRow(rows, Preconditions.Strip(name)), Validated(prefix);
      && row.Some? && Validated(row.value.publicPath).Some? && reserved.Some?
      && ((exists request :: Serves(BuildPlan(settings, rows, name).value.payload, request) && Matches(reserved.value, request))
          <==> Validated(row.value.publicPath).value + "/" <= reserved.value)
  {
    hide BuildPlan, RoutePath, Serves, IsWithin, Matches, Validated, Canonical, Preconditions.Strip, ReservedPrefixes;
    RoutedHasRow(settings, rows, name);
    var slug := Preconditions.Strip(name);
    var row := FindRow(rows, slug).value;
    var path := Validated(row.publicPath).value;
    AcceptedPathIsUnreserved(settings, rows, slug, row.publicPath, prefix);
    AcceptedIsStable(row.publicPath);
    var payload := BuildPlan(settings, rows, name).value.payload;
    forall request ensures Serves(payload, request) <==> Matches(path, request) {
      ServesExactlyMatches(payload, path, request);
    }
    ReservedCheckIsOneWay(path, Validated(prefix).value);
  }

  /** One slug is the other, which has no "module-" in front yet, behind "module-". */
  predicate Collide(a: string, b: string) {
    (a == MODULE_PREFIX + b && !(MODULE_PREFIX <= b)) || (b == MODULE_PREFIX + a && !(MODULE_PREFIX <= a))
  }

  /** Route ids are not unique. */
  lemma RouteIdCollisions(a: string, b: string)
    requires a != b
    ensures RouteId(a) == RouteId(b) <==> Collide(a, b)
  {
    if !(MODULE_PREFIX <= a) && !(MODULE_PREFIX <= b) {
      assert (MODULE_PREFIX + a)[|MODULE_PREFIX|..] == a && (MODULE_PREFIX + b)[|MODULE_PREFIX|..] == b;
    }
  }

  // ----- publication -----

  /** The digest of a plan's canonical form. */
  datatype Etag = Etag(plan: Plan)

  datatype Publication = Publication(plan: Plan, etag: Etag, sent: bool)

  /** `_publish_route_locked`. */
  function Publish(settings: Settings, rows: seq<CatalogueRow>, name: string, dryRun: bool, preview: Option<Etag>)
    : Result<Publication, RouteError>
  {
    match BuildPlan(settings, rows, name)
    case Err(error) => Err(error)
    case Ok(plan) =>
      if preview.Some? && preview.value != Etag(plan) then Err(StalePreview)
      else Ok(Publication(plan, Etag(plan), !dryRun && plan.Route?))
  }

  /**
   A publication under the ETag of an earlier preview goes through exactly when the plan is still
   the previewed one, whatever happened to settings and catalogue in between.
   */
  lemma PreviewIsHonoured(
    settings: Settings, rows: seq<CatalogueRow>, settings': Settings, rows': seq<CatalogueRow>, name: string, name': string)
    requires Publish(settings, rows, name, true, None).Ok?
    ensures
      var preview := Publish(settings, rows, name, true, None).value;
      var published := Publish(settings', rows', name', false, Some(preview.etag));
      && !preview.sent
      && (published.Ok? <==> BuildPlan(settings', rows', name') == Ok(preview.plan))
      && (published.Ok? ==> published.value.plan == preview.plan && (published.value.sent <==> preview.plan.Route?))
      && (published.Err? && BuildPlan(settings', rows', name').Ok? ==> published.error == StalePreview)
  {
  }

  /** An If-Match header: absent or blank, some other text, or one strong route ETag. */
  datatype PreviewHeader = NoPreview | OtherText | Strong(etag: Etag)

  /** `publish_route`: the header counts only for a real publication that demands a preview. */
  function PublishUnder(
    settings: Settings, rows: seq<CatalogueRow>, name: string, dryRun: bool, header: PreviewHeader, requirePreview: bool)
    : Result<Publication, RouteError>
  {
    if dryRun || !requirePreview then Publish(settings, rows, name, dryRun, None)
    else
      match header
      case NoPreview => Err(PreviewRequired)
      case OtherText => Err(InvalidPreview)
      case Strong(etag) => Publish(settings, rows, name, false, Some(etag))
  }

  lemma PlanIsNamed(settings: Settings, rows: seq<CatalogueRow>, name: string)
    requires BuildPlan(settings, rows, name).Ok?
    ensures BuildPlan(settings, rows, name).value.routeId == RouteId(Preconditions.Strip(name))
  {
    hide RoutePath, IsSlug, RouteId, PayloadFor, EffectivePort, FindRow, FindDefault, Preconditions.Strip;
  }

  lemma PayloadsDiffer(settings: Settings, rows: seq<CatalogueRow>, a: string, b: string)
    requires Preconditions.Strip(a) != Preconditions.Strip(b)
    requires var plan := BuildPlan(settings, rows, a); plan.Ok? && plan.value.Route?
    requires var plan := BuildPlan(settings, rows, b); plan.Ok? && plan.value.Route?
    ensures BuildPlan(settings, rows, a).value.payload != BuildPlan(settings, rows, b).value.payload
  {
    hide BuildPlan, RoutePath, Serves, Validated, Canonical, Preconditions.Strip;
    RoutedHasRow(settings, rows, a);
    var slug := Preconditions.Strip(a);
    var row := FindRow(rows, slug).value;
    var path := Validated(row.publicPath).value;
    AcceptedIsStable(row.publicPath);
    ServesExactlyMatches(BuildPlan(settings, rows, a).value.payload, path, path);
    RoutesAreDisjoint(settings, rows, a, b, path);
  }

  type Routes = map<string, Payload>

  /** The gateway holds the routes of both plans. */
  predicate HoldsBoth(routes: Routes, first: Plan, second: Plan)
    requires first.Route? && second.Route?
  {
    && first.routeId in routes && routes[first.routeId] == first.payload
    && second.routeId in routes && routes[second.routeId] == second.payload
  }

  /** Two modules published on one catalogue are both installed exactly when their slugs do not collide. */
  lemma BothAreInstalled(settings: Settings, rows: seq<CatalogueRow>, a: string, b: string, routes: Routes)
    requires Preconditions.Strip(a) != Preconditions.Strip(b)
    requires var plan := BuildPlan(settings, rows, a); plan.Ok? && plan.value.Route?
    requires var plan := BuildPlan(settings, rows, b); plan.Ok? && plan.value.Route?
    ensures
      var slugA, slugB := Preconditions.Strip(a), Preconditions.Strip(b);
      var first, second := BuildPlan(settings, rows, a).value, BuildPlan(settings, rows, b).value;
      var after := routes[first.routeId := first.payload][second.routeId := second.payload];
      HoldsBoth(after, first, second) <==> !Collide(slugA, slugB)
  {
    hide BuildPlan, Preconditions.Strip, RouteId, Collide;
    PlanIsNamed(settings, rows, a);
    PlanIsNamed(settings, rows, b);
    PayloadsDiffer(settings, rows, a, b);
    RouteIdCollisions(Preconditions.Strip(a), Preconditions.Strip(b));
  }

  // ----- two modules with one route id -----

  lemma SlugIsTight(slug: string)
    requires IsSlug(slug)
    ensures Preconditions.Strip(slug) == slug && IsSlug(MODULE_PREFIX + slug)
  {
    assert SlugCharacter(slug[0]) && SlugCharacter(slug[|slug| - 1]);
    Preconditions.StripKeepsTight(slug);
    var long := MODULE_PREFIX + slug;
    forall i | 0 <= i < |long| ensures SlugCharacter(long[i]) {
      if i >= |MODULE_PREFIX| { assert long[i] == slug[i - |MODULE_PREFIX|]; }
    }
  }

  /** Every built-in prefix is an accepted path, and none of them is of one letter. */
  lemma SystemPrefixIsLong(i: nat)
    requires i < |SYSTEM_PREFIXES|
    ensures Validated(SYSTEM_PREFIXES[i]) == Some(SYSTEM_PREFIXES[i]) && |SYSTEM_PREFIXES[i]| > 2
  {
    var prefix := SYSTEM_PREFIXES[i];
    var segment := prefix[1..];
    assert SafeSegment(segment);
    assert prefix == "/" + segment;
    SegmentIsAccepted(segment);
  }

  /** A development catalogue of a module and the module whose slug is its own behind "module-". */
  function DevelopmentSettings(): Settings {
    Settings([], {}, [], "", 80, true, {}, {}, (host, port) => Some((host, port)))
  }

  function Twins(slug: string): seq<CatalogueRow> {
    [CatalogueRow(slug, true, "/" + ['a'], "a", Some(80)),
     CatalogueRow(MODULE_PREFIX + slug, true, "/" + ['b'], "b", Some(80))]
  }

  lemma PathsOfPair(first: CatalogueRow, second: CatalogueRow, slug: string)
    ensures PathsOfOthers([first, second], slug)
      == (if Protects(first, slug) then [first.publicPath] else [])
         + if Protects(second, slug) then [second.publicPath] else []
  {
    assert [first, second][..1] == [first] && [first][..0] == [];
    assert PathsOfOthers([first], slug) == PathsOfOthers([], slug) + if Protects(first, slug) then [first.publicPath] else [];
  }

  lemma SystemPrefixesAreValid()
    ensures AllValid(SYSTEM_PREFIXES) && PathsOf(SYSTEM_PREFIXES) == SYSTEM_PREFIXES
  {
    hide Validated;
    forall i | 0 <= i < |SYSTEM_PREFIXES| ensures Validated(SYSTEM_PREFIXES[i]) == Some(SYSTEM_PREFIXES[i]) {
      SystemPrefixIsLong(i);
    }
  }

  /** A path of one letter is under no built-in prefix. */
  lemma OneLetterIsUnreserved(c: char)
    requires c != '/'
    ensures FirstWhere(SYSTEM_PREFIXES, Enclosing("/" + [c])) == None
  {
    hide Validated;
    forall i | 0 <= i < |SYSTEM_PREFIXES| ensures !Enclosing("/" + [c])(SYSTEM_PREFIXES[i]) {
      SystemPrefixIsLong(i);
    }
  }

  lemma LettersDoNotOverlap(c: char, d: char)
    requires 'a' <= c <= 'z' && 'a' <= d <= 'z' && c != d
    ensures !Overlap("/" + [c], "/" + [d])
  {
    assert Fold("/" + [c])[1] == c && Fold("/" + [d])[1] == d;
  }

  /** In a development catalogue a path of one letter is accepted beside another one. */
  lemma LetterIsAccepted(rows: seq<CatalogueRow>, slug: string, c: char, d: char)
    requires 'a' <= c <= 'z' && 'a' <= d <= 'z' && c != d && PathsOfOthers(rows, slug) == ["/" + [d]]
    ensures RoutePath(DevelopmentSettings(), rows, slug, "/" + [c]) == Ok("/" + [c])
  {
    hide Validated, Overlap, IsWithin, PathsOfOthers;
    SegmentIsAccepted([c]);
    SegmentIsAccepted([d]);
    SystemPrefixesAreValid();
    OneLetterIsUnreserved(c);
    LettersDoNotOverlap(c, d);
    var settings := DevelopmentSettings();
    assert ProtectedPaths(settings, rows, slug) == ["/" + [d]];
    assert ReservedPrefixes(settings) == SYSTEM_PREFIXES;
    assert PathsOf(["/" + [d]]) == ["/" + [d]];
  }

  /** Both twins are planned, under one route id and with different payloads: publishing one replaces the other. */
  lemma TwinsShareARoute(slug: string)
    requires IsSlug(slug) && !(MODULE_PREFIX <= slug)
    ensures
      var settings, rows, twin := DevelopmentSettings(), Twins(slug), MODULE_PREFIX + slug;
      && BuildPlan(settings, rows, slug).Ok? && BuildPlan(settings, rows, twin).Ok?
      && var first, second := BuildPlan(settings, rows, slug).value, BuildPlan(settings, rows, twin).value;
      first.Route? && second.Route? && first.routeId == second.routeId && first.payload != second.payload
  {
    hide RoutePath, IsSlug, Preconditions.Strip, PathsOfOthers;
    var rows, twin := Twins(slug), MODULE_PREFIX + slug;
    SlugIsTight(slug);
    SlugIsTight(twin);
    assert |twin| != |slug| && rows[1..] == [rows[1]];
    assert FindRow(rows, slug) == Some(rows[0]) && FindRow(rows, twin) == Some(rows[1]);
    PathsOfPair(rows[0], rows[1], slug);
    PathsOfPair(rows[0], rows[1], twin);
    LetterIsAccepted(rows, slug, 'a', 'b');
    LetterIsAccepted(rows, twin, 'b', 'a');
  }

  class Gateway {
    var routes: Routes

    constructor ()
      ensures routes == map[]
    {
      routes := map[];
    }

    /** `publish_route`, with the PUT of a route on the gateway. */
    method PublishRoute(
      settings: Settings, rows: seq<CatalogueRow>, name: string, dryRun: bool, header: PreviewHeader, requirePreview: bool)
      returns (r: Result<Publication, RouteError>)
      modifies this
      ensures r == PublishUnder(settings, rows, name, dryRun, header, requirePreview)
      ensures r.Ok? && r.value.sent ==> routes == old(routes)[r.value.plan.routeId := r.value.plan.payload]
      ensures !(r.Ok? && r.value.sent) ==> routes == old(routes)
    {
      var preview: Option<Etag> := None;
      if requirePreview && !dryRun {
        match header {
          case NoPreview => return Err(PreviewRequired);
          case OtherText => return Err(InvalidPreview);
          case Strong(etag) => preview := Some(etag);
        }
      }
      var plan := BuildPlan(settings, rows, name);
      if plan.Err? { return Err(plan.error); }
      var etag := Etag(plan.value);
      if preview.Some? && preview.value != etag { return Err(StalePreview); }
      if dryRun || plan.value.Skipped? { return Ok(Publication(plan.value, etag, false)); }
      routes := routes[plan.value.routeId := plan.value.payload];
      return Ok(Publication(plan.value, etag, true));
    }

    /** Two publications in a row on one catalogue. */
    method PublishBoth(settings: Settings, rows: seq<CatalogueRow>, a: string, b: string)
      returns (first: Result<Publication, RouteError>, second: Result<Publication, RouteError>)
      requires Preconditions.Strip(a) != Preconditions.Strip(b)
      modifies this
      ensures first.Ok? && first.value.sent && second.Ok? && second.value.sent ==>
        var slugA, slugB := Preconditions.Strip(a), Preconditions.Strip(b);
        && first.value.plan.Route? && second.value.plan.Route?
        && (HoldsBoth(routes, first.value.plan, second.value.plan) <==> !Collide(slugA, slugB))
        && forall request ::
             !(Serves(first.value.plan.payload, request) && Serves(second.value.plan.payload, request))
    {
      hide BuildPlan, Preconditions.Strip, Serves, HoldsBoth, Collide;
      ghost var before := routes;
      first := PublishRoute(settings, rows, a, false, NoPreview, false);
      second := PublishRoute(settings, rows, b, false, NoPreview, false);
      if first.Ok? && first.value.sent && second.Ok? && second.value.sent {
        BothAreInstalled(settings, rows, a, b, before);
        forall request
          ensures !(Serves(first.value.plan.payload, request) && Serves(second.value.plan.payload, request))
        {
          RoutesAreDisjoint(settings, rows, a, b, request);
        }
      }
    }
  }
}
