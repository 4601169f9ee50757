/**
 Publishing immutable versions and deriving deployable releases from them
 (apps/hosting/versioning.py and apps/hosting/runtime_release.py). A version freezes the
 catalogue it was published with; a release is computed from the frozen catalogue, never
 from the live one.
 */
module Releases {
  import opened Wrappers
  import Controller

  /** SHA-256 of a canonical JSON value, taken to be injective; `Text` is any other stored text. */
  datatype Digest<T> = Sha256(value: T) | Text(text: string)

  datatype Profile = Profile(
    schemaVersion: nat,
    spec: string,
    specDigest: Digest<string>,
    enabled: bool,
    verifiedAt: Option<string>)

  datatype Module = Module(
    id: int,
    slug: string,
    image: string,
    enabled: bool,
    target: string,
    profile: Option<Profile>)

  datatype Application = Application(slug: string, currentVersion: string, revision: nat, modules: seq<Module>)

  /** `snapshot_application_runtime`. */
  datatype FrozenCatalogue = FrozenCatalogue(applicationId: nat, applicationSlug: string, modules: seq<Module>)

  /** A version row; rows older than runtime snapshots have neither snapshot nor digest. */
  datatype Version = Version(
    notes: string,
    source: string,
    snapshot: Option<FrozenCatalogue>,
    digest: Option<Digest<FrozenCatalogue>>)

  datatype ManifestModule = ManifestModule(id: int, slug: string, image: string, profileDigest: Digest<string>, spec: string)

  datatype Manifest = Manifest(
    applicationId: nat,
    applicationSlug: string,
    version: string,
    source: string,
    modules: seq<ManifestModule>)

  datatype Release = Release(manifest: Manifest, digest: Digest<Manifest>)

  type VersionKey = (nat, string)

  /** The live catalogue with its versions and releases, keyed by application and version number. */
  datatype Store = Store(
    applications: map<nat, Application>,
    versions: map<VersionKey, Version>,
    releases: map<VersionKey, Release>)

  // ----- manifests -----

  predicate Hexadecimal(c: char) {
    '0' <= c <= '9' || 'a' <= c <= 'f'
  }

  predicate RepositoryCharacter(c: char) {
    Controller.Lowercase(c) || c in {'.', '_', '/', '-'}
  }

  /** `IMAGE_DIGEST_PATTERN`: a repository pinned by a SHA-256 digest. */
  predicate PinnedImage(image: string) {
    && |image| >= 74
    && var repository := image[..|image| - 72];
    && Controller.Lowercase(repository[0]) && Controller.Lowercase(repository[|repository| - 1])
    && (forall i :: 0 <= i < |repository| ==> RepositoryCharacter(repository[i]))
    && image[|image| - 72..|image| - 64] == "@sha256:"
    && (forall i :: |image| - 64 <= i < |image| ==> Hexadecimal(image[i]))
  }

  /** `accepts` is the field-by-field review of a profile's specification. */
  predicate DeployableProfile(profile: Profile, accepts: string -> bool) {
    && profile.enabled
    && profile.verifiedAt.Some? && profile.verifiedAt.value != ""
    && profile.schemaVersion == 1
    && profile.specDigest == Sha256(profile.spec)
    && accepts(profile.spec)
  }

  predicate DeployableModule(m: Module, accepts: string -> bool) {
    && m.id >= 1
    && Controller.ValidSlug(m.slug)
    && m.enabled
    && m.target == "kubernetes"
    && PinnedImage(m.image)
    && m.profile.Some?
    && DeployableProfile(m.profile.value, accepts)
  }

  function ToManifest(m: Module): ManifestModule
    requires m.profile.Some?
  {
    ManifestModule(m.id, m.slug, m.image, m.profile.value.specDigest, m.profile.value.spec)
  }

  /** A catalogue is deployable when every module is, and no identifier or slug occurs twice. */
  predicate Deployable(modules: seq<Module>, accepts: string -> bool) {
    && 1 <= |modules| <= 20
    && (forall i :: 0 <= i < |modules| ==> DeployableModule(modules[i], accepts))
    && Unrepeated(modules, |modules|)
  }

  predicate Unrepeated(modules: seq<Module>, n: nat)
    requires n <= |modules|
  {
    forall i, j :: 0 <= i < j < n ==> modules[i].id != modules[j].id && modules[i].slug != modules[j].slug
  }

  function ManifestModules(modules: seq<Module>): seq<ManifestModule>
    requires forall i :: 0 <= i < |modules| ==> modules[i].profile.Some?
  {
    seq(|modules|, i requires 0 <= i < |modules| => ToManifest(modules[i]))
  }

  /** The loop of `_manifest_from_snapshot`, which stops at the first module that cannot be deployed. */
  method BuildModules(modules: seq<Module>, accepts: string -> bool) returns (r: Option<seq<ManifestModule>>)
    ensures r.Some? <==> Deployable(modules, accepts)
    ensures r.Some? ==> r.value == ManifestModules(modules)
    ensures r.Some? ==> |r.value| == |modules| && forall i :: 0 <= i < |modules| ==> Describes(r.value[i], modules[i])
  {
    hide DeployableModule;
    if modules == [] || |modules| > 20 { return None; }
    var built: seq<ManifestModule> := [];
    var ids: set<int> := {};
    var slugs: set<string> := {};
    for i := 0 to |modules|
      invariant |built| == i
      invariant forall j :: 0 <= j < i ==>
        DeployableModule(modules[j], accepts) && modules[j].profile.Some? && built[j] == ToManifest(modules[j])
      invariant ids == set j | 0 <= j < i :: modules[j].id
      invariant slugs == set j | 0 <= j < i :: modules[j].slug
      invariant Unrepeated(modules, i)
    {
      var m := modules[i];
      if m.id in ids || m.slug in slugs {
        var j :| 0 <= j < i && (modules[j].id == m.id || modules[j].slug == m.slug);
        return None;
      }
      if !DeployableModule(m, accepts) { return None; }
      DeployableHasProfile(m, accepts);
      ids := ids + {m.id};
      slugs := slugs + {m.slug};
      built := built + [ToManifest(m)];
    }
    assert built == ManifestModules(modules);
    return Some(built);
  }

  lemma DeployableHasProfile(m: Module, accepts: string -> bool)
    requires DeployableModule(m, accepts)
    ensures m.profile.Some?
  {
  }

  /** The manifest of a frozen catalogue; it depends on nothing else. */
  function ManifestOf(key: VersionKey, source: string, snapshot: FrozenCatalogue, accepts: string -> bool): Option<Manifest> {
    if snapshot.applicationId != key.0 || !Deployable(snapshot.modules, accepts) then None
    else Some(Manifest(snapshot.applicationId, snapshot.applicationSlug, key.1, source, ManifestModules(snapshot.modules)))
  }

  /** A manifest entry describes its module. */
  predicate Describes(entry: ManifestModule, m: Module) {
    && entry.id == m.id && entry.slug == m.slug && entry.image == m.image
    && m.profile.Some? && entry.profileDigest == m.profile.value.specDigest && entry.spec == m.profile.value.spec
  }

  /** A manifest describes a catalogue: every module in its place, under the version and source it was published with. */
  predicate DescribesCatalogue(manifest: Manifest, key: VersionKey, source: string, slug: string, modules: seq<Module>) {
    && manifest.applicationId == key.0 && manifest.version == key.1
    && manifest.source == source && manifest.applicationSlug == slug
    && |manifest.modules| == |modules|
    && forall i :: 0 <= i < |modules| ==> Describes(manifest.modules[i], modules[i])
  }

  /** What the runtime may rely on in a manifest it is given. */
  predicate SoundManifest(manifest: Manifest) {
    && 1 <= |manifest.modules| <= 20
    && (forall i :: 0 <= i < |manifest.modules| ==>
         && Controller.ValidSlug(manifest.modules[i].slug) && PinnedImage(manifest.modules[i].image)
         && manifest.modules[i].profileDigest == Sha256(manifest.modules[i].spec))
    && forall i, j :: 0 <= i < j < |manifest.modules| ==> manifest.modules[i].slug != manifest.modules[j].slug
  }

  /** The module was switched on for Kubernetes, under an enabled profile of the first schema that someone verified. */
  predicate Reviewed(m: Module) {
    && m.enabled && m.target == "kubernetes"
    && m.profile.Some? && m.profile.value.enabled && m.profile.value.schemaVersion == 1
    && m.profile.value.verifiedAt.Some? && m.profile.value.verifiedAt.value != ""
  }

  lemma ManifestDescribes(key: VersionKey, source: string, snapshot: FrozenCatalogue, accepts: string -> bool)
    ensures
      var manifest := ManifestOf(key, source, snapshot, accepts);
      && (manifest.Some? <==> snapshot.applicationId == key.0 && Deployable(snapshot.modules, accepts))
      && (manifest.Some? ==>
           && DescribesCatalogue(manifest.value, key, source, snapshot.applicationSlug, snapshot.modules)
           && SoundManifest(manifest.value)
           && forall i :: 0 <= i < |snapshot.modules| ==> Reviewed(snapshot.modules[i]) && accepts(snapshot.modules[i].profile.value.spec))
  {
    hide PinnedImage, Controller.ValidSlug;
  }

  /** An image is pinned when a repository name is followed by a SHA-256 digest in hexadecimal. */
  lemma PinnedExactly(repository: string, digest: string)
    requires |digest| == 64
    ensures PinnedImage(repository + "@sha256:" + digest) <==>
      && |repository| >= 2
      && Controller.Lowercase(repository[0]) && Controller.Lowercase(repository[|repository| - 1])
      && (forall i :: 0 <= i < |repository| ==> RepositoryCharacter(repository[i]))
      && (forall i :: 0 <= i < |digest| ==> Hexadecimal(digest[i]))
  {
    var image := repository + "@sha256:" + digest;
    assert |image| == |repository| + 72;
    assert image[..|image| - 72] == repository && image[|image| - 72..|image| - 64] == "@sha256:";
    assert forall i :: 0 <= i < 64 ==> image[|image| - 64 + i] == digest[i];
    assert forall i :: |image| - 64 <= i < |image| ==> image[i] == digest[i - (|image| - 64)];
  }

  /** Every pinned image has that form. */
  lemma PinnedForm(image: string)
    requires PinnedImage(image)
    ensures image == image[..|image| - 72] + "@sha256:" + image[|image| - 64..]
  {
  }

  // ----- publication -----

  function Freeze(store: Store, application: nat): FrozenCatalogue
    requires application in store.applications
  {
    FrozenCatalogue(application, store.applications[application].slug, store.applications[application].modules)
  }

  datatype PublishError = UnknownResource | RevisionConflict | MetadataConflict

  datatype Publication = Publication(store: Store, created: bool)

  /** `publish_immutable_version` for an application. */
  function Publish(store: Store, key: VersionKey, notes: string, source: string, expected: Option<nat>)
    : Result<Publication, PublishError>
  {
    if key.0 !in store.applications then Err(UnknownResource)
    else
      var application := store.applications[key.0];
      if expected.Some? && application.revision != expected.value then Err(RevisionConflict)
      else if key in store.versions then
        if store.versions[key].notes != notes || store.versions[key].source != source then Err(MetadataConflict)
        else Ok(Publication(store, false))
      else
        var snapshot := Freeze(store, key.0);
        Ok(Publication(
          store.(versions := store.versions[key := Version(notes, source, Some(snapshot), Some(Sha256(snapshot)))],
                 applications := store.applications[key.0 :=
                   application.(currentVersion := key.1, revision := application.revision + 1)]),
          true))
  }

  /** The effects of a publication and when it is refused. */
  lemma PublishDecides(store: Store, key: VersionKey, notes: string, source: string, expected: Option<nat>)
    ensures
      var r := Publish(store, key, notes, source, expected);
      && (r.Err? && r.error == UnknownResource <==> key.0 !in store.applications)
      && (key.0 in store.applications ==>
           var application := store.applications[key.0];
           && (r.Err? && r.error == RevisionConflict <==> expected.Some? && expected.value != application.revision)
           && (r.Err? && r.error == MetadataConflict <==>
                && (expected.None? || expected.value == application.revision) && key in store.versions
                && (store.versions[key].notes != notes || store.versions[key].source != source))
           && (r.Ok? && key in store.versions ==> r.value == Publication(store, false))
           && (r.Ok? && key !in store.versions ==>
                var frozen := FrozenCatalogue(key.0, application.slug, application.modules);
                && r.value.created
                && r.value.store == Store(
                     store.applications[key.0 :=
                       Application(application.slug, key.1, application.revision + 1, application.modules)],
                     store.versions[key := Version(notes, source, Some(frozen), Some(Sha256(frozen)))],
                     store.releases)))
  {
  }

  // ----- release lookup -----

  /** The tables after a lookup, with its answer; a refused lookup may still have frozen an old version. */
  datatype Lookup = Lookup(store: Store, manifest: Option<Manifest>)

  /** `_version_runtime_snapshot`: a version without snapshot and digest is frozen now. */
  function Materialized(store: Store, key: VersionKey): Store
    requires key in store.versions && key.0 in store.applications
  {
    var version := store.versions[key];
    if version.snapshot.None? && version.digest.None? then
      var snapshot := Freeze(store, key.0);
      store.(versions := store.versions[key := version.(snapshot := Some(snapshot), digest := Some(Sha256(snapshot)))])
    else store
  }

  predicate IntactSnapshot(version: Version) {
    version.snapshot.Some? && version.digest == Some(Sha256(version.snapshot.value))
  }

  /** `_validate_release_integrity`. */
  predicate IntactRelease(release: Release, key: VersionKey) {
    && release.digest == Sha256(release.manifest)
    && release.manifest.version == key.1
    && release.manifest.applicationId == key.0
    && release.manifest.modules != []
  }

  /** `runtime_release_for`; `permits` is the policy of the target environment. */
  function ReleaseFor(store: Store, key: VersionKey, accepts: string -> bool, permits: Manifest -> bool): Lookup {
    if key !in store.versions || key.0 !in store.applications then Lookup(store, None)
    else if key in store.releases then
      var release := store.releases[key];
      Lookup(store, if IntactRelease(release, key) && permits(release.manifest) then Some(release.manifest) else None)
    else
      var frozen := Materialized(store, key);
      var version := frozen.versions[key];
      if !IntactSnapshot(version) then Lookup(frozen, None)
      else
        match ManifestOf(key, version.source, version.snapshot.value, accepts)
        case None => Lookup(frozen, None)
        case Some(manifest) =>
          if !permits(manifest) then Lookup(frozen, None)
          else
            Lookup(frozen.(releases := frozen.releases[key := Release(manifest, Sha256(manifest))]), Some(manifest))
  }

  /** A new release passes its own integrity check. */
  lemma NewReleaseIsIntact(key: VersionKey, source: string, snapshot: FrozenCatalogue, accepts: string -> bool)
    ensures
      var manifest := ManifestOf(key, source, snapshot, accepts);
      manifest.Some? ==> IntactRelease(Release(manifest.value, Sha256(manifest.value)), key)
  {
  }

  // ----- runs -----

  /** Edits replace the live catalogue by any other; applications are never removed. */
  datatype Step =
    | Edit(applications: map<nat, Application>)
    | PublishVersion(key: VersionKey, notes: string, source: string, expected: Option<nat>)
    | Deploy(key: VersionKey, permits: Manifest -> bool)

  predicate Enabled(store: Store, s: Step) {
    s.Edit? ==> store.applications.Keys <= s.applications.Keys
  }

  function Apply(store: Store, s: Step, accepts: string -> bool): Store {
    match s
    case Edit(applications) => store.(applications := applications)
    case PublishVersion(key, notes, source, expected) =>
      (match Publish(store, key, notes, source, expected)
       case Ok(publication) => publication.store
       case Err(_) => store)
    case Deploy(key, permits) => ReleaseFor(store, key, accepts, permits).store
  }

  ghost predicate Legal(store: Store, steps: seq<Step>, accepts: string -> bool)
    decreases |steps|
  {
    steps != [] ==> Enabled(store, steps[0]) && Legal(Apply(store, steps[0], accepts), steps[1..], accepts)
  }

  ghost function Exec(store: Store, steps: seq<Step>, accepts: string -> bool): Store
    decreases |steps|
  {
    if steps == [] then store else Exec(Apply(store, steps[0], accepts), steps[1..], accepts)
  }

  /** Every release row is the manifest of its version's frozen catalogue. */
  ghost predicate Consistent(store: Store, accepts: string -> bool) {
    && (forall key :: key in store.versions ==> key.0 in store.applications)
    && (forall key :: key in store.releases ==>
         && key in store.versions
         && IntactSnapshot(store.versions[key])
         && store.releases[key].digest == Sha256(store.releases[key].manifest)
         && ManifestOf(key, store.versions[key].source, store.versions[key].snapshot.value, accepts)
              == Some(store.releases[key].manifest))
  }

  /** Releases never change, and a version never changes once it is frozen. */
  ghost predicate Frozen(before: Store, after: Store) {
    && (forall key :: key in before.versions ==>
         && key in after.versions
         && after.versions[key].source == before.versions[key].source
         && after.versions[key].notes == before.versions[key].notes
         && (before.versions[key].snapshot.Some? || before.versions[key].digest.Some? ==>
              after.versions[key] == before.versions[key]))
    && (forall key :: key in before.releases ==> key in after.releases && after.releases[key] == before.releases[key])
  }

  lemma NothingThaws(store: Store)
    ensures Frozen(store, store)
  {
  }

  lemma PublishKeepsFrozen(store: Store, key: VersionKey, notes: string, source: string, expected: Option<nat>,
                           accepts: string -> bool)
    requires Consistent(store, accepts)
    ensures
      var r := Publish(store, key, notes, source, expected);
      r.Ok? ==> Consistent(r.value.store, accepts) && Frozen(store, r.value.store)
  {
    hide ManifestOf;
  }

  lemma FreezingKeepsFrozen(store: Store, key: VersionKey, accepts: string -> bool)
    requires Consistent(store, accepts) && key in store.versions && key !in store.releases
    ensures Consistent(Materialized(store, key), accepts) && Frozen(store, Materialized(store, key))
  {
    hide ManifestOf;
  }

  lemma DeployKeepsFrozen(store: Store, key: VersionKey, accepts: string -> bool, permits: Manifest -> bool)
    requires Consistent(store, accepts)
    ensures
      var after := ReleaseFor(store, key, accepts, permits).store;
      Consistent(after, accepts) && Frozen(store, after)
  {
    hide ManifestOf, Materialized;
    if key in store.versions && key !in store.releases { FreezingKeepsFrozen(store, key, accepts); }
  }

  lemma StepKeepsFrozen(store: Store, s: Step, accepts: string -> bool)
    requires Consistent(store, accepts) && Enabled(store, s)
    ensures Consistent(Apply(store, s, accepts), accepts) && Frozen(store, Apply(store, s, accepts))
  {
    hide ManifestOf, Publish, ReleaseFor;
    match s
    case Edit(_) =>
    case PublishVersion(key, notes, source, expected) =>
      PublishKeepsFrozen(store, key, notes, source, expected, accepts);
    case Deploy(key, permits) => DeployKeepsFrozen(store, key, accepts, permits);
  }

  lemma {:induction false} RunKeepsFrozen(store: Store, steps: seq<Step>, accepts: string -> bool)
    requires Consistent(store, accepts) && Legal(store, steps, accepts)
    ensures Consistent(Exec(store, steps, accepts), accepts) && Frozen(store, Exec(store, steps, accepts))
    decreases |steps|
  {
    hide Apply, Enabled;
    if steps != [] {
      var next := Apply(store, steps[0], accepts);
      StepKeepsFrozen(store, steps[0], accepts);
      RunKeepsFrozen(next, steps[1..], accepts);
    }
  }

  /**
   A release looked up for a version published with its catalogue is the manifest of the
   catalogue at publication, whatever was edited, published or deployed in between.
   */
  lemma ReleaseStability(store: Store, key: VersionKey, notes: string, source: string, expected: Option<nat>,
                         later: seq<Step>, accepts: string -> bool, permits: Manifest -> bool)
    requires Consistent(store, accepts) && key !in store.versions
    requires Publish(store, key, notes, source, expected).Ok?
    requires Legal(Publish(store, key, notes, source, expected).value.store, later, accepts)
    ensures
      var published := Publish(store, key, notes, source, expected).value.store;
      var lookup := ReleaseFor(Exec(published, later, accepts), key, accepts, permits);
      var frozen := ManifestOf(key, source, Freeze(store, key.0), accepts);
      && lookup.manifest == (if frozen.Some? && permits(frozen.value) then frozen else None)
      && (lookup.manifest.Some? ==>
           && DescribesCatalogue(lookup.manifest.value, key, source, store.applications[key.0].slug, store.applications[key.0].modules)
           && SoundManifest(lookup.manifest.value))
  {
    hide Deployable, DescribesCatalogue, SoundManifest, ManifestOf;
    ManifestDescribes(key, source, Freeze(store, key.0), accepts);
    var s := PublishVersion(key, notes, source, expected);
    StepKeepsFrozen(store, s, accepts);
    var published := Apply(store, s, accepts);
    RunKeepsFrozen(published, later, accepts);
    var now := Exec(published, later, accepts);
    assert now.versions[key] == published.versions[key];
    NewReleaseIsIntact(key, source, Freeze(store, key.0), accepts);
  }

  /** A version from before the snapshots is frozen by its first lookup, with the catalogue of that moment. */
  lemma LegacyIsFrozen(store: Store, key: VersionKey, accepts: string -> bool, permits: Manifest -> bool)
    requires key in store.versions && key.0 in store.applications && key !in store.releases
    requires store.versions[key].snapshot.None? && store.versions[key].digest.None?
    ensures
      var frozen := FrozenCatalogue(key.0, store.applications[key.0].slug, store.applications[key.0].modules);
      var lookup, manifest := ReleaseFor(store, key, accepts, permits), ManifestOf(key, store.versions[key].source, frozen, accepts);
      && lookup.manifest == (if manifest.Some? && permits(manifest.value) then manifest else None)
      && lookup.store == Store(
           store.applications,
           store.versions[key := store.versions[key].(snapshot := Some(frozen), digest := Some(Sha256(frozen)))],
           if lookup.manifest.Some? then store.releases[key := Release(manifest.value, Sha256(manifest.value))] else store.releases)
  {
    hide ManifestOf;
  }

  /** A stored release is returned as it is exactly when it is intact and permitted; nothing is written. */
  lemma StoredIsReturned(store: Store, key: VersionKey, accepts: string -> bool, permits: Manifest -> bool)
    requires key in store.versions && key.0 in store.applications && key in store.releases
    ensures
      var release, lookup := store.releases[key], ReleaseFor(store, key, accepts, permits);
      && lookup.store == store
      && (lookup.manifest.Some? ==> lookup.manifest.value == release.manifest)
      && (lookup.manifest.Some? <==>
           && release.digest == Sha256(release.manifest)
           && release.manifest.applicationId == key.0 && release.manifest.version == key.1
           && |release.manifest.modules| > 0 && permits(release.manifest))
  {
  }

  /** A version whose frozen catalogue and digest disagree is refused and left as it is. */
  lemma TamperedIsRefused(store: Store, key: VersionKey, accepts: string -> bool, permits: Manifest -> bool)
    requires key in store.versions && key !in store.releases
    requires var version := store.versions[key];
      (version.snapshot.Some? || version.digest.Some?)
      && (version.snapshot.None? || version.digest != Some(Sha256(version.snapshot.value)))
    ensures ReleaseFor(store, key, accepts, permits) == Lookup(store, None)
  {
  }

  /** Once a version was deployed anywhere, every later lookup that succeeds returns the same manifest. */
  lemma LookupsAgree(store: Store, key: VersionKey, permits: Manifest -> bool, later: seq<Step>,
                     permits': Manifest -> bool, accepts: string -> bool)
    requires Consistent(store, accepts)
    requires ReleaseFor(store, key, accepts, permits).manifest.Some?
    requires Legal(ReleaseFor(store, key, accepts, permits).store, later, accepts)
    ensures
      var first := ReleaseFor(store, key, accepts, permits);
      var second := ReleaseFor(Exec(first.store, later, accepts), key, accepts, permits');
      second.manifest.Some? ==> second.manifest == first.manifest
  {
    hide Deployable;
    StepKeepsFrozen(store, Deploy(key, permits), accepts);
    var deployed := ReleaseFor(store, key, accepts, permits).store;
    RunKeepsFrozen(deployed, later, accepts);
    assert key in deployed.releases;
  }

  /** Two versions never share a manifest, so the unique digest column is never violated. */
  lemma ManifestsDiffer(store: Store, a: VersionKey, b: VersionKey, accepts: string -> bool)
    requires Consistent(store, accepts) && a in store.releases && b in store.releases && a != b
    ensures store.releases[a].digest != store.releases[b].digest
  {
  }

  /** A version number is spent once: it is never republished with other notes or source, and a replay changes nothing. */
  lemma VersionIsSpentOnce(store: Store, key: VersionKey, later: seq<Step>, accepts: string -> bool,
                           notes: string, source: string, expected: Option<nat>)
    requires Consistent(store, accepts) && key in store.versions && Legal(store, later, accepts)
    ensures
      var now := Exec(store, later, accepts);
      var r := Publish(now, key, notes, source, expected);
      && (r.Ok? ==> r.value == Publication(now, false))
      && (r.Ok? ==> notes == store.versions[key].notes && source == store.versions[key].source)
  {
    RunKeepsFrozen(store, later, accepts);
  }

  // ----- the tables as the code updates them -----

  class ReleaseStore {
    var applications: map<nat, Application>
    var versions: map<VersionKey, Version>
    var releases: map<VersionKey, Release>

    /** The review of a profile's specification. */
    const accepts: string -> bool

    ghost function State(): Store
      reads this
    {
      Store(applications, versions, releases)
    }

    /** Every release is the manifest of its version's frozen catalogue. */
    ghost predicate Valid()
      reads this
    {
      Consistent(State(), accepts)
    }

    constructor (applications: map<nat, Application>, versions: map<VersionKey, Version>, accepts: string -> bool)
      requires forall key :: key in versions ==> key.0 in applications
      ensures State() == Store(applications, versions, map[]) && this.accepts == accepts && Valid()
    {
      this.accepts := accepts;
      this.applications := applications;
      this.versions := versions;
      this.releases := map[];
    }

    /** Locks the application, inserts the version with its frozen catalogue and advances the pointer. */
    method PublishImmutableVersion(key: VersionKey, notes: string, source: string, expected: Option<nat>)
      returns (r: Result<bool, PublishError>)
      requires Valid()
      modifies this
      ensures Valid() && Frozen(old(State()), State())
      ensures
        match Publish(old(State()), key, notes, source, expected)
        case Ok(publication) => State() == publication.store && r == Ok(publication.created)
        case Err(error) => State() == old(State()) && r == Err(error)
    {
      hide Consistent, Frozen;
      PublishKeepsFrozen(State(), key, notes, source, expected, accepts);
      NothingThaws(State());
      if key.0 !in applications { return Err(UnknownResource); }
      var locked := applications[key.0];
      if expected.Some? && locked.revision != expected.value { return Err(RevisionConflict); }
      var snapshot := FrozenCatalogue(key.0, locked.slug, locked.modules);
      if key in versions {
        var version := versions[key];
        if version.notes != notes || version.source != source { return Err(MetadataConflict); }
        return Ok(false);
      }
      versions := versions[key := Version(notes, source, Some(snapshot), Some(Sha256(snapshot)))];
      locked := locked.(currentVersion := key.1);
      locked := locked.(revision := locked.revision + 1);
      applications := applications[key.0 := locked];
      return Ok(true);
    }

    /** Returns the stored release, or derives and stores it from the frozen catalogue. */
    method RuntimeReleaseFor(key: VersionKey, permits: Manifest -> bool) returns (manifest: Option<Manifest>)
      requires Valid()
      modifies this
      ensures Valid() && Frozen(old(State()), State())
      ensures Lookup(State(), manifest) == ReleaseFor(old(State()), key, accepts, permits)
    {
      hide Deployable, Consistent, Frozen;
      DeployKeepsFrozen(State(), key, accepts, permits);
      if key !in versions || key.0 !in applications { return None; }
      if key in releases {
        var release := releases[key];
        if !IntactRelease(release, key) || !permits(release.manifest) { return None; }
        return Some(release.manifest);
      }
      var version := versions[key];
      if version.snapshot.None? && version.digest.None? {
        var snapshot := FrozenCatalogue(key.0, applications[key.0].slug, applications[key.0].modules);
        version := version.(snapshot := Some(snapshot), digest := Some(Sha256(snapshot)));
        versions := versions[key := version];
      }
      if !IntactSnapshot(version) { return None; }
      var snapshot := version.snapshot.value;
      if snapshot.applicationId != key.0 { return None; }
      var modules := BuildModules(snapshot.modules, accepts);
      if modules.None? { return None; }
      var built := Manifest(snapshot.applicationId, snapshot.applicationSlug, key.1, version.source, modules.value);
      if !permits(built) { return None; }
      releases := releases[key := Release(built, Sha256(built))];
      return Some(built);
    }
  }
}
