/**
 Applying a snapshot to the component rows of a deployment
 (`RuntimeOperationProcessor._apply_components`, apps/hosting/runtime_worker.py).
 */
module ComponentSync {
  import opened Wrappers
  import opened RuntimeModel
  import opened Controller

  /** Why a recording transaction is abandoned: the controller broke its contract, or the store did. */
  datatype Fault = ControllerFault | StoreFault

  function Slugs(components: seq<Observed>): set<string> {
    set i | 0 <= i < |components| :: components[i].slug
  }

  lemma NothingReceived(components: seq<Observed>)
    ensures Slugs(components) == {} <==> components == []
  {
    if components != [] { assert components[0].slug in Slugs(components); }
  }

  /** A component after an undeploy that reported no component at all. */
  function Retired(component: Component): Component {
    component.(desiredReplicas := 0, readyReplicas := 0, availableReplicas := 0,
               state := "deleted", health := "stopped", lastError := "")
  }

  function Refreshed(component: Component, report: Component): Component {
    report.(imageDigest := component.imageDigest)
  }

  /** The replica columns are 16-bit; the controller contract allows larger counts. */
  predicate Storable(report: Component) {
    && report.desiredReplicas <= SMALLINT_MAX
    && report.readyReplicas <= SMALLINT_MAX
    && report.availableReplicas <= SMALLINT_MAX
  }

  predicate Vanished(snapshot: Snapshot) {
    snapshot.state == Deleted && snapshot.components == []
  }

  /** The report for one slug. */
  function ReportFor(components: seq<Observed>, slug: string): Component
    requires slug in Slugs(components)
  {
    if components[0].slug == slug then components[0].report
    else
      assert slug in Slugs(components[1..]) by {
        var i :| 0 <= i < |components| && components[i].slug == slug;
        assert components[1..][i - 1].slug == slug;
      }
      ReportFor(components[1..], slug)
  }

  lemma {:induction false} ReportAt(components: seq<Observed>, i: nat)
    requires DistinctSlugs(components) && i < |components|
    ensures ReportFor(components, components[i].slug) == components[i].report
  {
    assert components[i].slug in Slugs(components);
    if i > 0 {
      assert components[i] == components[1..][i - 1];
      ReportAt(components[1..], i - 1);
    }
  }

  /** The fault raised at one reported component, if any. */
  function FaultAt(rows: map<string, Component>, observed: Observed, mutate: bool): Option<Fault> {
    if observed.slug !in rows || observed.report.imageDigest != rows[observed.slug].imageDigest then
      Some(ControllerFault)
    else if mutate && !Storable(observed.report) then
      Some(StoreFault)
    else
      None
  }

  /** The fault of the earliest offending report. */
  function FirstFault(rows: map<string, Component>, components: seq<Observed>, mutate: bool): Option<Fault> {
    if components == [] then None
    else
      var fault := FaultAt(rows, components[0], mutate);
      if fault.Some? then fault else FirstFault(rows, components[1..], mutate)
  }

  lemma {:induction false} FirstFaultIsEarliest(
    rows: map<string, Component>, components: seq<Observed>, mutate: bool, i: nat)
    requires i <= |components|
    requires forall j :: 0 <= j < i ==> FaultAt(rows, components[j], mutate) == None
    ensures FirstFault(rows, components, mutate) == FirstFault(rows, components[i..], mutate)
  {
    if i == 0 {
      assert components[0..] == components;
    } else {
      assert forall j :: 0 <= j < i - 1 ==> components[1..][j] == components[j + 1];
      FirstFaultIsEarliest(rows, components[1..], mutate, i - 1);
      assert components[1..][i - 1..] == components[i..];
    }
  }

  function RefreshedRows(rows: map<string, Component>, components: seq<Observed>): map<string, Component>
    requires Slugs(components) == rows.Keys
  {
    map slug | slug in rows :: Refreshed(rows[slug], ReportFor(components, slug))
  }

  /**
   The component rows after a snapshot, or the fault that abandons the transaction.
   With `mutate` off the rows are only checked.
   */
  function Sync(rows: map<string, Component>, snapshot: Snapshot, mutate: bool)
    : Result<map<string, Component>, Fault>
  {
    if Vanished(snapshot) then
      Ok(if mutate then map slug | slug in rows :: Retired(rows[slug]) else rows)
    else if Slugs(snapshot.components) != rows.Keys then
      Err(ControllerFault)
    else
      var fault := FirstFault(rows, snapshot.components, mutate);
      if fault.Some? then Err(fault.value)
      else if !mutate then Ok(rows)
      else Ok(RefreshedRows(rows, snapshot.components))
  }

  /** Whatever a snapshot says, the set of components and their images never change. */
  lemma SyncKeepsRelease(rows: map<string, Component>, snapshot: Snapshot, mutate: bool)
    ensures
      var r := Sync(rows, snapshot, mutate);
      r.Ok? ==>
        && r.value.Keys == rows.Keys
        && (forall slug :: slug in rows ==> r.value[slug].imageDigest == rows[slug].imageDigest)
        && (!mutate ==> r.value == rows)
  {
  }

  lemma AllRefreshed(rows: map<string, Component>, saved: map<string, Component>, components: seq<Observed>)
    requires DistinctSlugs(components) && Slugs(components) == rows.Keys == saved.Keys
    requires forall j :: 0 <= j < |components| ==>
      && components[j].slug in rows
      && saved[components[j].slug] == Refreshed(rows[components[j].slug], components[j].report)
    ensures saved == RefreshedRows(rows, components)
  {
    hide ReportFor, Refreshed, DistinctSlugs;
    forall slug | slug in rows ensures saved[slug] == Refreshed(rows[slug], ReportFor(components, slug)) {
      var j :| 0 <= j < |components| && components[j].slug == slug;
      ReportAt(components, j);
    }
  }

  /** The loop over the reported components, writing one row at a time. */
  method ApplyComponents(rows: map<string, Component>, snapshot: Snapshot, mutate: bool)
    returns (r: Result<map<string, Component>, Fault>)
    requires DistinctSlugs(snapshot.components)
    ensures r == Sync(rows, snapshot, mutate)
  {
    hide RefreshedRows, Storable;
    var received := Slugs(snapshot.components);
    if snapshot.state == Deleted && received == {} {
      NothingReceived(snapshot.components);
      if !mutate { return Ok(rows); }
      return Ok(map slug | slug in rows :: Retired(rows[slug]));
    }
    assert !Vanished(snapshot);
    if received != rows.Keys { return Err(ControllerFault); }
    var saved := rows;
    var i := 0;
    while i < |snapshot.components|
      invariant 0 <= i <= |snapshot.components|
      invariant saved.Keys == rows.Keys
      invariant forall j :: 0 <= j < i ==> FaultAt(rows, snapshot.components[j], mutate) == None
      invariant !mutate ==> saved == rows
      invariant mutate ==> forall j :: 0 <= j < i ==>
        var observed := snapshot.components[j];
        saved[observed.slug] == Refreshed(rows[observed.slug], observed.report)
      invariant forall j :: i <= j < |snapshot.components| ==>
        var observed := snapshot.components[j];
        observed.slug in rows && saved[observed.slug] == rows[observed.slug]
    {
      var observed := snapshot.components[i];
      var component := saved[observed.slug];
      FirstFaultIsEarliest(rows, snapshot.components, mutate, i);
      if observed.report.imageDigest != component.imageDigest { return Err(ControllerFault); }
      if mutate {
        if !Storable(observed.report) { return Err(StoreFault); }
        saved := saved[observed.slug := Refreshed(component, observed.report)];
      }
      i := i + 1;
    }
    FirstFaultIsEarliest(rows, snapshot.components, mutate, i);
    if mutate { AllRefreshed(rows, saved, snapshot.components); }
    return Ok(saved);
  }
}
