/**
 The APISIX bootstrap (deploy/apisix/bootstrap.py): install the desired routes, list the installed
 ones page by page, and delete those of the reserved namespace that are no longer desired.
 */
module RouteBootstrap {
  import opened Wrappers

  const MANAGED_PREFIX := "archideal-"
  const PAGE_SIZE := 100

  predicate Managed(id: string) {
    MANAGED_PREFIX <= id
  }

  // ----- listing -----

  /** A listed item: no object at all, or an entry that may carry its id and has a store key. */
  datatype Item = Malformed | Entry(valueId: string, key: string)

  /** `key.rsplit("/", 1)[-1]`. */
  function LastPart(key: string): (r: string)
    ensures '/' !in r && |r| <= |key| && r == key[|key| - |r|..]
    ensures |r| < |key| ==> key[|key| - |r| - 1] == '/'
  {
    if key == "" then ""
    else if key[|key| - 1] == '/' then ""
    else LastPart(key[..|key| - 1]) + [key[|key| - 1]]
  }

  function IdOf(item: Item): Option<string> {
    match item
    case Malformed => None
    case Entry(valueId, key) => Some(if valueId != "" then valueId else LastPart(key))
  }

  lemma {:induction false} LastPartIsName(directory: string, name: string)
    requires '/' !in name
    ensures LastPart(directory + "/" + name) == name
  {
    var key := directory + "/" + name;
    if name == "" {
      assert key[|key| - 1] == '/';
    } else {
      var front := name[..|name| - 1];
      assert key[..|key| - 1] == directory + "/" + front && key[|key| - 1] == name[|name| - 1];
      LastPartIsName(directory, front);
      assert front + [name[|name| - 1]] == name;
    }
  }

  /** An entry is known by the id it carries, or else by what follows the last slash of its key. */
  lemma EntryIsNamed(directory: string, name: string, valueId: string)
    requires '/' !in name
    ensures IdOf(Entry(valueId, directory + "/" + name)) == Some(if valueId != "" then valueId else name)
  {
    LastPartIsName(directory, name);
  }

  ghost function ManagedIds(items: seq<Item>): set<string> {
    set i | 0 <= i < |items| && IdOf(items[i]).Some? && Managed(IdOf(items[i]).value) :: IdOf(items[i]).value
  }

  /** The items on one page of a listing that is stable between requests. */
  function PageOf(items: seq<Item>, page: nat): seq<Item>
    requires page > 0
  {
    var from, to := (page - 1) * PAGE_SIZE, page * PAGE_SIZE;
    if |items| <= from then [] else if |items| <= to then items[from..] else items[from..to]
  }

  /** How much of the listing is seen: a response without a total is taken for the only one. */
  function Seen(items: seq<Item>, reportsTotal: bool): seq<Item> {
    if reportsTotal then items else PageOf(items, 1)
  }

  /** The pages that are asked for, unless one of them fails first. */
  function LastPage(items: seq<Item>, reportsTotal: bool): nat {
    if reportsTotal && |items| > 0 then (|items| + PAGE_SIZE - 1) / PAGE_SIZE else 1
  }

  method CollectManaged(items: seq<Item>) returns (ids: set<string>)
    ensures ids == ManagedIds(items)
  {
    ids := {};
    for n := 0 to |items|
      invariant ids == ManagedIds(items[..n])
    {
      var id := IdOf(items[n]);
      AddItem(items[..n], items[n]);
      assert items[..n + 1] == items[..n] + [items[n]];
      if id.Some? && Managed(id.value) { ids := ids + {id.value}; }
    }
    assert items[..|items|] == items;
  }

  lemma JoinManaged(first: seq<Item>, second: seq<Item>)
    ensures ManagedIds(first + second) == ManagedIds(first) + ManagedIds(second)
  {
    var both := first + second;
    forall id | id in ManagedIds(first) ensures id in ManagedIds(both) {
      var i :| 0 <= i < |first| && IdOf(first[i]) == Some(id);
      assert both[i] == first[i];
    }
    forall id | id in ManagedIds(second) ensures id in ManagedIds(both) {
      var i :| 0 <= i < |second| && IdOf(second[i]) == Some(id);
      assert both[|first| + i] == second[i];
    }
  }

  lemma AddItem(items: seq<Item>, item: Item)
    ensures ManagedIds(items + [item]) == ManagedIds(items)
      + if IdOf(item).Some? && Managed(IdOf(item).value) then {IdOf(item).value} else {}
  {
    JoinManaged(items, [item]);
    assert [item][0] == item;
  }

  /** One page of the loop: it is the last one, or the next page starts where this one ends. */
  lemma PageStep(items: seq<Item>, reportsTotal: bool, page: nat)
    requires 1 <= page <= LastPage(items, reportsTotal) && (page - 1) * PAGE_SIZE <= |items|
    ensures
      var from, found := (page - 1) * PAGE_SIZE, PageOf(items, page);
      var total := if reportsTotal then |items| else |found|;
      if page * PAGE_SIZE >= total || found == [] then
        page == LastPage(items, reportsTotal) && items[..from] + found == Seen(items, reportsTotal)
      else
        && page + 1 <= LastPage(items, reportsTotal)
        && from + PAGE_SIZE <= |items| && items[..from] + found == items[..from + PAGE_SIZE]
  {
  }

  lemma NothingYet(items: seq<Item>, reportsTotal: bool)
    ensures LastPage(items, reportsTotal) >= 1 && ManagedIds(items[..0]) == {}
  {
  }

  /** `installed_managed_route_ids`; `answers` says which pages are answered with status 200 and a well-formed list. */
  method InstalledManagedIds(items: seq<Item>, reportsTotal: bool, answers: nat -> bool) returns (r: Option<set<string>>)
    ensures r.Some? ==> r.value == ManagedIds(Seen(items, reportsTotal))
    ensures r.Some? <==> forall page :: 1 <= page <= LastPage(items, reportsTotal) ==> answers(page)
  {
    hide ManagedIds, PageOf, Seen, LastPage;
    var page, ids := 1, {};
    NothingYet(items, reportsTotal);
    while true
      invariant 1 <= page <= LastPage(items, reportsTotal)
      invariant (page - 1) * PAGE_SIZE <= |items|
      invariant ids == ManagedIds(items[..(page - 1) * PAGE_SIZE])
      invariant forall earlier :: 1 <= earlier < page ==> answers(earlier)
      decreases LastPage(items, reportsTotal) - page
    {
      if !answers(page) { return None; }
      var found := PageOf(items, page);
      var more := CollectManaged(found);
      PageStep(items, reportsTotal, page);
      JoinManaged(items[..(page - 1) * PAGE_SIZE], found);
      ids := ids + more;
      var total := if reportsTotal then |items| else |found|;
      if page * PAGE_SIZE >= total || found == [] { return Some(ids); }
      page := page + 1;
    }
  }

  /** A listing of some store: every item names a route, and no route is listed twice. */
  predicate WellFormed(items: seq<Item>) {
    && (forall i :: 0 <= i < |items| ==> IdOf(items[i]).Some?)
    && (forall i, j :: 0 <= i < j < |items| ==> IdOf(items[i]) != IdOf(items[j]))
  }

  /** A store of `n` routes that lists its only managed route last. */
  function LastManaged(n: nat): (items: seq<Item>)
    ensures |items| == n
  {
    seq(n, i requires 0 <= i < n => Entry(if i == n - 1 then MANAGED_PREFIX else seq(i + 1, _ => 'x'), ""))
  }

  lemma LastManagedIds(n: nat)
    requires n > PAGE_SIZE
    ensures WellFormed(LastManaged(n))
    ensures MANAGED_PREFIX in ManagedIds(LastManaged(n)) && ManagedIds(PageOf(LastManaged(n), 1)) == {}
  {
    var items := LastManaged(n);
    assert IdOf(items[n - 1]) == Some(MANAGED_PREFIX);
    forall i | 0 <= i < n - 1 ensures IdOf(items[i]).Some? && |IdOf(items[i]).value| == i + 1 && IdOf(items[i]).value[0] == 'x' {
    }
    forall i | 0 <= i < |PageOf(items, 1)| ensures !Managed(IdOf(PageOf(items, 1)[i]).value) {
      assert PageOf(items, 1)[i] == items[i];
    }
  }

  /**
   Without a reported total the listing finds every managed route of every store of a given size
   exactly when that size fits one page.
   */
  lemma MissingTotal(n: nat)
    ensures n <= PAGE_SIZE <==>
      forall items :: |items| == n && WellFormed(items) ==> ManagedIds(Seen(items, false)) == ManagedIds(items)
  {
    if n <= PAGE_SIZE {
      forall items: seq<Item> | |items| == n ensures ManagedIds(Seen(items, false)) == ManagedIds(items) {
        assert PageOf(items, 1) == items;
      }
    } else {
      LastManagedIds(n);
      assert WellFormed(LastManaged(n)) && ManagedIds(Seen(LastManaged(n), false)) != ManagedIds(LastManaged(n));
    }
  }

  // ----- reconciling -----

  type Payload = string

  datatype Route = Route(id: string, payload: Payload)

  type Store = map<string, Payload>

  function Ids(desired: seq<Route>): set<string> {
    set i | 0 <= i < |desired| :: desired[i].id
  }

  function Desired(desired: seq<Route>): Store {
    if desired == [] then map[]
    else
      var last := desired[|desired| - 1];
      Desired(desired[..|desired| - 1])[last.id := last.payload]
  }

  /** What `main` demands of its route file before it touches the gateway. */
  predicate Acceptable(desired: seq<Route>) {
    && |Ids(desired)| == |desired|
    && desired != []
    && forall i :: 0 <= i < |desired| ==> Managed(desired[i].id)
  }

  function Unmanaged(routes: Store): Store {
    map id | id in routes && !Managed(id) :: routes[id]
  }

  /** The store as the bootstrap is meant to leave it. */
  function Reconciled(routes: Store, desired: seq<Route>): Store {
    Unmanaged(routes) + Desired(desired)
  }

  /** A listing shows exactly the routes of the store. */
  ghost predicate Lists(items: seq<Item>, routes: Store) {
    forall id :: id in routes <==> exists i :: 0 <= i < |items| && IdOf(items[i]) == Some(id)
  }

  lemma {:induction false} DesiredKeys(desired: seq<Route>)
    ensures Desired(desired).Keys == Ids(desired)
  {
    if desired != [] {
      var earlier, last := desired[..|desired| - 1], desired[|desired| - 1];
      DesiredKeys(earlier);
      assert forall i :: 0 <= i < |earlier| ==> earlier[i] == desired[i];
    }
  }

  lemma ListedManaged(items: seq<Item>, routes: Store)
    requires Lists(items, routes)
    ensures forall id :: id in ManagedIds(items) <==> id in routes && Managed(id)
  {
  }

  lemma WithoutStale(routes: Store, wanted: Store, stale: set<string>)
    requires forall id :: id in wanted ==> Managed(id)
    requires forall id :: id in stale <==> id in routes && Managed(id) && id !in wanted
    ensures (routes + wanted) - stale == Unmanaged(routes) + wanted
  {
    hide Managed;
  }

  /** Installing and deleting what a complete listing shows leads to the reconciled store. */
  lemma ReconcilesFully(routes: Store, desired: seq<Route>, items: seq<Item>)
    requires Acceptable(desired) && Lists(items, routes + Desired(desired))
    ensures (routes + Desired(desired)) - (ManagedIds(items) - Ids(desired)) == Reconciled(routes, desired)
  {
    hide Managed, Lists, ManagedIds, Desired;
    DesiredKeys(desired);
    ListedManaged(items, routes + Desired(desired));
    WithoutStale(routes, Desired(desired), ManagedIds(items) - Ids(desired));
  }

  /** The managed routes end up exactly the desired ones, and every other route stays as it was. */
  lemma ReconciledIsExact(routes: Store, desired: seq<Route>, id: string)
    requires Acceptable(desired)
    ensures Managed(id) ==> (id in Reconciled(routes, desired) <==> id in Ids(desired))
    ensures !Managed(id) ==> (id in Reconciled(routes, desired) <==> id in routes)
    ensures !Managed(id) && id in routes ==> Reconciled(routes, desired)[id] == routes[id]
    ensures forall i :: 0 <= i < |desired| && desired[i].id == id ==>
      id in Reconciled(routes, desired) && Reconciled(routes, desired)[id] == desired[i].payload
  {
    DesiredKeys(desired);
    forall i | 0 <= i < |desired| && desired[i].id == id
      ensures id in Desired(desired) && Desired(desired)[id] == desired[i].payload
    {
      UniqueIds(desired);
      DesiredPayload(desired, i);
    }
  }

  lemma {:induction false} UniqueIds(desired: seq<Route>)
    requires |Ids(desired)| == |desired|
    ensures forall i, j :: 0 <= i < j < |desired| ==> desired[i].id != desired[j].id
  {
    if desired != [] {
      var earlier, last := desired[..|desired| - 1], desired[|desired| - 1];
      assert Ids(desired) == Ids(earlier) + {last.id};
      FewerIds(earlier);
      UniqueIds(earlier);
      forall i | 0 <= i < |earlier| ensures desired[i].id != last.id {
        assert earlier[i].id in Ids(earlier);
      }
    }
  }

  lemma {:induction false} FewerIds(desired: seq<Route>)
    ensures |Ids(desired)| <= |desired|
  {
    if desired != [] {
      var earlier := desired[..|desired| - 1];
      FewerIds(earlier);
      assert Ids(desired) == Ids(earlier) + {desired[|desired| - 1].id};
    }
  }

  lemma {:induction false} DesiredPayload(desired: seq<Route>, i: nat)
    requires i < |desired| && forall i, j :: 0 <= i < j < |desired| ==> desired[i].id != desired[j].id
    ensures desired[i].id in Desired(desired) && Desired(desired)[desired[i].id] == desired[i].payload
  {
    if i < |desired| - 1 { DesiredPayload(desired[..|desired| - 1], i); }
  }

  lemma {:induction false} DistinctIdsCount(desired: seq<Route>)
    requires forall i, j :: 0 <= i < j < |desired| ==> desired[i].id != desired[j].id
    ensures |Ids(desired)| == |desired|
  {
    if desired != [] {
      var earlier, last := desired[..|desired| - 1], desired[|desired| - 1];
      assert Ids(desired) == Ids(earlier) + {last.id};
      DistinctIdsCount(earlier);
    }
  }

  /** A route file is acceptable exactly when it names at least one route, each once and under the reserved prefix. */
  lemma AcceptableExactly(desired: seq<Route>)
    ensures Acceptable(desired) <==>
      && |desired| > 0
      && (forall i, j :: 0 <= i < j < |desired| ==> desired[i].id != desired[j].id)
      && (forall i :: 0 <= i < |desired| ==> "archideal-" <= desired[i].id)
  {
    if |Ids(desired)| == |desired| { UniqueIds(desired); }
    if forall i, j :: 0 <= i < j < |desired| ==> desired[i].id != desired[j].id { DistinctIdsCount(desired); }
  }

  /** A second run changes nothing, and a run after an aborted one ends where the first would have. */
  lemma Recovers(routes: Store, aborted: Store, desired: seq<Route>)
    requires Acceptable(desired) && Unmanaged(aborted) == Unmanaged(routes)
    ensures Reconciled(aborted, desired) == Reconciled(routes, desired)
    ensures Reconciled(Reconciled(routes, desired), desired) == Reconciled(routes, desired)
  {
    hide Managed, Desired;
    DesiredKeys(desired);
    assert Unmanaged(Reconciled(routes, desired)) == Unmanaged(routes);
  }

  lemma NothingInstalled(desired: seq<Route>)
    ensures Desired(desired[..0]) == map[]
  {
  }

  lemma InstallsNext(routes: Store, desired: seq<Route>, n: nat)
    requires n < |desired|
    ensures (routes + Desired(desired[..n]))[desired[n].id := desired[n].payload] == routes + Desired(desired[..n + 1])
  {
    assert desired[..n + 1][..n] == desired[..n];
  }

  lemma KeepsUnmanaged(routes: Store, route: Route)
    requires Managed(route.id)
    ensures Unmanaged(routes[route.id := route.payload]) == Unmanaged(routes)
  {
  }

  /** A request succeeds, or raises with or without having taken effect. */
  datatype Reply = Done | RaisedAfter | RaisedBefore

  datatype Outcome = Finished | Refused | Aborted

  class Gateway {
    var routes: Store

    constructor (initial: Store)
      ensures routes == initial
    {
      routes := initial;
    }

    method Put(route: Route, reply: Reply) returns (ok: bool)
      modifies this
      ensures ok <==> reply.Done?
      ensures routes == if reply.RaisedBefore? then old(routes) else old(routes)[route.id := route.payload]
    {
      if !reply.RaisedBefore? { routes := routes[route.id := route.payload]; }
      return reply.Done?;
    }

    method Delete(id: string, reply: Reply) returns (ok: bool)
      modifies this
      ensures ok <==> reply.Done?
      ensures routes == if reply.RaisedBefore? then old(routes) else old(routes) - {id}
    {
      if !reply.RaisedBefore? { routes := routes - {id}; }
      return reply.Done?;
    }

    method InstallAll(desired: seq<Route>, replies: string -> Reply) returns (ok: bool)
      requires forall i :: 0 <= i < |desired| ==> Managed(desired[i].id)
      modifies this
      ensures Unmanaged(routes) == Unmanaged(old(routes))
      ensures ok ==> routes == old(routes) + Desired(desired)
      ensures ok <==> forall i :: 0 <= i < |desired| ==> replies(desired[i].id).Done?
    {
      hide Managed, Unmanaged, Desired;
      NothingInstalled(desired);
      for n := 0 to |desired|
        invariant routes == old(routes) + Desired(desired[..n])
        invariant Unmanaged(routes) == Unmanaged(old(routes))
        invariant forall i :: 0 <= i < n ==> replies(desired[i].id).Done?
      {
        InstallsNext(old(routes), desired, n);
        KeepsUnmanaged(routes, desired[n]);
        var done := Put(desired[n], replies(desired[n].id));
        if !done { return false; }
      }
      assert desired[..|desired|] == desired;
      return true;
    }

    /** `remove_stale_managed_routes`, once the installed ids are known. */
    method RemoveStale(stale: set<string>, replies: string -> Reply) returns (ok: bool)
      requires forall id :: id in stale ==> Managed(id)
      modifies this
      ensures Unmanaged(routes) == Unmanaged(old(routes))
      ensures ok ==> routes == old(routes) - stale
      ensures ok <==> forall id :: id in stale ==> replies(id).Done?
    {
      var left := stale;
      while left != {}
        invariant left <= stale
        invariant routes == old(routes) - (stale - left)
        invariant Unmanaged(routes) == Unmanaged(old(routes))
        invariant forall id :: id in stale - left ==> replies(id).Done?
        decreases left
      {
        var id :| id in left;
        left := left - {id};
        var done := Delete(id, replies(id));
        if !done { return false; }
      }
      return true;
    }

    /** `main`. `listing` is the gateway's own account of a store, `installs` and `deletions` its replies. */
    method Bootstrap(
      desired: seq<Route>, listing: Store -> seq<Item>, reportsTotal: bool, answers: nat -> bool,
      installs: string -> Reply, deletions: string -> Reply)
      returns (outcome: Outcome)
      modifies this
      ensures outcome.Refused? <==> !Acceptable(desired)
      ensures outcome.Refused? ==> routes == old(routes)
      ensures Unmanaged(routes) == Unmanaged(old(routes))
      ensures outcome.Finished? ==>
        var installed := old(routes) + Desired(desired);
        routes == installed - (ManagedIds(Seen(listing(installed), reportsTotal)) - Ids(desired))
      ensures outcome.Finished? && reportsTotal && Lists(listing(old(routes) + Desired(desired)), old(routes) + Desired(desired)) ==>
        routes == Reconciled(old(routes), desired)
      ensures Acceptable(desired) && (forall page :: answers(page)) && (forall id :: installs(id).Done? && deletions(id).Done?) ==>
        outcome.Finished?
    {
      if !Acceptable(desired) { return Refused; }
      var installed := InstallAll(desired, installs);
      if !installed { return Aborted; }
      var ids := InstalledManagedIds(listing(routes), reportsTotal, answers);
      if ids.None? { return Aborted; }
      if reportsTotal && Lists(listing(routes), routes) { ReconcilesFully(old(routes), desired, listing(routes)); }
      var removed := RemoveStale(ids.value - Ids(desired), deletions);
      return if removed then Finished else Aborted;
    }

    /**
     Two bootstraps in a row. However the first ended, the second leads to the store that the first
     was meant to leave, and after a first that finished it changes nothing.
     */
    method BootstrapAgain(
      desired: seq<Route>, listing: Store -> seq<Item>, answers: nat -> bool, installs: string -> Reply,
      deletions: string -> Reply, answers': nat -> bool, installs': string -> Reply, deletions': string -> Reply)
      returns (first: Outcome, second: Outcome, between: Store)
      requires forall routes :: Lists(listing(routes), routes)
      modifies this
      ensures first.Refused? <==> second.Refused?
      ensures second.Finished? ==> routes == Reconciled(old(routes), desired)
      ensures first.Finished? ==> between == Reconciled(old(routes), desired)
      ensures first.Finished? && second.Finished? ==> routes == between
      ensures Unmanaged(between) == Unmanaged(old(routes)) == Unmanaged(routes)
    {
      hide Lists, Reconciled, Unmanaged;
      first := Bootstrap(desired, listing, true, answers, installs, deletions);
      between := routes;
      if Acceptable(desired) { Recovers(old(routes), between, desired); }
      second := Bootstrap(desired, listing, true, answers', installs', deletions');
    }
  }
}
