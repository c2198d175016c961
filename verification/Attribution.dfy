/**
 Charging visible CUDA processes to records (src/gpuqueue/ledger.py,
 `attribute`, `_owner_of`, `scope_is_live`, `used_mb`), over one snapshot of
 the box.
 */
module Attribution {
  import opened Base
  import opened Ledger
  import opened Procs
  import opened Cgroups

  /** One line of nvidia-smi. `usedMb` is None for a process it cannot measure. */
  datatype App = App(pid: int, usedMb: Option<int>, name: string)

  datatype Box = Box(procs: ProcTable, cgroup: map<int, string>)

  function UsedMb(apps: seq<App>): int {
    if apps == [] then 0 else UsedMb(apps[..|apps| - 1]) + apps[|apps| - 1].usedMb.GetOr(0)
  }

  predicate ScopeIsLive(box: Box, r: Record) {
    && r.scopePid.Some? && r.scopeCgroup.Some?
    && box.procs.Alive(r.scopePid.value)
    && r.scopePid.value in box.cgroup && box.cgroup[r.scopePid.value] == r.scopeCgroup.value
  }

  predicate PidInScope(box: Box, pid: int, scope: string) {
    pid in box.cgroup && InScope(box.cgroup[pid], scope)
  }

  ghost predicate InTree(box: Box, r: Record, pid: int)
    requires box.procs.Valid()
  {
    r.usagePid.Some? && pid in box.procs.Tree(r.usagePid.value)
  }

  predicate InLiveScope(box: Box, r: Record, pid: int) {
    ScopeIsLive(box, r) && PidInScope(box, pid, r.scopeCgroup.value)
  }

  ghost function TreeOwner(box: Box, records: seq<Record>, pid: int): Option<string>
    requires box.procs.Valid()
  {
    if records == [] then None
    else if InTree(box, records[0], pid) then Some(records[0].path)
    else TreeOwner(box, records[1..], pid)
  }

  ghost function ScopeOwner(box: Box, records: seq<Record>, pid: int): Option<string> {
    if records == [] then None
    else if InLiveScope(box, records[0], pid) then Some(records[0].path)
    else ScopeOwner(box, records[1..], pid)
  }

  ghost function Owner(box: Box, records: seq<Record>, pid: int): Option<string>
    requires box.procs.Valid()
  {
    var byTree := TreeOwner(box, records, pid);
    if byTree.Some? then byTree else ScopeOwner(box, records, pid)
  }

  ghost function Owners(box: Box, records: seq<Record>): int -> Option<string>
    requires box.procs.Valid()
  {
    pid => Owner(box, records, pid)
  }

  /** The apps owned by `who`, in the order nvidia-smi lists them; None is nobody. */
  ghost function OwnedBy(owner: int -> Option<string>, apps: seq<App>, who: Option<string>): seq<App> {
    if apps == [] then []
    else
      var last := apps[|apps| - 1];
      OwnedBy(owner, apps[..|apps| - 1], who) + (if owner(last.pid) == who then [last] else [])
  }

  lemma OwnedBySnoc(owner: int -> Option<string>, apps: seq<App>, last: App, who: Option<string>)
    ensures OwnedBy(owner, apps + [last], who)
            == OwnedBy(owner, apps, who) + (if owner(last.pid) == who then [last] else [])
  {
    assert (apps + [last])[..|apps|] == apps;
  }

  ghost function Lists(owner: int -> Option<string>, apps: seq<App>): Option<string> -> seq<App> {
    who => OwnedBy(owner, apps, who)
  }

  /** `after` is `before` with `app` added to the list of `who`. */
  ghost predicate AddsOne(before: Option<string> -> seq<App>, after: Option<string> -> seq<App>, app: App,
      who: Option<string>) {
    && (forall w :: w != who ==> after(w) == before(w))
    && after(who) == before(who) + [app]
  }

  lemma ListsGrow(owner: int -> Option<string>, apps: seq<App>, app: App)
    ensures AddsOne(Lists(owner, apps), Lists(owner, apps + [app]), app, owner(app.pid))
  {
    forall who
      ensures Lists(owner, apps + [app])(who)
              == Lists(owner, apps)(who) + (if owner(app.pid) == who then [app] else [])
    {
      OwnedBySnoc(owner, apps, app, who);
    }
  }

  /** `owned.get(path, [])` */
  function Get(owned: map<string, seq<App>>, path: string): seq<App> {
    if path in owned then owned[path] else []
  }

  // ---------------------------------------------------------------------
  // The method
  // ---------------------------------------------------------------------

  /** The dict of trees, in record order. */
  ghost predicate IsTrees(box: Box, records: seq<Record>, trees: seq<(string, set<int>)>)
    requires box.procs.Valid()
    decreases |records|
  {
    if records == [] then trees == []
    else if records[0].usagePid.None? then IsTrees(box, records[1..], trees)
    else trees != [] && trees[0].0 == records[0].path
         && trees[0].1 == box.procs.Tree(records[0].usagePid.value)
         && IsTrees(box, records[1..], trees[1..])
  }

  method CollectTrees(box: Box, records: seq<Record>) returns (trees: seq<(string, set<int>)>)
    requires box.procs.Valid()
    ensures IsTrees(box, records, trees)
  {
    trees := [];
    var i := |records|;
    while i > 0
      invariant 0 <= i <= |records|
      invariant IsTrees(box, records[i..], trees)
    {
      i := i - 1;
      var r := records[i];
      assert records[i..][1..] == records[i + 1..];
      if r.usagePid.Some? {
        var kids := box.procs.Descendants(r.usagePid.value);
        forall q
          ensures q in {r.usagePid.value} + kids <==> q in box.procs.Tree(r.usagePid.value)
        {
        }
        var rest := trees;
        trees := [(r.path, {r.usagePid.value} + kids)] + rest;
        assert trees[1..] == rest;
      }
    }
    assert records[0..] == records;
  }

  ghost predicate IsScopes(box: Box, records: seq<Record>, scopes: seq<(string, string)>)
    decreases |records|
  {
    if records == [] then scopes == []
    else if !ScopeIsLive(box, records[0]) then IsScopes(box, records[1..], scopes)
    else scopes != [] && scopes[0] == (records[0].path, records[0].scopeCgroup.value)
         && IsScopes(box, records[1..], scopes[1..])
  }

  function CollectScopes(box: Box, records: seq<Record>): (scopes: seq<(string, string)>)
    ensures IsScopes(box, records, scopes)
  {
    if records == [] then []
    else if ScopeIsLive(box, records[0]) then
      [(records[0].path, records[0].scopeCgroup.value)] + CollectScopes(box, records[1..])
    else CollectScopes(box, records[1..])
  }

  lemma {:induction false} TreesDecide(box: Box, records: seq<Record>, trees: seq<(string, set<int>)>, pid: int)
    requires box.procs.Valid() && IsTrees(box, records, trees)
    ensures TreeOwner(box, records, pid) == FirstTree(trees, pid)
    decreases |records|
  {
    if records != [] {
      TreesDecide(box, records[1..], if records[0].usagePid.None? then trees else trees[1..], pid);
    }
  }

  function FirstTree(trees: seq<(string, set<int>)>, pid: int): Option<string> {
    if trees == [] then None
    else if pid in trees[0].1 then Some(trees[0].0)
    else FirstTree(trees[1..], pid)
  }

  lemma {:induction false} ScopesDecide(box: Box, records: seq<Record>, scopes: seq<(string, string)>, pid: int)
    requires IsScopes(box, records, scopes)
    ensures ScopeOwner(box, records, pid) == FirstScope(box, scopes, pid)
    decreases |records|
  {
    if records != [] {
      ScopesDecide(box, records[1..], if ScopeIsLive(box, records[0]) then scopes[1..] else scopes, pid);
    }
  }

  function FirstScope(box: Box, scopes: seq<(string, string)>, pid: int): Option<string> {
    if scopes == [] then None
    else if PidInScope(box, pid, scopes[0].1) then Some(scopes[0].0)
    else FirstScope(box, scopes[1..], pid)
  }

  method OwnerOf(box: Box, pid: int, trees: seq<(string, set<int>)>, scopes: seq<(string,
      string)>) returns (path: Option<string>)
    ensures path == if FirstTree(trees, pid).Some? then FirstTree(trees, pid) else FirstScope(box, scopes, pid)
  {
    var i := 0;
    while i < |trees|
      invariant 0 <= i <= |trees|
      invariant FirstTree(trees, pid) == FirstTree(trees[i..], pid)
    {
      assert trees[i..][1..] == trees[i + 1..];
      if pid in trees[i].1 {
        return Some(trees[i].0);
      }
      i := i + 1;
    }
    i := 0;
    while i < |scopes|
      invariant 0 <= i <= |scopes|
      invariant FirstScope(box, scopes, pid) == FirstScope(box, scopes[i..], pid)
    {
      assert scopes[i..][1..] == scopes[i + 1..];
      if PidInScope(box, pid, scopes[i].1) {
        return Some(scopes[i].0);
      }
      i := i + 1;
    }
    return None;
  }

  method Attribute(box: Box, apps: seq<App>, records: seq<Record>)
    returns (owned: map<string, seq<App>>, unledgered: seq<App>)
    requires box.procs.Valid()
    ensures IsAttribution(Lists(Owners(box, records), apps), owned, unledgered)
  {
    var trees := CollectTrees(box, records);
    var scopes := CollectScopes(box, records);
    ghost var owner := Owners(box, records);
    owned, unledgered := map[], [];
    for i := 0 to |apps|
      invariant IsAttribution(Lists(owner, apps[..i]), owned, unledgered)
    {
      var app := apps[i];
      var path := OwnerOf(box, app.pid, trees, scopes);
      TreesDecide(box, records, trees, app.pid);
      ScopesDecide(box, records, scopes, app.pid);
      assert path == owner(app.pid);
      assert apps[..i + 1] == apps[..i] + [app];
      ListsGrow(owner, apps[..i], app);
      AttributeOneMore(Lists(owner, apps[..i]), Lists(owner, apps[..i + 1]), app, path, owned, unledgered);
      if path.None? {
        unledgered := unledgered + [app];
      } else {
        owned := owned[path.value := Get(owned, path.value) + [app]];
      }
    }
    assert apps[..|apps|] == apps;
  }

  /** `(owned, unledgered)` holds the lists of every owner and of nobody: none is missing, empty or out of order. */
  ghost predicate IsAttribution(lists: Option<string> -> seq<App>, owned: map<string, seq<App>>, unledgered: seq<App>) {
    && (forall path :: Get(owned, path) == lists(Some(path)))
    && (forall path :: path in owned ==> owned[path] != [])
    && unledgered == lists(None)
  }

  lemma AttributeOneMore(before: Option<string> -> seq<App>, after: Option<string> -> seq<App>, app: App,
      who: Option<string>,
                         owned: map<string, seq<App>>, unledgered: seq<App>)
    requires IsAttribution(before, owned, unledgered) && AddsOne(before, after, app, who)
    ensures who.None? ==> IsAttribution(after, owned, unledgered + [app])
    ensures who.Some? ==> IsAttribution(after, owned[who.value := Get(owned, who.value) + [app]], unledgered)
  {
  }

  // ---------------------------------------------------------------------
  // What ownership means
  // ---------------------------------------------------------------------

  lemma {:induction false} TreeOwnerIsFirst(box: Box, records: seq<Record>, pid: int)
    requires box.procs.Valid()
    ensures TreeOwner(box, records, pid).None? <==> forall i :: 0 <= i < |records| ==> !InTree(box, records[i], pid)
    ensures TreeOwner(box, records, pid).Some? ==>
              exists i :: 0 <= i < |records| && InTree(box, records[i], pid) && TreeOwner(box, records,
                  pid) == Some(records[i].path)
  {
    if records != [] && !InTree(box, records[0], pid) {
      TreeOwnerIsFirst(box, records[1..], pid);
      if i :| 0 <= i < |records[1..]| && InTree(box, records[1..][i], pid)
              && TreeOwner(box, records[1..], pid) == Some(records[1..][i].path) {
        assert records[i + 1] == records[1..][i];
      }
      forall i | 0 <= i < |records| && TreeOwner(box, records, pid).None?
        ensures !InTree(box, records[i], pid)
      {
        if i > 0 {
          assert records[i] == records[1..][i - 1];
        }
      }
    }
  }

  lemma {:induction false} ScopeOwnerIsFirst(box: Box, records: seq<Record>, pid: int)
    ensures ScopeOwner(box, records, pid).None?
            <==> forall i :: 0 <= i < |records| ==> !InLiveScope(box, records[i], pid)
    ensures ScopeOwner(box, records, pid).Some? ==>
              exists i :: 0 <= i < |records| && InLiveScope(box, records[i], pid) && ScopeOwner(box, records,
                  pid) == Some(records[i].path)
  {
    if records != [] && !InLiveScope(box, records[0], pid) {
      ScopeOwnerIsFirst(box, records[1..], pid);
      if i :| 0 <= i < |records[1..]| && InLiveScope(box, records[1..][i], pid)
              && ScopeOwner(box, records[1..], pid) == Some(records[1..][i].path) {
        assert records[i + 1] == records[1..][i];
      }
      forall i | 0 <= i < |records| && ScopeOwner(box, records, pid).None?
        ensures !InLiveScope(box, records[i], pid)
      {
        if i > 0 {
          assert records[i] == records[1..][i - 1];
        }
      }
    }
  }

  /** A process inside any record's pid tree is charged to a record whose tree
      holds it, never by scope; it is unledgered only if no tree and no live
      scope holds it. */
  lemma TreesBeforeScopes(box: Box, records: seq<Record>, pid: int)
    requires box.procs.Valid()
    ensures (exists i :: 0 <= i < |records| && InTree(box, records[i], pid)) ==>
              exists i :: 0 <= i < |records| && InTree(box, records[i], pid) && Owner(box, records,
                  pid) == Some(records[i].path)
    ensures Owner(box, records, pid).None? <==>
              forall i :: 0 <= i < |records| ==> !InTree(box, records[i], pid) && !InLiveScope(box, records[i], pid)
  {
    TreeOwnerIsFirst(box, records, pid);
    ScopeOwnerIsFirst(box, records, pid);
  }

  // ---------------------------------------------------------------------
  // Ownership on the box
  // ---------------------------------------------------------------------

  /** Cgroup paths as the kernel writes them. */
  ghost predicate KernelPaths(box: Box) {
    forall pid :: pid in box.cgroup ==> Normalised(box.cgroup[pid])
  }

  /** The pid a record named at claim time is alive and still where it was then. */
  ghost predicate AnchorStands(box: Box, r: Record) {
    && r.scopePid.Some? && r.scopePid.value > 0 && r.scopePid.value in box.procs.born
    && r.scopePid.value in box.cgroup && r.scopeCgroup == Some(box.cgroup[r.scopePid.value])
  }

  /** `pid` runs in the scope the record names, or nested in it; the scope is
      neither a top-level slice nor a login session. */
  ghost predicate RunsInside(box: Box, r: Record, pid: int) {
    r.scopeCgroup.Some? && pid in box.cgroup
    && exists outer, inner :: Encloses(r.scopeCgroup.value, outer, box.cgroup[pid], inner)
  }

  ghost predicate Encloses(scope: string, outer: seq<string>, cgroup: string, inner: seq<string>) {
    && Spells(scope, outer) && Spells(cgroup, inner)
    && |outer| >= 2 && !LoginName(outer[|outer| - 1])
    && |outer| <= |inner| && outer == inner[..|outer|]
  }

  /** A record's scope covers a process exactly while its anchor stands. */
  lemma ScopeCoversExactly(box: Box, r: Record, pid: int)
    requires KernelPaths(box)
    ensures InLiveScope(box, r, pid) <==> AnchorStands(box, r) && RunsInside(box, r, pid)
  {
    hide Refused, Normalised, Spells, LoginName, Components;
    if AnchorStands(box, r) && pid in box.cgroup {
      var scope, cgroup := r.scopeCgroup.value, box.cgroup[pid];
      NormalisedIsSpelled(scope);
      NormalisedIsSpelled(cgroup);
      InScopeExactly(cgroup, Components(cgroup), scope, Components(scope));
      EmptyIsNoScope(cgroup);
      if InScope(cgroup, scope) {
        assert Encloses(scope, Components(scope), cgroup, Components(cgroup));
      }
      if RunsInside(box, r, pid) {
        var outer, inner :| Encloses(scope, outer, cgroup, inner);
        InScopeExactly(cgroup, inner, scope, outer);
      }
    }
  }

  lemma EmptyIsNoScope(cgroup: string)
    ensures !InScope(cgroup, "")
  {
  }

  /** A visible process is unledgered exactly if no record has it in the tree it
      is charged for and none with a standing anchor has it inside its scope. */
  lemma OwnedExactly(box: Box, records: seq<Record>, pid: int)
    requires box.procs.Valid() && KernelPaths(box)
    ensures Owner(box, records, pid).Some?
            <==> exists i :: 0 <= i < |records| && IsCharged(box, records[i], pid)
    ensures Owner(box, records, pid).Some? ==>
              exists i :: 0 <= i < |records| && IsCharged(box, records[i], pid)
                          && Owner(box, records, pid) == Some(records[i].path)
  {
    hide RunsInside;
    TreeOwnerIsFirst(box, records, pid);
    ScopeOwnerIsFirst(box, records, pid);
    forall i | 0 <= i < |records|
      ensures IsCharged(box, records[i], pid) <==> InTree(box, records[i], pid) || InLiveScope(box, records[i], pid)
    {
      ScopeCoversExactly(box, records[i], pid);
    }
  }

  ghost predicate IsCharged(box: Box, r: Record, pid: int)
    requires box.procs.Valid()
  {
    || (r.usagePid.Some? && (pid == r.usagePid.value || box.procs.Above(r.usagePid.value, pid)))
    || (AnchorStands(box, r) && RunsInside(box, r, pid))
  }

  /** With its anchor dead or moved, a record is charged as if it named no scope. */
  lemma {:induction false} FallenAnchorChargesNothing(box: Box, records: seq<Record>, i: nat, pid: int)
    requires box.procs.Valid() && i < |records| && !AnchorStands(box, records[i])
    ensures Owner(box, records, pid) == Owner(box, records[i := records[i].(scopePid := None)], pid)
  {
    FallenAnchorFindsNothing(box, records, i, pid);
  }

  lemma {:induction false} FallenAnchorFindsNothing(box: Box, records: seq<Record>, i: nat, pid: int)
    requires box.procs.Valid() && i < |records| && !AnchorStands(box, records[i])
    ensures var without := records[i := records[i].(scopePid := None)];
            && TreeOwner(box, without, pid) == TreeOwner(box, records, pid)
            && ScopeOwner(box, without, pid) == ScopeOwner(box, records, pid)
  {
    var without := records[i := records[i].(scopePid := None)];
    if i == 0 {
      assert without[1..] == records[1..];
    } else {
      FallenAnchorFindsNothing(box, records[1..], i - 1, pid);
      assert without[1..] == records[1..][i - 1 := records[i].(scopePid := None)];
    }
  }

  // ---------------------------------------------------------------------
  // Partition and conservation
  // ---------------------------------------------------------------------

  predicate NoDuplicates(paths: seq<string>) {
    forall i, j :: 0 <= i < j < |paths| ==> paths[i] != paths[j]
  }

  function Paths(records: seq<Record>): (paths: seq<string>)
    ensures |paths| == |records|
    ensures DistinctPaths(records) ==> NoDuplicates(paths)
  {
    seq(|records|, i requires 0 <= i < |records| => records[i].path)
  }

  /** Everything in the lists of some paths, and how much it uses. */
  ghost function Charged(lists: Option<string> -> seq<App>, paths: seq<string>): multiset<App> {
    if paths == [] then multiset{} else multiset(lists(Some(paths[0]))) + Charged(lists, paths[1..])
  }

  ghost function ChargedMb(lists: Option<string> -> seq<App>, paths: seq<string>): int {
    if paths == [] then 0 else UsedMb(lists(Some(paths[0]))) + ChargedMb(lists, paths[1..])
  }

  lemma UsedMbSnoc(apps: seq<App>, last: App)
    ensures UsedMb(apps + [last]) == UsedMb(apps) + last.usedMb.GetOr(0)
  {
    assert (apps + [last])[..|apps|] == apps;
  }

  /** What is charged is the sum of what could be measured. */
  lemma UsageIsASum(apps: seq<App>, pid: int, mb: int, name: string)
    ensures UsedMb([]) == 0
    ensures UsedMb(apps + [App(pid, Some(mb), name)]) == UsedMb(apps) + mb
    ensures UsedMb(apps + [App(pid, None, name)]) == UsedMb(apps)
  {
    UsedMbSnoc(apps, App(pid, Some(mb), name));
    UsedMbSnoc(apps, App(pid, None, name));
  }

  predicate Listed(who: Option<string>, paths: seq<string>) {
    who.Some? && who.value in paths
  }

  lemma ListedHeadOrTail(who: Option<string>, paths: seq<string>)
    requires paths != [] && NoDuplicates(paths)
    ensures Listed(who, paths) <==> who == Some(paths[0]) || Listed(who, paths[1..])
    ensures who == Some(paths[0]) ==> !Listed(who, paths[1..])
  {
    assert paths == [paths[0]] + paths[1..];
  }

  /** One more app adds itself to the charged side once if its owner is listed, else not at all. */
  lemma {:induction false} ChargeOneMore(before: Option<string> -> seq<App>, after: Option<string> -> seq<App>,
      app: App, who: Option<string>, paths: seq<string>)
    requires NoDuplicates(paths) && AddsOne(before, after, app, who)
    ensures Charged(after, paths) == Charged(before, paths) + (if Listed(who, paths) then multiset{app} else multiset{})
  {
    if paths != [] {
      ChargeOneMore(before, after, app, who, paths[1..]);
      ListedHeadOrTail(who, paths);
    }
  }

  lemma {:induction false} ChargeOneMoreMb(before: Option<string> -> seq<App>, after: Option<string> -> seq<App>,
      app: App, who: Option<string>, paths: seq<string>)
    requires NoDuplicates(paths) && AddsOne(before, after, app, who)
    ensures ChargedMb(after, paths)
            == ChargedMb(before, paths) + (if Listed(who, paths) then app.usedMb.GetOr(0) else 0)
  {
    if paths != [] {
      ChargeOneMoreMb(before, after, app, who, paths[1..]);
      ListedHeadOrTail(who, paths);
      UsedMbSnoc(before(Some(paths[0])), app);
    }
  }

  ghost predicate OwnersAreListed(owner: int -> Option<string>, paths: seq<string>) {
    forall pid :: owner(pid).Some? ==> owner(pid).value in paths
  }

  lemma {:induction false} PartitionByOwner(owner: int -> Option<string>, apps: seq<App>, paths: seq<string>)
    requires NoDuplicates(paths) && OwnersAreListed(owner, paths)
    ensures multiset(apps) == multiset(OwnedBy(owner, apps, None)) + Charged(Lists(owner, apps), paths)
  {
    if apps == [] {
      NothingCharged(owner, paths);
    } else {
      var last := apps[|apps| - 1];
      var front := apps[..|apps| - 1];
      assert apps == front + [last];
      PartitionByOwner(owner, front, paths);
      ListsGrow(owner, front, last);
      ChargeOneMore(Lists(owner, front), Lists(owner, apps), last, owner(last.pid), paths);
      OwnedBySnoc(owner, front, last, None);
    }
  }

  lemma {:induction false} UsageByOwner(owner: int -> Option<string>, apps: seq<App>, paths: seq<string>)
    requires NoDuplicates(paths) && OwnersAreListed(owner, paths)
    ensures UsedMb(apps) == UsedMb(OwnedBy(owner, apps, None)) + ChargedMb(Lists(owner, apps), paths)
  {
    if apps == [] {
      NothingCharged(owner, paths);
    } else {
      var last := apps[|apps| - 1];
      var front := apps[..|apps| - 1];
      var loose := OwnedBy(owner, front, None);
      assert apps == front + [last];
      UsageByOwner(owner, front, paths);
      ListsGrow(owner, front, last);
      ChargeOneMoreMb(Lists(owner, front), Lists(owner, apps), last, owner(last.pid), paths);
      OwnedBySnoc(owner, front, last, None);
      UsedMbSnoc(loose, last);
      assert loose + [] == loose;
    }
  }

  lemma {:induction false} NothingCharged(owner: int -> Option<string>, paths: seq<string>)
    ensures Charged(Lists(owner, []), paths) == multiset{}
    ensures ChargedMb(Lists(owner, []), paths) == 0
  {
    if paths != [] {
      NothingCharged(owner, paths[1..]);
    }
  }

  /** Every app lands exactly once, in one record's list or in unledgered, and
      the measured usage of the parts is the measured usage of the whole. */
  lemma AttributionIsAPartition(box: Box, records: seq<Record>, apps: seq<App>)
    requires box.procs.Valid() && DistinctPaths(records)
    ensures var owner := Owners(box, records);
            && multiset(apps) == multiset(OwnedBy(owner, apps, None)) + Charged(Lists(owner, apps), Paths(records))
            && UsedMb(apps) == UsedMb(OwnedBy(owner, apps, None)) + ChargedMb(Lists(owner, apps), Paths(records))
  {
    var owner := Owners(box, records);
    forall pid | owner(pid).Some?
      ensures owner(pid).value in Paths(records)
    {
      TreeOwnerIsFirst(box, records, pid);
      ScopeOwnerIsFirst(box, records, pid);
      var i :| 0 <= i < |records| && owner(pid) == Some(records[i].path);
      assert Paths(records)[i] == records[i].path;
    }
    PartitionByOwner(owner, apps, Paths(records));
    UsageByOwner(owner, apps, Paths(records));
  }
}
