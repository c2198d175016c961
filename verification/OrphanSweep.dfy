/**
 The reaper's recovery pass (src/gpuqueue/reaper.py, `reap`, `requeue_orphans`,
 `_running_trees`, `kill_orphan_cuda`; src/gpuqueue/preflight.py, `own_pids`,
 `own_scopes`), over one snapshot of the box.
 */
module OrphanSweep {
  import opened Base
  import opened Ledger
  import opened Queue
  import opened QueueRuns
  import opened RunnerRuns
  import opened Sorting
  import opened Attribution

  /** The process the reaper runs in, and that process's parent. */
  datatype Self = Self(pid: int, parent: int)

  /** How the operating system answers the ladder: who takes a SIGTERM, who is
      seen to have exited at each look during the grace, who takes a SIGKILL. */
  datatype Answers = Answers(takesTerm: set<int>, looks: seq<set<int>>, takesKill: set<int>)

  datatype Signal = Term(pid: int) | Kill(pid: int)

  datatype Victim = Victim(app: App, cgroup: Option<string>, sigkilled: bool)

  // ---------------------------------------------------------------------
  // Exemptions
  // ---------------------------------------------------------------------

  /** A pid that a record accounts for: its own, and the tree it is charged for. */
  ghost predicate AccountsFor(box: Box, r: Record, pid: int)
    requires box.procs.Valid()
  {
    || pid == r.pid
    || (if r.usagePid.Some? then pid in box.procs.Tree(r.usagePid.value) else box.procs.Above(r.pid, pid))
  }

  ghost predicate IsSelf(box: Box, self: Self, pid: int)
    requires box.procs.Valid()
  {
    pid == self.pid || pid == self.parent || box.procs.Above(self.pid, pid)
  }

  /** The record's holder is alive. */
  predicate Holds(box: Box, r: Record) {
    r.pid > 0 && r.pid in box.procs.born
  }

  ghost predicate OneAccountsFor(box: Box, records: seq<Record>, pid: int)
    requires box.procs.Valid()
  {
    exists i :: 0 <= i < |records| && Holds(box, records[i]) && AccountsFor(box, records[i], pid)
  }

  ghost predicate OneScopeCovers(box: Box, records: seq<Record>, pid: int) {
    exists i :: 0 <= i < |records| && Holds(box, records[i]) && InLiveScope(box, records[i], pid)
  }

  /** `own_pids()`, over the records of every directory a claim could be in. */
  method OwnPids(box: Box, self: Self, records: seq<Record>) returns (pids: set<int>)
    requires box.procs.Valid()
    ensures forall pid :: pid in pids <==> IsSelf(box, self, pid) || OneAccountsFor(box, records, pid)
  {
    var below := box.procs.Descendants(self.pid);
    pids := {self.pid, self.parent} + below;
    for i := 0 to |records|
      invariant forall pid :: pid in pids <==> IsSelf(box, self, pid) || OneAccountsFor(box, records[..i], pid)
    {
      var r := records[i];
      ghost var before := pids;
      if box.procs.Alive(r.pid) {
        var kids := box.procs.Descendants(if r.usagePid.Some? then r.usagePid.value else r.pid);
        pids := pids + {r.pid} + (if r.usagePid.Some? then {r.usagePid.value} else {}) + kids;
      }
      forall pid
        ensures pid in pids <==> pid in before || (Holds(box, r) && AccountsFor(box, r, pid))
        ensures OneAccountsFor(box, records[..i + 1], pid)
                <==> OneAccountsFor(box, records[..i], pid) || (Holds(box, r) && AccountsFor(box, r, pid))
      {
        OneMoreAccount(box, records, i, pid);
      }
    }
    assert records[..|records|] == records;
  }

  lemma OneMoreAccount(box: Box, records: seq<Record>, i: nat, pid: int)
    requires box.procs.Valid() && i < |records|
    ensures OneAccountsFor(box, records[..i + 1], pid)
            <==> OneAccountsFor(box, records[..i], pid) || (Holds(box, records[i]) && AccountsFor(box, records[i], pid))
  {
    assert forall k :: 0 <= k < i ==> records[..i + 1][k] == records[..i][k];
    assert records[..i + 1][i] == records[i];
  }

  predicate ScopeHolds(box: Box, r: Record, scope: string) {
    Holds(box, r) && r.scopeCgroup == Some(scope) && scope != "" && ScopeIsLive(box, r)
  }

  /** `own_scopes()`, over the same records. */
  method OwnScopes(box: Box, records: seq<Record>) returns (scopes: set<string>)
    ensures forall scope :: scope in scopes <==> exists i :: 0 <= i < |records| && ScopeHolds(box, records[i], scope)
  {
    scopes := {};
    for i := 0 to |records|
      invariant forall scope :: scope in scopes <==> exists k :: 0 <= k < i && ScopeHolds(box, records[k], scope)
    {
      var r := records[i];
      if box.procs.Alive(r.pid) && r.scopeCgroup.Some? && r.scopeCgroup.value != "" && ScopeIsLive(box, r) {
        scopes := scopes + {r.scopeCgroup.value};
      }
    }
  }

  /** A pid is in one of the scopes exactly if some record's live scope covers it. */
  lemma ScopesCover(box: Box, records: seq<Record>, scopes: set<string>, pid: int)
    requires forall scope :: scope in scopes <==> exists i :: 0 <= i < |records| && ScopeHolds(box, records[i], scope)
    ensures (exists scope :: scope in scopes && PidInScope(box, pid, scope)) <==> OneScopeCovers(box, records, pid)
  {
    if OneScopeCovers(box, records, pid) {
      var i :| 0 <= i < |records| && Holds(box, records[i]) && InLiveScope(box, records[i], pid);
      assert ScopeHolds(box, records[i], records[i].scopeCgroup.value);
    }
    if scope :| scope in scopes && PidInScope(box, pid, scope) {
      var i :| 0 <= i < |records| && ScopeHolds(box, records[i], scope);
      assert InLiveScope(box, records[i], pid);
    }
  }

  // ---------------------------------------------------------------------
  // The running jobs
  // ---------------------------------------------------------------------

  /** `pid` is in the tree of a job that stands in running/ with a pid. */
  ghost predicate InRunningTree(box: Box, files: Files, pid: int)
    requires box.procs.Valid()
  {
    exists p: Path :: p in files && InTreeOf(box, files, p, pid)
  }

  ghost predicate InTreeOf(box: Box, files: Files, p: Path, pid: int)
    requires box.procs.Valid() && p in files
  {
    && p.state.Running? && files[p].pid.Some? && files[p].pid.value != 0
    && pid in box.procs.Tree(files[p].pid.value)
  }

  ghost predicate InTreeOfOne(box: Box, specs: seq<Spec>, pid: int)
    requires box.procs.Valid()
  {
    exists i :: 0 <= i < |specs| && InTreeOfSpec(box, specs[i], pid)
  }

  ghost predicate InTreeOfSpec(box: Box, spec: Spec, pid: int)
    requires box.procs.Valid()
  {
    spec.pid.Some? && spec.pid.value != 0 && pid in box.procs.Tree(spec.pid.value)
  }

  method RunningTrees(box: Box, queue: QueueRoot) returns (protect: set<int>)
    requires box.procs.Valid() && WellNamed(queue.files)
    ensures forall pid :: pid in protect <==> InRunningTree(box, queue.files, pid)
  {
    hide InTreeOfOne, InRunningTree, IsListing, Ordered;
    var specs := queue.ListState(Running);
    protect := {};
    NoTreeYet(box, specs);
    for i := 0 to |specs|
      invariant forall pid :: pid in protect <==> InTreeOfOne(box, specs[..i], pid)
    {
      ghost var before := protect;
      if specs[i].pid.Some? && specs[i].pid.value != 0 {
        var below := box.procs.Descendants(specs[i].pid.value);
        protect := protect + {specs[i].pid.value} + below;
      }
      forall pid
        ensures pid in protect <==> pid in before || InTreeOfSpec(box, specs[i], pid)
        ensures InTreeOfOne(box, specs[..i + 1], pid) <==> InTreeOfOne(box, specs[..i], pid) || InTreeOfSpec(box,
            specs[i], pid)
      {
        OneMoreTree(box, specs, i, pid);
      }
    }
    assert specs[..|specs|] == specs;
    forall pid
      ensures InTreeOfOne(box, specs, pid) <==> InRunningTree(box, queue.files, pid)
    {
      ListedTrees(box, specs, queue.files, pid);
    }
  }

  lemma NoTreeYet(box: Box, specs: seq<Spec>)
    requires box.procs.Valid()
    ensures forall pid :: !InTreeOfOne(box, specs[..0], pid)
  {
  }

  lemma OneMoreTree(box: Box, specs: seq<Spec>, i: nat, pid: int)
    requires box.procs.Valid() && i < |specs|
    ensures InTreeOfOne(box, specs[..i + 1], pid)
            <==> InTreeOfOne(box, specs[..i], pid) || InTreeOfSpec(box, specs[i], pid)
  {
    assert forall k :: 0 <= k < i ==> specs[..i + 1][k] == specs[..i][k];
    assert specs[..i + 1][i] == specs[i];
  }

  lemma ListedTrees(box: Box, specs: seq<Spec>, files: Files, pid: int)
    requires box.procs.Valid() && WellNamed(files) && IsListing(files, Running, specs)
    ensures InTreeOfOne(box, specs, pid) <==> InRunningTree(box, files, pid)
  {
    if InTreeOfOne(box, specs, pid) {
      var i :| 0 <= i < |specs| && InTreeOfSpec(box, specs[i], pid);
      assert specs[i] in specs;
      assert InTreeOf(box, files, Path(Running, specs[i].id), pid);
    }
    if InRunningTree(box, files, pid) {
      var p: Path :| p in files && InTreeOf(box, files, p, pid);
      assert p == Path(Running, files[p].id);
      assert files[p] in specs;
      var i :| 0 <= i < |specs| && specs[i] == files[p];
      assert InTreeOfSpec(box, specs[i], pid);
    }
  }

  // ---------------------------------------------------------------------
  // Abandoned jobs
  // ---------------------------------------------------------------------

  /** A job in running/ that no runner is following and whose process is gone. */
  predicate Abandoned(box: Box, activeIds: set<string>, spec: Spec) {
    spec.id !in activeIds && (spec.pid.None? || spec.pid.value <= 0 || spec.pid.value !in box.procs.born)
  }

  function Recovery(spec: Spec): Step {
    if spec.attempts < MAX_ATTEMPTS then Requeue(spec) else Finish(spec.(error := Some(Reason.Abandoned)), false)
  }

  /** Where the recovery of an abandoned job leaves it. */
  ghost predicate Recovered(files: Files, spec: Spec) {
    && Path(Running, spec.id) !in files
    && (if spec.attempts < 1 then
          && Path(Pending, spec.id) in files
          && files[Path(Pending, spec.id)] == spec.(attempts := spec.attempts + 1, pid := None)
        else
          Path(Failed, spec.id) in files && files[Path(Failed, spec.id)] == spec.(error := Some(Reason.Abandoned)))
  }

  lemma RecoveryMoves(files: Files, spec: Spec)
    requires Good(files) && Path(Running, spec.id) in files && files[Path(Running, spec.id)] == spec
    ensures Enabled(files, Recovery(spec)) && Good(Apply(files, Recovery(spec)))
    ensures Recovered(Apply(files, Recovery(spec)), spec)
    ensures forall id :: id != spec.id ==> Agree(files, Apply(files, Recovery(spec)), id)
  {
    StepMovesOneJob(files, Recovery(spec), spec.id);
  }

  lemma UntouchedStaysRecovered(files: Files, after: Files, spec: Spec)
    requires Recovered(files, spec) && Agree(files, after, spec.id)
    ensures Recovered(after, spec)
  {
  }

  lemma UntouchedChain(a: Files, b: Files, c: Files, id: string)
    requires Agree(a, b, id) && Agree(b, c, id)
    ensures Agree(a, c, id)
  {
  }

  /** What the loop has done with the first `n` listed jobs. */
  ghost predicate RecoveredUpTo(box: Box, activeIds: set<string>, before: Files, files: Files, specs: seq<Spec>, n: nat)
    requires n <= |specs|
  {
    && (forall k :: 0 <= k < n && Abandoned(box, activeIds, specs[k]) ==> Recovered(files, specs[k]))
    && forall id ::
         (forall k :: 0 <= k < n && specs[k].id == id ==> !Abandoned(box, activeIds, specs[k])) ==>
           Agree(before, files, id)
  }

  lemma NothingYet(files: Files)
    ensures Leads(files, [], files)
    ensures forall id :: Agree(files, files, id)
  {
  }

  lemma RecoverOneMore(box: Box, activeIds: set<string>, before: Files, files: Files, after: Files, specs: seq<Spec>,
      n: nat)
    requires n < |specs| && RecoveredUpTo(box, activeIds, before, files, specs, n)
    requires forall i, j :: 0 <= i < j < |specs| ==> specs[i].id != specs[j].id
    requires Abandoned(box, activeIds, specs[n]) && Recovered(after, specs[n])
    requires forall id :: id != specs[n].id ==> Agree(files, after, id)
    ensures RecoveredUpTo(box, activeIds, before, after, specs, n + 1)
  {
    forall k | 0 <= k < n + 1 && Abandoned(box, activeIds, specs[k])
      ensures Recovered(after, specs[k])
    {
      if k < n {
        UntouchedStaysRecovered(files, after, specs[k]);
      }
    }
    forall id | forall k :: 0 <= k < n + 1 && specs[k].id == id ==> !Abandoned(box, activeIds, specs[k])
      ensures Agree(before, after, id)
    {
      assert id != specs[n].id;
      UntouchedChain(before, files, after, id);
    }
  }

  lemma SkipOneMore(box: Box, activeIds: set<string>, before: Files, files: Files, specs: seq<Spec>, n: nat)
    requires n < |specs| && RecoveredUpTo(box, activeIds, before, files, specs, n)
    requires !Abandoned(box, activeIds, specs[n])
    ensures RecoveredUpTo(box, activeIds, before, files, specs, n + 1)
  {
    forall id | forall k :: 0 <= k < n + 1 && specs[k].id == id ==> !Abandoned(box, activeIds, specs[k])
      ensures Agree(before, files, id)
    {
    }
  }

  method Recover(queue: QueueRoot, spec: Spec) returns (again: bool)
    requires Enabled(queue.files, Recovery(spec))
    modifies queue
    ensures queue.files == Apply(old(queue.files), Recovery(spec))
    ensures again == (spec.attempts < MAX_ATTEMPTS)
  {
    again := spec.attempts < MAX_ATTEMPTS;
    if again {
      queue.Requeue(spec);
    } else {
      queue.Finish(spec.(error := Some(Reason.Abandoned)), false);
    }
  }

  /** Requeue each abandoned job, or fail it when its attempts are spent. The
      changes are steps of the queue that keep off the active jobs. */
  method RequeueOrphans(queue: QueueRoot, box: Box, activeIds: set<string>)
    returns (requeued: seq<string>, failed: seq<string>, ghost steps: seq<Step>)
    requires Good(queue.files)
    modifies queue
    ensures Good(queue.files) && Leads(old(queue.files), steps, queue.files)
    ensures forall s :: s in steps ==> (s.Requeue? || s.Finish?) && s.spec.id !in activeIds
    ensures forall p: Path :: p in old(queue.files) && p.state.Running?
                              && Abandoned(box, activeIds, old(queue.files)[p]) ==>
              Recovered(queue.files, old(queue.files)[p])
    ensures forall id :: Path(Running, id) in queue.files ==>
              && Path(Running, id) in old(queue.files)
              && queue.files[Path(Running, id)] == old(queue.files)[Path(Running, id)]
              && !Abandoned(box, activeIds, queue.files[Path(Running, id)])
    ensures forall id :: Path(Running, id) !in old(queue.files) ==> Agree(old(queue.files), queue.files, id)
    ensures forall id :: id in requeued <==> Due(box, activeIds, old(queue.files), id, true)
    ensures forall id :: id in failed <==> Due(box, activeIds, old(queue.files), id, false)
  {
    hide Apply, Recovered, Agree, Leads, Enabled, OneState;
    ghost var before := queue.files;
    requeued, failed, steps := [], [], [];
    NothingYet(before);
    var specs := queue.ListState(Running);
    for i := 0 to |specs|
      invariant Good(queue.files) && Leads(before, steps, queue.files)
      invariant forall s :: s in steps ==> (s.Requeue? || s.Finish?) && s.spec.id !in activeIds
      invariant RecoveredUpTo(box, activeIds, before, queue.files, specs, i)
      invariant forall id :: id in requeued <==> DueUpTo(box, activeIds, specs, i, id, true)
      invariant forall id :: id in failed <==> DueUpTo(box, activeIds, specs, i, id, false)
    {
      var spec := specs[i];
      if spec.id in activeIds || (spec.pid.Some? && box.procs.Alive(spec.pid.value)) {
        SkipOneMore(box, activeIds, before, queue.files, specs, i);
        continue;
      }
      StillListed(box, activeIds, before, queue.files, specs, i);
      RecoveryMoves(queue.files, spec);
      ghost var files := queue.files;
      OneStep(files, Recovery(spec));
      var again := Recover(queue, spec);
      if again {
        requeued := requeued + [spec.id];
      } else {
        failed := failed + [spec.id];
      }
      RecoverOneMore(box, activeIds, before, files, queue.files, specs, i);
      LeadsOn(before, steps, files, [Recovery(spec)], queue.files);
      steps := steps + [Recovery(spec)];
    }
    WhatIsLeft(box, activeIds, before, queue.files, specs);
    forall id, again
      ensures DueUpTo(box, activeIds, specs, |specs|, id, again) <==> Due(box, activeIds, before, id, again)
    {
      ListedDue(box, activeIds, before, specs, id, again);
    }
  }

  /** An abandoned job that is to be tried again, or is out of attempts. */
  predicate Due(box: Box, activeIds: set<string>, files: Files, id: string, again: bool) {
    Path(Running, id) in files && IsDue(box, activeIds, files[Path(Running, id)], again)
  }

  predicate IsDue(box: Box, activeIds: set<string>, spec: Spec, again: bool) {
    Abandoned(box, activeIds, spec) && again == (spec.attempts < 1)
  }

  ghost predicate DueUpTo(box: Box, activeIds: set<string>, specs: seq<Spec>, n: nat, id: string, again: bool)
    requires n <= |specs|
  {
    exists k :: 0 <= k < n && specs[k].id == id && IsDue(box, activeIds, specs[k], again)
  }

  lemma ListedDue(box: Box, activeIds: set<string>, files: Files, specs: seq<Spec>, id: string, again: bool)
    requires WellNamed(files)
    requires forall spec :: spec in specs <==> Path(Running, spec.id) in files && files[Path(Running, spec.id)] == spec
    ensures DueUpTo(box, activeIds, specs, |specs|, id, again) <==> Due(box, activeIds, files, id, again)
  {
    if DueUpTo(box, activeIds, specs, |specs|, id, again) {
      var k :| 0 <= k < |specs| && specs[k].id == id && IsDue(box, activeIds, specs[k], again);
      assert specs[k] in specs;
    }
    if Due(box, activeIds, files, id, again) {
      assert files[Path(Running, id)] in specs;
    }
  }

  /** A job the loop has not reached is still where it was listed. */
  lemma StillListed(box: Box, activeIds: set<string>, before: Files, files: Files, specs: seq<Spec>, n: nat)
    requires n < |specs| && RecoveredUpTo(box, activeIds, before, files, specs, n)
    requires forall i, j :: 0 <= i < j < |specs| ==> specs[i].id != specs[j].id
    requires specs[n] in specs ==>
               Path(Running, specs[n].id) in before && before[Path(Running, specs[n].id)] == specs[n]
    ensures Path(Running, specs[n].id) in files && files[Path(Running, specs[n].id)] == specs[n]
  {
    assert Agree(before, files, specs[n].id);
  }

  /** The job is in running/ and abandoned. */
  predicate Leaves(box: Box, activeIds: set<string>, files: Files, id: string) {
    Path(Running, id) in files && Abandoned(box, activeIds, files[Path(Running, id)])
  }

  lemma WhatIsLeft(box: Box, activeIds: set<string>, before: Files, files: Files, specs: seq<Spec>)
    requires WellNamed(before) && RecoveredUpTo(box, activeIds, before, files, specs, |specs|)
    requires IsListing(before, Running, specs)
    ensures forall p: Path :: p in before && p.state.Running? && Abandoned(box, activeIds, before[p]) ==>
              Recovered(files, before[p])
    ensures forall id :: Path(Running, id) in files ==>
              && Path(Running, id) in before && files[Path(Running, id)] == before[Path(Running, id)]
              && !Abandoned(box, activeIds, files[Path(Running, id)])
    ensures forall id :: Path(Running, id) !in before ==> Agree(before, files, id)
  {
    forall p: Path | p in before && p.state.Running? && Abandoned(box, activeIds, before[p])
      ensures Recovered(files, before[p])
    {
      assert p == Path(Running, before[p].id);
      assert before[p] in specs;
    }
    forall id
      ensures Leaves(box, activeIds, before, id) ==> Path(Running, id) !in files
      ensures !Leaves(box, activeIds, before, id) ==> Agree(before, files, id)
    {
      var p := Path(Running, id);
      if Leaves(box, activeIds, before, id) {
        assert before[p] in specs && before[p].id == id;
      } else {
        forall k | 0 <= k < |specs| && specs[k].id == id
          ensures !Abandoned(box, activeIds, specs[k])
        {
          assert specs[k] in specs;
        }
      }
    }
  }

  // ---------------------------------------------------------------------
  // Victims
  // ---------------------------------------------------------------------

  /** Some record in the runner's own claim directory is charged for the pid. */
  ghost predicate Ledgered(box: Box, records: seq<Record>, pid: int)
    requires box.procs.Valid()
  {
    exists i :: 0 <= i < |records| && (InTree(box, records[i], pid) || InLiveScope(box, records[i], pid))
  }

  /** Why a process is left alone: `records` are the live records of the claim
      directory, `claims` those of every directory a claim could be in. */
  ghost predicate Spared(box: Box, self: Self, records: seq<Record>, claims: seq<Record>, protect: set<int>, pid: int)
    requires box.procs.Valid()
  {
    || Ledgered(box, records, pid)
    || IsSelf(box, self, pid)
    || OneAccountsFor(box, claims, pid)
    || OneScopeCovers(box, claims, pid)
    || pid in protect
  }

  /** Some living holder's record has its anchor standing and the pid inside its scope. */
  ghost predicate OneEncloses(box: Box, claims: seq<Record>, pid: int) {
    exists i :: 0 <= i < |claims| && Holds(box, claims[i]) && Shelters(box, claims[i], pid)
  }

  ghost predicate Shelters(box: Box, r: Record, pid: int) {
    AnchorStands(box, r) && RunsInside(box, r, pid)
  }

  /** Why a process is left alone, told on the box. */
  lemma SparedExactly(box: Box, self: Self, records: seq<Record>, claims: seq<Record>, protect: set<int>, pid: int)
    requires box.procs.Valid() && KernelPaths(box)
    ensures Spared(box, self, records, claims, protect, pid) <==>
              || (exists i :: 0 <= i < |records| && IsCharged(box, records[i], pid))
              || pid == self.pid || pid == self.parent || box.procs.Above(self.pid, pid)
              || (exists i :: 0 <= i < |claims| && Holds(box, claims[i])
                              && (if claims[i].usagePid.None? then
                                    pid == claims[i].pid || box.procs.Above(claims[i].pid, pid)
                                  else
                                    || pid == claims[i].pid || pid == claims[i].usagePid.value
                                    || box.procs.Above(claims[i].usagePid.value, pid)))
              || OneEncloses(box, claims, pid)
              || pid in protect
  {
    hide RunsInside, InLiveScope;
    forall i | 0 <= i < |records|
      ensures IsCharged(box, records[i], pid) <==> InTree(box, records[i], pid) || InLiveScope(box, records[i], pid)
    {
      ScopeCoversExactly(box, records[i], pid);
    }
    forall i | 0 <= i < |claims|
      ensures Shelters(box, claims[i], pid) <==> InLiveScope(box, claims[i], pid)
    {
      ScopeCoversExactly(box, claims[i], pid);
    }
  }

  /** With its anchor dead or moved, a record spares what it would spare if it
      named no scope, whichever directory it is read from. */
  lemma FallenAnchorSparesNothing(box: Box, self: Self, records: seq<Record>, claims: seq<Record>, i: nat,
      protect: set<int>, pid: int)
    requires box.procs.Valid() && KernelPaths(box)
    ensures i < |records| && !AnchorStands(box, records[i]) ==>
              Spared(box, self, records, claims, protect, pid)
              == Spared(box, self, records[i := records[i].(scopePid := None)], claims, protect, pid)
    ensures i < |claims| && !AnchorStands(box, claims[i]) ==>
              Spared(box, self, records, claims, protect, pid)
              == Spared(box, self, records, claims[i := claims[i].(scopePid := None)], protect, pid)
  {
    hide RunsInside, InLiveScope, Spared;
    if i < |records| && !AnchorStands(box, records[i]) {
      var without := records[i := records[i].(scopePid := None)];
      forall k | 0 <= k < |records|
        ensures IsCharged(box, without[k], pid) == IsCharged(box, records[k], pid)
      {
      }
      SparedExactly(box, self, records, claims, protect, pid);
      SparedExactly(box, self, without, claims, protect, pid);
    }
    if i < |claims| && !AnchorStands(box, claims[i]) {
      var without := claims[i := claims[i].(scopePid := None)];
      forall k | 0 <= k < |claims|
        ensures Holds(box, without[k]) == Holds(box, claims[k])
        ensures AccountsFor(box, without[k], pid) == AccountsFor(box, claims[k], pid)
        ensures Shelters(box, without[k], pid) == Shelters(box, claims[k], pid)
      {
      }
      SparedExactly(box, self, records, claims, protect, pid);
      SparedExactly(box, self, records, without, protect, pid);
    }
  }

  function Select(keep: int -> bool, apps: seq<App>): seq<App> {
    if apps == [] then []
    else Select(keep, apps[..|apps| - 1]) + (if keep(apps[|apps| - 1].pid) then [apps[|apps| - 1]] else [])
  }

  ghost function Targets(box: Box, self: Self, records: seq<Record>, claims: seq<Record>,
      protect: set<int>): int -> bool
    requires box.procs.Valid()
  {
    pid => !Spared(box, self, records, claims, protect, pid)
  }

  lemma SelectSnoc(keep: int -> bool, apps: seq<App>, last: App)
    ensures Select(keep, apps + [last]) == Select(keep, apps) + (if keep(last.pid) then [last] else [])
  {
    assert (apps + [last])[..|apps|] == apps;
  }

  lemma {:induction false} SelectedApps(keep: int -> bool, apps: seq<App>)
    ensures forall app :: app in Select(keep, apps) <==> app in apps && keep(app.pid)
  {
    if apps != [] {
      SelectedApps(keep, apps[..|apps| - 1]);
      assert apps == apps[..|apps| - 1] + [apps[|apps| - 1]];
    }
  }

  /** Selecting from the unledgered apps is selecting from all of them. */
  lemma {:induction false} SelectFromUnledgered(owner: int -> Option<string>, keep: int -> bool, all: int -> bool,
      apps: seq<App>)
    requires forall pid :: all(pid) <==> owner(pid).None? && keep(pid)
    ensures Select(keep, OwnedBy(owner, apps, None)) == Select(all, apps)
  {
    if apps != [] {
      var front, last := apps[..|apps| - 1], apps[|apps| - 1];
      SelectFromUnledgered(owner, keep, all, front);
      SelectSnoc(keep, OwnedBy(owner, front, None), last);
      assert OwnedBy(owner, front, None) + [] == OwnedBy(owner, front, None);
    }
  }

  method AnyScope(box: Box, pid: int, scopes: set<string>) returns (inside: bool)
    ensures inside <==> exists scope :: scope in scopes && PidInScope(box, pid, scope)
  {
    var todo := scopes;
    while todo != {}
      invariant todo <= scopes
      invariant forall scope :: scope in scopes - todo ==> !PidInScope(box, pid, scope)
    {
      EmptyOrHas(todo);
      var scope :| scope in todo;
      if PidInScope(box, pid, scope) {
        return true;
      }
      todo := todo - {scope};
    }
    return false;
  }

  method ChooseVictims(box: Box, self: Self, protect: set<int>, records: seq<Record>, claims: seq<Record>,
      apps: seq<App>)
    returns (victims: seq<App>)
    requires box.procs.Valid()
    ensures victims == Select(Targets(box, self, records, claims, protect), apps)
  {
    hide IsSelf, OneAccountsFor, OneScopeCovers, Targets, Owners, Select;
    var owned, unledgered := Attribute(box, apps, records);
    var own := OwnPids(box, self, claims);
    var exempt := protect + own;
    var scopes := OwnScopes(box, claims);
    ghost var keep := pid => pid !in exempt && !OneScopeCovers(box, claims, pid);
    victims := [];
    SelectNothing(keep);
    for i := 0 to |unledgered|
      invariant victims == Select(keep, unledgered[..i])
    {
      var app := unledgered[i];
      var inside := AnyScope(box, app.pid, scopes);
      ScopesCover(box, claims, scopes, app.pid);
      assert unledgered[..i + 1] == unledgered[..i] + [app];
      SelectSnoc(keep, unledgered[..i], app);
      if app.pid !in exempt && !inside {
        victims := victims + [app];
      }
      assert victims + [] == victims;
    }
    assert unledgered[..|unledgered|] == unledgered;
    VictimsAreTargets(box, self, records, claims, protect, apps, exempt, keep);
  }

  lemma SelectNothing(keep: int -> bool)
    ensures Select(keep, []) == []
  {
  }

  lemma VictimsAreTargets(box: Box, self: Self, records: seq<Record>, claims: seq<Record>, protect: set<int>,
                          apps: seq<App>, exempt: set<int>, keep: int -> bool)
    requires box.procs.Valid()
    requires forall pid :: pid in exempt <==>
               pid in protect || IsSelf(box, self, pid) || OneAccountsFor(box, claims, pid)
    requires forall pid :: keep(pid) <==> pid !in exempt && !OneScopeCovers(box, claims, pid)
    ensures Select(keep, OwnedBy(Owners(box, records), apps, None))
            == Select(Targets(box, self, records, claims, protect), apps)
  {
    forall pid
      ensures Targets(box, self, records, claims, protect)(pid) <==> Owners(box, records)(pid).None? && keep(pid)
    {
      TreesBeforeScopes(box, records, pid);
    }
    SelectFromUnledgered(Owners(box, records), keep, Targets(box, self, records, claims, protect), apps);
  }

  // ---------------------------------------------------------------------
  // The ladder
  // ---------------------------------------------------------------------

  predicate Survives(os: Answers, pid: int) {
    forall i :: 0 <= i < |os.looks| ==> pid !in os.looks[i]
  }

  function Survivors(os: Answers): int -> bool {
    pid => Survives(os, pid)
  }

  function Takers(os: Answers): int -> bool {
    pid => pid in os.takesTerm
  }

  function Terms(apps: seq<App>): seq<Signal> {
    seq(|apps|, i requires 0 <= i < |apps| => Term(apps[i].pid))
  }

  function Kills(apps: seq<App>): seq<Signal> {
    seq(|apps|, i requires 0 <= i < |apps| => Kill(apps[i].pid))
  }

  /** The signals of one ladder, in order. */
  function Ladders(os: Answers, victims: seq<App>): seq<Signal> {
    Terms(victims) + Kills(Select(Survivors(os), Select(Takers(os), victims)))
  }

  function Cgroup(box: Box, pid: int): Option<string> {
    if pid in box.cgroup then Some(box.cgroup[pid]) else None
  }

  /** The report on a victim that took the SIGTERM. */
  function Report(box: Box, os: Answers, app: App): Victim {
    Victim(app, Cgroup(box, app.pid), Survives(os, app.pid) && app.pid in os.takesKill)
  }

  function Reports(box: Box, os: Answers, apps: seq<App>): seq<Victim> {
    seq(|apps|, i requires 0 <= i < |apps| => Report(box, os, apps[i]))
  }

  function SurvivesUpTo(os: Answers, n: nat): int -> bool
    requires n <= |os.looks|
  {
    pid => forall i :: 0 <= i < n ==> pid !in os.looks[i]
  }

  lemma {:induction false} SelectTwice(a: int -> bool, b: int -> bool, both: int -> bool, apps: seq<App>)
    requires forall pid :: both(pid) <==> a(pid) && b(pid)
    ensures Select(b, Select(a, apps)) == Select(both, apps)
  {
    if apps != [] {
      var front, last := apps[..|apps| - 1], apps[|apps| - 1];
      SelectTwice(a, b, both, front);
      SelectSnoc(b, Select(a, front), last);
      assert Select(a, front) + [] == Select(a, front);
    }
  }

  lemma {:induction false} SelectAll(keep: int -> bool, apps: seq<App>)
    requires forall pid :: keep(pid)
    ensures Select(keep, apps) == apps
  {
    if apps != [] {
      SelectAll(keep, apps[..|apps| - 1]);
    }
  }

  /** One look during the grace: the ones seen to have exited drop out. */
  method Look(alive: seq<App>, exited: set<int>) returns (left: seq<App>)
    ensures left == Select(pid => pid !in exited, alive)
  {
    ghost var keep := pid => pid !in exited;
    left := [];
    for i := 0 to |alive|
      invariant left == Select(keep, alive[..i])
    {
      assert alive[..i + 1] == alive[..i] + [alive[i]];
      SelectSnoc(keep, alive[..i], alive[i]);
      if alive[i].pid !in exited {
        left := left + [alive[i]];
      }
    }
    assert alive[..|alive|] == alive;
  }

  /** The shared grace: look until nobody is left or time is up. */
  method Grace(signalled: seq<App>, os: Answers) returns (alive: seq<App>)
    ensures alive == Select(Survivors(os), signalled)
  {
    alive := signalled;
    SelectAll(SurvivesUpTo(os, 0), signalled);
    var i := 0;
    while i < |os.looks| && alive != []
      invariant 0 <= i <= |os.looks|
      invariant alive == Select(SurvivesUpTo(os, i), signalled)
    {
      var exited := os.looks[i];
      SelectTwice(SurvivesUpTo(os, i), pid => pid !in exited, SurvivesUpTo(os, i + 1), signalled);
      alive := Look(alive, exited);
      i := i + 1;
    }
    NoneComeBack(os, i, signalled);
  }

  lemma NoneComeBack(os: Answers, n: nat, apps: seq<App>)
    requires n <= |os.looks|
    requires n == |os.looks| || Select(SurvivesUpTo(os, n), apps) == []
    ensures Select(Survivors(os), apps) == Select(SurvivesUpTo(os, n), apps)
  {
    var rest := pid => forall i :: n <= i < |os.looks| ==> pid !in os.looks[i];
    SelectTwice(SurvivesUpTo(os, n), rest, Survivors(os), apps);
    if n == |os.looks| {
      SelectAll(rest, Select(SurvivesUpTo(os, n), apps));
    }
  }

  method TermAll(victims: seq<App>, os: Answers) returns (signalled: seq<App>, log: seq<Signal>)
    ensures log == Terms(victims)
    ensures signalled == Select(Takers(os), victims)
  {
    signalled, log := [], [];
    for i := 0 to |victims|
      invariant log == Terms(victims[..i])
      invariant signalled == Select(Takers(os), victims[..i])
    {
      assert victims[..i + 1] == victims[..i] + [victims[i]];
      SelectSnoc(Takers(os), victims[..i], victims[i]);
      log := log + [Term(victims[i].pid)];
      if victims[i].pid in os.takesTerm {
        signalled := signalled + [victims[i]];
      }
    }
    assert victims[..|victims|] == victims;
  }

  method KillAll(alive: seq<App>, os: Answers) returns (killed: set<int>, log: seq<Signal>)
    ensures log == Kills(alive)
    ensures forall pid :: pid in killed <==> pid in os.takesKill && exists k :: 0 <= k < |alive| && alive[k].pid == pid
  {
    killed, log := {}, [];
    for i := 0 to |alive|
      invariant log == Kills(alive[..i])
      invariant forall pid :: pid in killed <==> pid in os.takesKill && exists k :: 0 <= k < i && alive[k].pid == pid
    {
      log := log + [Kill(alive[i].pid)];
      if alive[i].pid in os.takesKill {
        killed := killed + {alive[i].pid};
      }
    }
    assert alive[..|alive|] == alive;
  }

  /** SIGTERM everything, one grace, SIGKILL what is left. `log` is every signal
      sent, in order, whether or not it was delivered. */
  method Ladder(box: Box, victims: seq<App>, os: Answers) returns (reported: seq<Victim>, log: seq<Signal>)
    ensures reported == Reports(box, os, Select(Takers(os), victims))
    ensures log == Ladders(os, victims)
  {
    var signalled, terms := TermAll(victims, os);
    var alive := Grace(signalled, os);
    SelectedApps(Survivors(os), signalled);
    var killed, kills := KillAll(alive, os);
    log := terms + kills;
    reported := seq(|signalled|, i requires 0 <= i < |signalled| =>
      Victim(signalled[i], Cgroup(box, signalled[i].pid), signalled[i].pid in killed));
    forall i | 0 <= i < |signalled|
      ensures reported[i] == Report(box, os, signalled[i])
    {
      KilledAreSurvivors(os, signalled, alive, i);
    }
  }

  lemma KilledAreSurvivors(os: Answers, signalled: seq<App>, alive: seq<App>, i: nat)
    requires i < |signalled| && forall app :: app in alive <==> app in signalled && Survives(os, app.pid)
    ensures (exists k :: 0 <= k < |alive| && alive[k].pid == signalled[i].pid) <==> Survives(os, signalled[i].pid)
  {
    if Survives(os, signalled[i].pid) {
      assert signalled[i] in alive;
      var k :| 0 <= k < |alive| && alive[k] == signalled[i];
    }
    if k :| 0 <= k < |alive| && alive[k].pid == signalled[i].pid {
      assert alive[k] in alive;
    }
  }

  // ---------------------------------------------------------------------
  // What the ladder promises
  // ---------------------------------------------------------------------

  /** Every SIGTERM comes before any SIGKILL. */
  lemma TermsComeFirst(os: Answers, victims: seq<App>, i: nat, j: nat)
    requires i < j < |Ladders(os, victims)| && Ladders(os, victims)[i].Kill?
    ensures Ladders(os, victims)[j].Kill?
  {
  }

  /** A SIGTERM is sent to exactly the victims, and a SIGKILL to exactly those
      of them that took it and were still there when the grace was over. */
  lemma SignalsAreExact(os: Answers, victims: seq<App>, pid: int)
    ensures Term(pid) in Ladders(os, victims) <==> exists app :: app in victims && app.pid == pid
    ensures Kill(pid) in Ladders(os, victims)
            <==> pid in os.takesTerm && Survives(os, pid) && exists app :: app in victims && app.pid == pid
  {
    var took := Select(Takers(os), victims);
    var left := Select(Survivors(os), took);
    SelectedApps(Takers(os), victims);
    SelectedApps(Survivors(os), took);
    InTerms(victims, pid);
    InKills(left, pid);
    assert Term(pid) in Ladders(os, victims) <==> Term(pid) in Terms(victims);
    assert Kill(pid) in Ladders(os, victims) <==> Kill(pid) in Kills(left);
  }

  lemma InTerms(apps: seq<App>, pid: int)
    ensures Term(pid) in Terms(apps) <==> exists app :: app in apps && app.pid == pid
    ensures Kill(pid) !in Terms(apps)
  {
    if app :| app in apps && app.pid == pid {
      var i :| 0 <= i < |apps| && apps[i] == app;
      assert Terms(apps)[i] == Term(pid);
    }
  }

  lemma InKills(apps: seq<App>, pid: int)
    ensures Kill(pid) in Kills(apps) <==> exists app :: app in apps && app.pid == pid
    ensures Term(pid) !in Kills(apps)
  {
    if app :| app in apps && app.pid == pid {
      var i :| 0 <= i < |apps| && apps[i] == app;
      assert Kills(apps)[i] == Kill(pid);
    }
  }

  /** Every directory that grants an attribution also grants the exemption, so
      what `attribute` owns is never the reason alone that a process is spared. */
  lemma ExemptionCoversAttribution(box: Box, records: seq<Record>, claims: seq<Record>, pid: int)
    requires box.procs.Valid()
    requires forall i :: 0 <= i < |records| ==> Holds(box, records[i]) && records[i] in claims
    ensures Ledgered(box, records, pid) ==> OneAccountsFor(box, claims, pid) || OneScopeCovers(box, claims, pid)
  {
    if Ledgered(box, records, pid) {
      var i :| 0 <= i < |records| && (InTree(box, records[i], pid) || InLiveScope(box, records[i], pid));
      assert records[i] in claims;
      var k :| 0 <= k < |claims| && claims[k] == records[i];
      if InTree(box, records[i], pid) {
        assert AccountsFor(box, claims[k], pid);
      } else {
        assert InLiveScope(box, claims[k], pid);
      }
    }
  }

  // ---------------------------------------------------------------------
  // One recovery pass
  // ---------------------------------------------------------------------

  /** `reap`, as far as it touches jobs and processes: abandoned jobs first,
      then the sweep, which spares the whole tree of every job then in running/. */
  method Reap(queue: QueueRoot, box: Box, self: Self, activeIds: set<string>,
              records: seq<Record>, claims: seq<Record>, apps: Option<seq<App>>, os: Answers)
    returns (killed: seq<Victim>, log: seq<Signal>, ghost steps: seq<Step>)
    requires Good(queue.files) && box.procs.Valid()
    modifies queue
    ensures Good(queue.files) && Leads(old(queue.files), steps, queue.files)
    ensures forall s :: s in steps ==> (s.Requeue? || s.Finish?) && s.spec.id !in activeIds
    ensures forall pid :: Term(pid) in log <==>
              && apps.Some? && (exists app :: app in apps.value && app.pid == pid)
              && !Spared(box, self, records, claims, {}, pid)
              && !InRunningTree(box, queue.files, pid)
    ensures forall pid :: Kill(pid) in log <==> Term(pid) in log && pid in os.takesTerm && Survives(os, pid)
    ensures forall i, j :: 0 <= i < j < |log| && log[i].Kill? ==> log[j].Kill?
    ensures forall v :: v in killed ==>
              && Term(v.app.pid) in log && v.app.pid in os.takesTerm
              && (v.sigkilled <==> Kill(v.app.pid) in log && v.app.pid in os.takesKill)
    ensures forall pid :: Term(pid) in log && pid in os.takesTerm ==> exists v :: v in killed && v.app.pid == pid
    ensures forall v :: v in killed ==>
              && apps.Some? && v.app in apps.value
              && v.cgroup == if v.app.pid in box.cgroup then Some(box.cgroup[v.app.pid]) else None
  {
    var _, _, s := RequeueOrphans(queue, box, activeIds);
    steps := s;
    killed, log := [], [];
    if apps.Some? {
      var protect := RunningTrees(box, queue);
      var victims := ChooseVictims(box, self, protect, records, claims, apps.value);
      killed, log := Ladder(box, victims, os);
      SelectedApps(Targets(box, self, records, claims, protect), apps.value);
      ReportsAreExact(box, os, victims, killed, log);
      ReportsTell(box, os, victims, killed);
    }
  }

  lemma ReportsTell(box: Box, os: Answers, victims: seq<App>, killed: seq<Victim>)
    requires killed == Reports(box, os, Select(Takers(os), victims))
    ensures forall v :: v in killed ==>
              && v.app in victims
              && v.cgroup == if v.app.pid in box.cgroup then Some(box.cgroup[v.app.pid]) else None
  {
    var took := Select(Takers(os), victims);
    SelectedApps(Takers(os), victims);
    forall v | v in killed
      ensures v.app in victims && v.cgroup == Cgroup(box, v.app.pid)
    {
      var i :| 0 <= i < |killed| && killed[i] == v;
      assert v == Report(box, os, took[i]) && took[i] in took;
    }
  }

  lemma ReportsAreExact(box: Box, os: Answers, victims: seq<App>, killed: seq<Victim>, log: seq<Signal>)
    requires killed == Reports(box, os, Select(Takers(os), victims)) && log == Ladders(os, victims)
    ensures forall pid :: Term(pid) in log <==> exists app :: app in victims && app.pid == pid
    ensures forall pid :: Kill(pid) in log <==> Term(pid) in log && pid in os.takesTerm && Survives(os, pid)
    ensures forall i, j :: 0 <= i < j < |log| && log[i].Kill? ==> log[j].Kill?
    ensures forall v :: v in killed ==>
              && Term(v.app.pid) in log && v.app.pid in os.takesTerm
              && (v.sigkilled <==> Kill(v.app.pid) in log && v.app.pid in os.takesKill)
    ensures forall pid :: Term(pid) in log && pid in os.takesTerm ==> exists v :: v in killed && v.app.pid == pid
  {
    var took := Select(Takers(os), victims);
    SelectedApps(Takers(os), victims);
    forall pid
      ensures Term(pid) in log <==> exists app :: app in victims && app.pid == pid
      ensures Kill(pid) in log <==> Term(pid) in log && pid in os.takesTerm && Survives(os, pid)
    {
      SignalsAreExact(os, victims, pid);
    }
    forall i, j | 0 <= i < j < |log| && log[i].Kill?
      ensures log[j].Kill?
    {
      TermsComeFirst(os, victims, i, j);
    }
    forall v | v in killed
      ensures Term(v.app.pid) in log && v.app.pid in os.takesTerm
      ensures v.sigkilled <==> Kill(v.app.pid) in log && v.app.pid in os.takesKill
    {
      var i :| 0 <= i < |killed| && killed[i] == v;
      assert v == Report(box, os, took[i]) && took[i] in took;
    }
    forall pid | Term(pid) in log && pid in os.takesTerm
      ensures exists v :: v in killed && v.app.pid == pid
    {
      var app :| app in victims && app.pid == pid;
      assert app in took;
      var i :| 0 <= i < |took| && took[i] == app;
      assert killed[i].app == app;
    }
  }
}
