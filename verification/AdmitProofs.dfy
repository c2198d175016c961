/** What every turn of the admission pass keeps, and what a whole pass achieves. */
module AdmitProofs {
  import opened Base
  import opened Ledger
  import opened Queue
  import opened QueueRuns
  import opened AdmitPass

  // ---------------------------------------------------------------------
  // One turn: files
  // ---------------------------------------------------------------------

  /** Only the files of `id` may differ, and if they do the job has left pending/. */
  ghost predicate OnlyJob(files: Files, after: Files, id: string) {
    && OnlyFilesOf(files, after, id)
    && (Path(Pending, id) in after ==> after == files)
  }

  lemma LeavesPending(files: Files, id: string, spec: Spec, state: State)
    requires Good(files) && Path(Pending, id) in files && spec.id == id && state != Pending
    ensures var after := Rename(files[Path(Pending, id) := spec], Path(Pending, id), Path(state, id));
            && Good(after) && OnlyJob(files, after, id)
            && Path(state, id) in after && after[Path(state, id)] == spec
            && Path(Pending, id) !in after
  {
    MoveKeepsGood(files, Path(Pending, id), Path(state, id), spec, id);
  }

  lemma FailPendingIsOneMove(files: Files, id: string, reason: Reason)
    requires Good(files)
    ensures Good(FailPending(files, id, reason)) && OnlyJob(files, FailPending(files, id, reason), id)
    ensures Path(Pending, id) !in FailPending(files, id, reason)
  {
    var src := Path(Pending, id);
    if src in files {
      var spec := FailedSpec(files[src], reason);
      LeavesPending(files, id, spec, Failed);
      assert FailPending(files, id, reason) == Rename(files[src := spec], src, Path(Failed, id));
    }
  }

  lemma CancellingIsOneMove(files: Files, id: string)
    requires Good(files)
    ensures Good(Cancelling(files, id)) && OnlyJob(files, Cancelling(files, id), id)
    ensures Path(Pending, id) !in Cancelling(files, id)
  {
    var src := Path(Pending, id);
    if src in files {
      LeavesPending(files, id, files[src].(error := Some(Cancelled)), Failed);
    }
  }

  lemma StartIsOneMove(files: Files, id: string, run: Spec)
    requires Good(files) && Path(Pending, id) in files && run.id == id
    ensures var after := Claimed(files, id)[Path(Running, id) := run];
            && Good(after) && OnlyJob(files, after, id)
            && Path(Pending, id) !in after && Path(Running, id) in after && after[Path(Running, id)] == run
  {
    LeavesPending(files, id, run, Running);
    var src := Path(Pending, id);
    assert Claimed(files, id)[Path(Running, id) := run] == Rename(files[src := run], src, Path(Running, id));
  }

  // ---------------------------------------------------------------------
  // One turn: the runner's books
  // ---------------------------------------------------------------------

  /** Each job is in one directory, and each active job is the one in running/. */
  ghost predicate Tidy(w: World) {
    && Good(w.files)
    && forall id :: id in w.active ==>
         w.active[id].spec.id == id && Path(Running, id) in w.files && w.files[Path(Running, id)] == w.active[id].spec
  }

  /** The record by which a job holds the card. */
  predicate Backs(cfg: Config, r: Record, j: Job) {
    && j.claim == Some(r.path)
    && r.pid == cfg.runnerPid && r.usagePid == Some(j.pid)
    && r.vramMb == (if j.spec.vram.Mb? then Some(j.spec.vram.n) else None)
    && r.owner == "gpuq:" + j.spec.id
    && r.scopePid.None? && r.scopeCgroup.None?
  }

  ghost predicate HasJob(cfg: Config, r: Record, active: map<string, Job>) {
    exists id :: id in active && Backs(cfg, r, active[id])
  }

  ghost predicate HasRecord(cfg: Config, j: Job, own: seq<Record>) {
    exists i :: 0 <= i < |own| && Backs(cfg, own[i], j)
  }

  ghost predicate ClaimsDiffer(active: map<string, Job>) {
    forall a, b :: a in active && b in active && a != b && active[a].claim.Some? ==> active[a].claim != active[b].claim
  }

  /** The runner's records and its active GPU jobs are in one-to-one
      correspondence, and each record is charged to its job's process. */
  ghost predicate Linked(cfg: Config, w: World) {
    && DistinctPaths(w.own)
    && AllHaveJobs(cfg, w.own, w.active)
    && AllHold(cfg, w.active, w.own)
    && ClaimsDiffer(w.active)
  }

  ghost predicate AllHold(cfg: Config, active: map<string, Job>, own: seq<Record>) {
    forall id :: id in active ==> Holds(cfg, active[id], own)
  }

  ghost predicate AllHaveJobs(cfg: Config, own: seq<Record>, active: map<string, Job>) {
    forall i :: 0 <= i < |own| ==> HasJob(cfg, own[i], active)
  }

  /** A GPU job has its record, a CPU job has no claim. */
  ghost predicate Holds(cfg: Config, j: Job, own: seq<Record>) {
    if j.spec.lane.Gpu? then HasRecord(cfg, j, own) else j.claim.None?
  }

  function PathsOf(records: seq<Record>): seq<string> {
    seq(|records|, i requires 0 <= i < |records| => records[i].path)
  }

  /** Every claim entered is different, and is still held or was exited, once. */
  ghost predicate Balanced(w: World) {
    && multiset(w.taken) == multiset(PathsOf(w.own)) + multiset(w.released)
    && forall path :: multiset(w.taken)[path] <= 1
  }

  lemma NewTokenIsNotNamed(w: World, token: string)
    requires Balanced(w) && token !in w.taken
    ensures NotNamed(token, w.own)
  {
    forall i | 0 <= i < |w.own|
      ensures w.own[i].path != token
    {
      assert PathsOf(w.own)[i] == w.own[i].path;
      assert w.own[i].path in multiset(w.taken);
    }
  }

  /** What holds between any two phases of a tick. */
  ghost predicate InOrder(cfg: Config, w: World) {
    Tidy(w) && Linked(cfg, w) && Balanced(w) && WithinSlots(cfg, w)
  }

  /** Nothing the pass started or found is lost before the pass ends. */
  ghost predicate Grows(w: World, v: World) {
    && w.others <= v.others && w.own <= v.own
    && forall lane :: LaneIds(w.active, lane) <= LaneIds(v.active, lane)
  }

  lemma PathsOfSnoc(records: seq<Record>, r: Record)
    ensures multiset(PathsOf(records + [r])) == multiset(PathsOf(records)) + multiset{r.path}
  {
    assert PathsOf(records + [r]) == PathsOf(records) + [r.path];
  }

  lemma NewJobJoinsItsLane(active: map<string, Job>, id: string, job: Job, lane: Lane)
    requires id !in active
    ensures LaneIds(active[id := job], lane) == LaneIds(active, lane) + (if job.spec.lane == lane then {id} else {})
  {
  }

  lemma NewJobUsesOneSlot(active: map<string, Job>, id: string, job: Job, lane: Lane)
    requires id !in active
    ensures |LaneIds(active[id := job], lane)| == |LaneIds(active, lane)| + (if job.spec.lane == lane then 1 else 0)
  {
    NewJobJoinsItsLane(active, id, job, lane);
    assert id !in LaneIds(active, lane);
  }

  /** The pending job at hand, if it is still there, is the one listed. */
  ghost predicate AsListed(files: Files, spec: Spec) {
    Path(Pending, spec.id) in files ==> files[Path(Pending, spec.id)] == spec
  }

  lemma JobsOutlive(cfg: Config, own: seq<Record>, active: map<string, Job>, id: string, job: Job)
    requires id !in active && AllHaveJobs(cfg, own, active)
    ensures AllHaveJobs(cfg, own, active[id := job])
  {
    forall i | 0 <= i < |own|
      ensures HasJob(cfg, own[i], active[id := job])
    {
      assert HasJob(cfg, own[i], active);
      var a :| a in active && Backs(cfg, own[i], active[a]);
      assert active[id := job][a] == active[a];
    }
  }

  lemma RecordsOutlive(cfg: Config, active: map<string, Job>, own: seq<Record>, record: Record)
    requires AllHold(cfg, active, own)
    ensures AllHold(cfg, active, own + [record])
  {
    forall a | a in active
      ensures Holds(cfg, active[a], own + [record])
    {
      if active[a].spec.lane.Gpu? {
        assert Holds(cfg, active[a], own);
        var i :| 0 <= i < |own| && Backs(cfg, own[i], active[a]);
        assert (own + [record])[i] == own[i];
      }
    }
  }

  /** The claim of a job that holds the card names one of the records. */
  lemma ClaimIsNamed(cfg: Config, j: Job, own: seq<Record>, token: string)
    requires Holds(cfg, j, own) && NotNamed(token, own)
    ensures j.claim != Some(token)
  {
  }

  lemma StartKeepsLinked(cfg: Config, own: seq<Record>, active: map<string, Job>, id: string, job: Job, record: Record)
    requires DistinctPaths(own) && AllHaveJobs(cfg, own, active) && AllHold(cfg, active, own) && ClaimsDiffer(active)
    requires id !in active && NotNamed(record.path, own)
    requires job.spec.lane.Gpu? && Backs(cfg, record, job)
    ensures var all, more := own + [record], active[id := job];
            DistinctPaths(all) && AllHaveJobs(cfg, all, more) && AllHold(cfg, more, all) && ClaimsDiffer(more)
  {
    var all, more := own + [record], active[id := job];
    JobsOutlive(cfg, own, active, id, job);
    RecordsOutlive(cfg, active, own, record);
    assert HasJob(cfg, record, more) by {
      assert more[id] == job;
    }
    assert HasRecord(cfg, job, all) by {
      assert all[|own|] == record;
    }
    forall a | a in active
      ensures active[a].claim != job.claim
    {
      assert Holds(cfg, active[a], own);
      ClaimIsNamed(cfg, active[a], own, record.path);
    }
    forall a | a in more
      ensures Holds(cfg, more[a], all)
    {
      if a != id {
        assert more[a] == active[a];
      }
    }
  }

  lemma CpuStartKeepsHeld(cfg: Config, own: seq<Record>, active: map<string, Job>, id: string, job: Job)
    requires AllHold(cfg, active, own) && ClaimsDiffer(active)
    requires id !in active && job.spec.lane.Cpu? && job.claim.None?
    ensures AllHold(cfg, active[id := job], own) && ClaimsDiffer(active[id := job])
  {
  }

  lemma LaunchKeepsLinked(cfg: Config, w: World, spec: Spec, e: Luck)
    requires Linked(cfg, w) && spec.id !in w.active && NotNamed(e.token, w.own)
    requires Path(Pending, spec.id) in w.files && AsListed(w.files, spec)
    ensures Linked(cfg, Launched(cfg, w, spec, e))
  {
    var job := StartedJob(cfg, spec, e);
    var record := ClaimRecord(cfg, spec, e).(usagePid := Some(e.pid));
    hide AllHold, AllHaveJobs, ClaimsDiffer, DistinctPaths;
    if spec.lane.Gpu? {
      StartKeepsLinked(cfg, w.own, w.active, spec.id, job, record);
    } else {
      CpuStartKeepsHeld(cfg, w.own, w.active, spec.id, job);
      JobsOutlive(cfg, w.own, w.active, spec.id, job);
    }
  }

  lemma LaunchKeepsTidy(cfg: Config, w: World, spec: Spec, e: Luck)
    requires Tidy(w)
    requires Path(Pending, spec.id) in w.files && AsListed(w.files, spec)
    ensures Tidy(Launched(cfg, w, spec, e)) && spec.id !in w.active
    ensures OnlyJob(w.files, Launched(cfg, w, spec, e).files, spec.id)
    ensures Path(Pending, spec.id) !in Launched(cfg, w, spec, e).files
  {
    StartIsOneMove(w.files, spec.id, StartedSpec(cfg, spec, e));
    assert spec.id !in w.active;
  }

  lemma LaunchKeepsBalance(cfg: Config, w: World, spec: Spec, e: Luck)
    requires Balanced(w) && Path(Pending, spec.id) in w.files && e.token !in w.taken
    ensures Balanced(Launched(cfg, w, spec, e))
  {
    PathsOfSnoc(w.own, ClaimRecord(cfg, spec, e).(usagePid := Some(e.pid)));
    assert w.taken + [] == w.taken;
  }

  lemma LaunchUsesOneSlot(cfg: Config, w: World, spec: Spec, e: Luck)
    requires spec.id !in w.active && Path(Pending, spec.id) in w.files && AsListed(w.files, spec)
    requires WithinSlots(cfg, w) && Capacity(cfg, w.active, spec.lane) > 0
    ensures WithinSlots(cfg, Launched(cfg, w, spec, e))
    ensures Grows(w, Launched(cfg, w, spec, e))
  {
    var job := StartedJob(cfg, spec, e);
    SlotsAreCounted(cfg, w.active);
    SlotsAreCounted(cfg, w.active[spec.id := job]);
    NewJobUsesOneSlot(w.active, spec.id, job, Cpu);
    NewJobUsesOneSlot(w.active, spec.id, job, Gpu);
    forall lane
      ensures LaneIds(w.active, lane) <= LaneIds(w.active[spec.id := job], lane)
    {
      NewJobJoinsItsLane(w.active, spec.id, job, lane);
    }
  }

  lemma BeginStarts(cfg: Config, w: World, spec: Spec, e: Luck)
    requires InOrder(cfg, w) && Capacity(cfg, w.active, spec.lane) > 0
    requires Path(Pending, spec.id) in w.files && AsListed(w.files, spec) && e.token !in w.taken
    ensures InOrder(cfg, Launched(cfg, w, spec, e))
    ensures OnlyJob(w.files, Launched(cfg, w, spec, e).files, spec.id)
    ensures Grows(w, Launched(cfg, w, spec, e))
    ensures Path(Pending, spec.id) !in Launched(cfg, w, spec, e).files
  {
    NewTokenIsNotNamed(w, e.token);
    LaunchKeepsTidy(cfg, w, spec, e);
    LaunchKeepsLinked(cfg, w, spec, e);
    LaunchKeepsBalance(cfg, w, spec, e);
    LaunchUsesOneSlot(cfg, w, spec, e);
  }

  lemma BeginFails(cfg: Config, w: World, spec: Spec, e: Luck)
    requires InOrder(cfg, w) && e.token !in w.taken
    ensures InOrder(cfg, GivenBack(w, spec, e))
    ensures OnlyJob(w.files, GivenBack(w, spec, e).files, spec.id)
    ensures Grows(w, GivenBack(w, spec, e))
    ensures Path(Pending, spec.id) !in GivenBack(w, spec, e).files
  {
    FailPendingIsOneMove(w.files, spec.id, if e.checksOut then StartFailed else CheckoutFailed);
    FilesKeepTidy(w, GivenBack(w, spec, e), spec.id);
    assert multiset(w.taken + Tokens(spec, e)) == multiset(w.taken) + multiset(Tokens(spec, e));
  }

  lemma FilesKeepTidy(w: World, v: World, id: string)
    requires Tidy(w) && v.active == w.active && Good(v.files) && OnlyJob(w.files, v.files, id)
    requires v.files != w.files ==> Path(Pending, id) in w.files
    ensures Tidy(v)
  {
    if v.files != w.files {
      assert id !in w.active;
    }
  }

  lemma CarryKeepsOrder(cfg: Config, m: Pass, spec: Spec, e: Luck, v: Verdict)
    requires InOrder(cfg, m.world) && AsListed(m.world.files, spec) && e.token !in m.world.taken
    requires v.Try? ==> Capacity(cfg, m.world.active, spec.lane) > 0
    ensures var q := Carry(cfg, m, spec, e, v);
            && InOrder(cfg, q.world)
            && OnlyJob(m.world.files, q.world.files, spec.id)
            && Grows(m.world, q.world)
            && q.world.others == m.world.others
            && (v.Try? || v.Fail? ==> Path(Pending, spec.id) !in q.world.files)
  {
    match v {
      case Try =>
        if Starts(m.world, spec, e) {
          BeginStarts(cfg, m.world, spec, e);
        } else {
          BeginFails(cfg, m.world, spec, e);
        }
      case Fail(reason) =>
        FailPendingIsOneMove(m.world.files, spec.id, reason);
        FilesKeepTidy(m.world, Carry(cfg, m, spec, e, v).world, spec.id);
      case _ =>
    }
  }

  lemma MovedKeepsOrder(cfg: Config, p: Pass, spec: Spec, e: Luck)
    requires InOrder(cfg, p.world) && AsListed(p.world.files, spec)
    ensures var m := Moved(p, spec, e);
            && InOrder(cfg, m.world) && AsListed(m.world.files, spec)
            && OnlyJob(p.world.files, m.world.files, spec.id)
  {
    CancellingIsOneMove(p.world.files, spec.id);
    FilesKeepTidy(p.world, Moved(p, spec, e).world, spec.id);
  }

  /** One turn of the loop keeps the books, touches only its own job's files,
      and takes nothing back that an earlier turn started. */
  lemma TurnKeepsOrder(cfg: Config, card: CardState, strikes: nat, shortcut: bool, p: Pass, spec: Spec, e: Luck)
    requires InOrder(cfg, p.world) && AsListed(p.world.files, spec) && e.token !in p.world.taken
    ensures var q := Consider(cfg, card, strikes, shortcut, p, spec, e);
            && InOrder(cfg, q.world)
            && OnlyJob(p.world.files, q.world.files, spec.id)
            && q.world.others == e.others
            && (p.world.others <= e.others ==> Grows(p.world, q.world))
  {
    hide Carry, InOrder, Cancelling;
    var m := Moved(p, spec, e);
    MovedKeepsOrder(cfg, p, spec, e);
    CarryKeepsOrder(cfg, m, spec, e, Decide(cfg, card, strikes, shortcut, m, spec, e));
  }
}
