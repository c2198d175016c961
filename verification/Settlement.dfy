/**
 What becomes of a job that stops running (src/gpuqueue/runner.py, `_settle`,
 `_hit_by_a_convicted_co_tenant`, `_describe_failure`, `shutdown`).
 */
module Settlement {
  import opened Base
  import opened Ledger
  import opened Queue
  import opened QueueRuns
  import opened AdmitPass
  import opened AdmitProofs
  import opened AdmitTheorems
  import opened Text
  import Watchdog

  /** How a process ended; `artifacts` says whether its artifacts could be collected. */
  datatype Result = Result(exitCode: int, timedOut: bool, oom: bool, artifacts: bool)

  /** A conviction as the reaper reports it, and whether the holder is off the card. */
  datatype Conviction = Conviction(owner: string, killed: bool)

  /** What the runner remembers of convictions. */
  datatype Memory = Memory(convicted: set<string>, last: Option<int>)

  /** What the reaper reports of a conviction by the watchdog. */
  function Reported(c: Watchdog.Conviction, killed: bool): Conviction {
    Conviction(c.record.owner, killed)
  }

  predicate AnyKilled(convictions: seq<Conviction>) {
    exists i :: 0 <= i < |convictions| && convictions[i].killed
  }

  const JOB_OWNER := "gpuq:"

  predicate Brands(c: Conviction, id: string) {
    c.owner == JOB_OWNER + id
  }

  /** The jobs among the convicted holders. */
  function Branded(convictions: seq<Conviction>): set<string> {
    set i | 0 <= i < |convictions| && StartsWith(convictions[i].owner, JOB_OWNER) :: convictions[i].owner[|JOB_OWNER|..]
  }

  function Noted(m: Memory, convictions: seq<Conviction>, now: int): Memory {
    Memory(m.convicted + Branded(convictions), if AnyKilled(convictions) then Some(now) else m.last)
  }

  /** Describing a failure uses the conviction up. */
  function Forgets(m: Memory, job: Job): Memory {
    if job.spec.error.None? then m.(convicted := m.convicted - {job.spec.id}) else m
  }

  datatype Fate = Retry | End(ok: bool, error: Option<Reason>)

  function ConvictionWindow(cfg: Config): nat {
    Watchdog.WATCHDOG_STRIKES * cfg.sweepInterval + 2 * cfg.pollInterval
  }

  predicate HitByCoTenant(cfg: Config, m: Memory, job: Job, r: Result, now: int) {
    if job.spec.id in m.convicted then false
    else if r.timedOut then false
    else if !r.oom then false
    else if m.last.None? then false
    else if job.spec.attempts >= MAX_ATTEMPTS then false
    else if m.last.value <= job.started then false
    else now - m.last.value <= ConvictionWindow(cfg)
  }

  function DescribeFailure(m: Memory, spec: Spec, r: Result): Reason {
    if spec.id in m.convicted then Convicted
    else if r.timedOut then TimedOut
    else if r.oom then OutOfMemory
    else ExitCode
  }

  function FateOf(cfg: Config, m: Memory, job: Job, r: Result, now: int): Fate {
    var clean := r.exitCode == 0 && !r.timedOut && job.spec.id !in m.convicted;
    if !clean && HitByCoTenant(cfg, m, job, r, now) then Retry
    else if clean && r.artifacts then End(true, job.spec.error)
    else if clean then End(false, Some(ArtifactsFailed))
    else if job.spec.error.None? then End(false, Some(DescribeFailure(m, job.spec, r)))
    else End(false, job.spec.error)
  }

  /** The spec written when the job is settled. */
  function SettledSpec(job: Job, r: Result, fate: Fate): Spec {
    var spec := job.spec.(pid := None, exitCode := Some(r.exitCode));
    if fate.End? then spec.(error := fate.error) else spec
  }

  function Settling(files: Files, spec: Spec, fate: Fate): Files {
    match fate
    case Retry => Requeued(files, spec)
    case End(ok, _) => Finished(files, spec, ok)
  }

  function RemovePath(records: seq<Record>, path: string): seq<Record> {
    if records == [] then []
    else (if records[0].path == path then [] else [records[0]]) + RemovePath(records[1..], path)
  }

  /** The job leaves `active` and, if it holds the card, gives it back. */
  function LetGo(w: World, id: string): World
    requires id in w.active
  {
    var claim := w.active[id].claim;
    w.(active := w.active - {id},
       own := if claim.Some? then RemovePath(w.own, claim.value) else w.own,
       released := if claim.Some? then w.released + [claim.value] else w.released)
  }

  function SettleOne(cfg: Config, m: Memory, w: World, id: string, r: Result, now: int): World
    requires id in w.active
  {
    var job := w.active[id];
    var fate := FateOf(cfg, m, job, r, now);
    LetGo(w, id).(files := Settling(w.files, SettledSpec(job, r, fate), fate))
  }

  /** Shutdown stops the job and leaves it in running/ with no pid, for the reaper. */
  function StopOne(w: World, id: string): World
    requires id in w.active
  {
    LetGo(w, id).(files := w.files[Path(Running, id) := w.active[id].spec.(pid := None)])
  }

  /** A job's end, and when the runner settled it. */
  datatype Ended = Ended(r: Result, at: int)

  /** Settling the jobs `ids`, in that order. */
  function SettleAll(cfg: Config, m: Memory, w: World, ids: seq<string>, ended: map<string, Ended>): World {
    if ids == [] then w
    else
      var v := SettleAll(cfg, m, w, ids[..|ids| - 1], ended);
      var id := ids[|ids| - 1];
      if id in v.active && id in ended then SettleOne(cfg, m, v, id, ended[id].r, ended[id].at) else v
  }

  // ---------------------------------------------------------------------
  // The verdict
  // ---------------------------------------------------------------------

  /** The retry excuses nothing but an out-of-memory failure: the job would
      otherwise have been described as out of memory, never as convicted or timed
      out; the conviction came while it ran, and not too long ago; and it had an
      attempt left. Every such job gets it. */
  lemma RetryExcusesOnlyMemory(cfg: Config, m: Memory, job: Job, r: Result, now: int)
    ensures FateOf(cfg, m, job, r, now).Retry?
            <==> && DescribeFailure(m, job.spec, r) == OutOfMemory && r.exitCode != 0
                 && job.spec.attempts < 1
                 && m.last.Some? && job.started < m.last.value && now <= m.last.value + ConvictionWindow(cfg)
  {
  }

  /** A job is done exactly when nothing at all went wrong; one that is failed says why. */
  lemma DoneMeansClean(cfg: Config, m: Memory, job: Job, r: Result, now: int)
    ensures var fate := FateOf(cfg, m, job, r, now);
            && ((fate.End? && fate.ok) <==> r == Result(0, false, r.oom, true) && job.spec.id !in m.convicted)
            && (fate.End? && !fate.ok ==> fate.error.Some?)
  {
  }

  /** A conviction outranks a clean exit, and every other account of the failure
      but one the spec already carries. */
  lemma ConvictionOutranks(cfg: Config, m: Memory, job: Job, r: Result, now: int)
    requires job.spec.id in m.convicted
    ensures FateOf(cfg, m, job, r, now) == End(false, Some(job.spec.error.GetOr(Convicted)))
  {
  }

  /** The jobs branded are those a conviction names as its owner. */
  lemma BrandedAreNamed(convictions: seq<Conviction>, id: string)
    ensures id in Branded(convictions) <==> exists i :: 0 <= i < |convictions| && Brands(convictions[i], id)
  {
    if i :| 0 <= i < |convictions| && Brands(convictions[i], id) {
      assert convictions[i].owner[|JOB_OWNER|..] == id;
    }
    if i :| 0 <= i < |convictions| && StartsWith(convictions[i].owner,
        JOB_OWNER) && convictions[i].owner[|JOB_OWNER|..] == id {
      assert Brands(convictions[i], id);
    }
  }

  /** What settling a job leaves: on its file, in the directory of the file, on
      the ledger and in the log of claims. */
  lemma SettledExactly(cfg: Config, m: Memory, w: World, id: string, r: Result, now: int)
    requires Tidy(w) && id in w.active
    ensures var v := SettleOne(cfg, m, w, id, r, now);
            var job := w.active[id];
            var spec := job.spec.(pid := None, exitCode := Some(r.exitCode));
            var convicted := id in m.convicted;
            var clean := r.exitCode == 0 && !r.timedOut && !convicted;
            var excused := && r.exitCode != 0 && !r.timedOut && !convicted && r.oom && spec.attempts < 1
                           && m.last.Some? && m.last.value > job.started
                           && now - m.last.value <= 2 * cfg.sweepInterval + 2 * cfg.pollInterval;
            var rest := w.files - {Path(Running, id)};
            var error := if clean then ArtifactsFailed
                         else if spec.error.Some? then spec.error.value
                         else if convicted then Convicted
                         else if r.timedOut then TimedOut
                         else if r.oom then OutOfMemory
                         else ExitCode;
            && v.files == (if excused then rest[Path(Pending, id) := spec.(attempts := spec.attempts + 1)]
                           else if clean && r.artifacts then rest[Path(Done, id) := spec]
                           else rest[Path(Failed, id) := spec.(error := Some(error))])
            && v.active == w.active - {id}
            && v.others == w.others && v.taken == w.taken
            && v.released == w.released + (if job.claim.Some? then [job.claim.value] else [])
            && forall q :: q in v.own <==> q in w.own && job.claim != Some(q.path)
  {
    hide RemovePath, Rename;
    if w.active[id].claim.Some? {
      RemovedExactly(w.own, w.active[id].claim.value);
    }
    var job := w.active[id];
    var fate := FateOf(cfg, m, job, r, now);
    var spec := SettledSpec(job, r, fate);
    assert spec.id == id && Path(Running, id) in w.files;
    RewrittenAndMoved(w.files, Path(Running, id), spec, Path(Done, id));
    RewrittenAndMoved(w.files, Path(Running, id), spec, Path(Failed, id));
    RewrittenAndMoved(w.files, Path(Running, id), Retried(spec), Path(Pending, id));
  }

  lemma RewrittenAndMoved(files: Files, a: Path, spec: Spec, b: Path)
    requires a != b
    ensures Rename(files[a := spec], a, b) == (files - {a})[b := spec]
  {
  }

  lemma {:induction false} RemovedExactly(records: seq<Record>, path: string)
    ensures forall q :: q in RemovePath(records, path) <==> q in records && q.path != path
  {
    if records != [] {
      RemovedExactly(records[1..], path);
      assert records == [records[0]] + records[1..];
    }
  }

  lemma SettleTouchesItsFiles(cfg: Config, m: Memory, w: World, id: string, r: Result, now: int, other: string)
    requires Tidy(w) && id in w.active && other != id
    ensures Agree(w.files, SettleOne(cfg, m, w, id, r, now).files, other)
  {
    hide SettleOne;
    SettledExactly(cfg, m, w, id, r, now);
  }

  /** The fate of a job does not depend on what else was settled before it. */
  lemma SettleLooksAtItsJob(cfg: Config, m: Memory, w: World, v: World, id: string, r: Result, now: int)
    requires Tidy(w) && Tidy(v) && id in w.active && id in v.active && w.active[id] == v.active[id]
    requires Agree(w.files, v.files, id)
    ensures Agree(SettleOne(cfg, m, w, id, r, now).files, SettleOne(cfg, m, v, id, r, now).files, id)
  {
    hide SettleOne, Tidy;
    SettledExactly(cfg, m, w, id, r, now);
    SettledExactly(cfg, m, v, id, r, now);
    forall state: State
      ensures SameFile(SettleOne(cfg, m, w, id, r, now).files, SettleOne(cfg, m, v, id, r, now).files, Path(state, id))
    {
      assert SameFile(w.files, v.files, Path(state, id));
    }
  }

  /** Each of several ended jobs is settled as if it were the only one, at its own time. */
  lemma {:induction false} EachIsSettled(cfg: Config, m: Memory, w: World, ids: seq<string>, ended: map<string, Ended>,
      id: string)
    requires InOrder(cfg, w) && forall i, j :: 0 <= i < j < |ids| ==> ids[i] != ids[j]
    requires forall i :: 0 <= i < |ids| ==> ids[i] in w.active && ids[i] in ended
    ensures var v := SettleAll(cfg, m, w, ids, ended);
            && InOrder(cfg, v)
            && (id in v.active <==> id in w.active && id !in ids)
            && (id in v.active ==> v.active[id] == w.active[id])
            && (if id in ids then Agree(SettleOne(cfg, m, w, id, ended[id].r, ended[id].at).files, v.files, id)
                else Agree(w.files, v.files, id))
  {
    hide SettleOne, SettleAll, Agree, InOrder;
    if ids == [] {
      NoneSettled(cfg, m, w, ended);
      AgreesWithItself(w.files, id);
    } else {
      var front, last := ids[..|ids| - 1], ids[|ids| - 1];
      assert ids == front + [last];
      EachIsSettled(cfg, m, w, front, ended, id);
      EachIsSettled(cfg, m, w, front, ended, last);
      var u := SettleAll(cfg, m, w, front, ended);
      LastIsSettled(cfg, m, w, ids, ended);
      SettleKeepsOrder(cfg, m, u, last, ended[last].r, ended[last].at);
      if id == last {
        SettleLooksAtItsJob(cfg, m, w, u, id, ended[id].r, ended[id].at);
      } else {
        SettleTouchesItsFiles(cfg, m, u, last, ended[last].r, ended[last].at, id);
        var before := if id in front then SettleOne(cfg, m, w, id, ended[id].r, ended[id].at).files else w.files;
        AgreesOn(before, u.files, SettleOne(cfg, m, u, last, ended[last].r, ended[last].at).files, id);
      }
    }
  }

  lemma NoneSettled(cfg: Config, m: Memory, w: World, ended: map<string, Ended>)
    ensures SettleAll(cfg, m, w, [], ended) == w
  {
  }

  lemma LastIsSettled(cfg: Config, m: Memory, w: World, ids: seq<string>, ended: map<string, Ended>)
    requires ids != [] && InOrder(cfg, w)
    requires InOrder(cfg, SettleAll(cfg, m, w, ids[..|ids| - 1], ended))
    requires ids[|ids| - 1] in SettleAll(cfg, m, w, ids[..|ids| - 1], ended).active && ids[|ids| - 1] in ended
    ensures var u := SettleAll(cfg, m, w, ids[..|ids| - 1], ended);
            var last := ids[|ids| - 1];
            && Tidy(w) && Tidy(u)
            && SettleAll(cfg, m, w, ids, ended) == SettleOne(cfg, m, u, last, ended[last].r, ended[last].at)
            && SettleAll(cfg, m, w, ids, ended).active == u.active - {last}
  {
  }

  lemma AgreesWithItself(files: Files, id: string)
    ensures Agree(files, files, id)
  {
  }

  lemma AgreesOn(a: Files, b: Files, c: Files, id: string)
    requires Agree(a, b, id) && Agree(b, c, id)
    ensures Agree(a, c, id)
  {
    forall state: State
      ensures SameFile(a, c, Path(state, id))
    {
      assert SameFile(a, b, Path(state, id)) && SameFile(b, c, Path(state, id));
    }
  }

  // ---------------------------------------------------------------------
  // Giving the card back
  // ---------------------------------------------------------------------

  lemma {:induction false} RemoveAbsent(records: seq<Record>, path: string)
    requires NotNamed(path, records)
    ensures RemovePath(records, path) == records
  {
    if records != [] {
      RemoveAbsent(records[1..], path);
    }
  }

  lemma {:induction false} RemoveIsWithout(records: seq<Record>, i: nat)
    requires DistinctPaths(records) && i < |records|
    ensures RemovePath(records, records[i].path) == Without(records, i)
  {
    if i == 0 {
      RemoveAbsent(records[1..], records[0].path);
    } else {
      assert records[1..][i - 1] == records[i];
      RemoveIsWithout(records[1..], i - 1);
      assert Without(records, i) == [records[0]] + Without(records[1..], i - 1);
    }
  }

  lemma PathsWithout(records: seq<Record>, i: nat)
    requires i < |records|
    ensures multiset(PathsOf(records)) == multiset(PathsOf(Without(records, i))) + multiset{records[i].path}
  {
    var paths := PathsOf(records);
    assert paths == paths[..i] + ([paths[i]] + paths[i + 1..]);
    assert PathsOf(Without(records, i)) == paths[..i] + paths[i + 1..];
  }

  lemma DistinctWithout(records: seq<Record>, i: nat)
    requires DistinctPaths(records) && i < |records|
    ensures DistinctPaths(Without(records, i))
    ensures NotNamed(records[i].path, Without(records, i))
    ensures forall r :: r in Without(records, i) ==> r in records
    ensures forall k :: 0 <= k < |records| && k != i ==> records[k] in Without(records, i)
  {
    var rest := Without(records, i);
    forall k | 0 <= k < |rest|
      ensures rest[k] == records[if k < i then k else k + 1]
    {
    }
    forall k | 0 <= k < |records| && k != i
      ensures records[k] in rest
    {
      assert rest[if k < i then k else k - 1] == records[k];
    }
  }

  lemma JobsStay(cfg: Config, own: seq<Record>, rest: seq<Record>, active: map<string, Job>, id: string)
    requires AllHaveJobs(cfg, own, active) && id in active
    requires forall r :: r in rest ==> r in own && active[id].claim != Some(r.path)
    ensures AllHaveJobs(cfg, rest, active - {id})
  {
    forall k | 0 <= k < |rest|
      ensures HasJob(cfg, rest[k], active - {id})
    {
      assert rest[k] in rest;
      var i :| 0 <= i < |own| && own[i] == rest[k];
      assert HasJob(cfg, own[i], active);
      var a :| a in active && Backs(cfg, own[i], active[a]);
      assert a in active - {id} && (active - {id})[a] == active[a];
    }
  }

  lemma RecordsStay(cfg: Config, own: seq<Record>, rest: seq<Record>, active: map<string, Job>, id: string)
    requires AllHold(cfg, active, own) && ClaimsDiffer(active) && id in active
    requires forall k :: 0 <= k < |own| && active[id].claim != Some(own[k].path) ==> own[k] in rest
    ensures AllHold(cfg, active - {id}, rest)
  {
    forall a | a in active - {id}
      ensures Holds(cfg, (active - {id})[a], rest)
    {
      assert Holds(cfg, active[a], own);
      if active[a].spec.lane.Gpu? {
        var k :| 0 <= k < |own| && Backs(cfg, own[k], active[a]);
        assert own[k] in rest;
        var l :| 0 <= l < |rest| && rest[l] == own[k];
        assert Backs(cfg, rest[l], active[a]);
      }
    }
  }

  /** The record a claim names, and the ledger without it. */
  lemma ClaimedRecord(cfg: Config, w: World, id: string) returns (i: nat)
    requires Linked(cfg, w) && id in w.active && w.active[id].claim.Some?
    ensures i < |w.own| && w.active[id].claim == Some(w.own[i].path)
    ensures LetGo(w, id).own == Without(w.own, i)
  {
    var job := w.active[id];
    assert Holds(cfg, job, w.own);
    i :| 0 <= i < |w.own| && Backs(cfg, w.own[i], job);
    RemoveIsWithout(w.own, i);
  }

  /** A claim without a record does not occur: only the job's own record goes. */
  lemma LetGoKeepsLinked(cfg: Config, w: World, id: string)
    requires Linked(cfg, w) && id in w.active
    ensures Linked(cfg, LetGo(w, id))
  {
    if w.active[id].claim.Some? {
      var i := ClaimedRecord(cfg, w, id);
      var rest := Without(w.own, i);
      DistinctWithout(w.own, i);
      JobsStay(cfg, w.own, rest, w.active, id);
      RecordsStay(cfg, w.own, rest, w.active, id);
    } else {
      JobsStay(cfg, w.own, w.own, w.active, id);
      RecordsStay(cfg, w.own, w.own, w.active, id);
    }
  }

  lemma LetGoKeepsBalance(cfg: Config, w: World, id: string)
    requires Linked(cfg, w) && Balanced(w) && id in w.active
    ensures Balanced(LetGo(w, id))
  {
    if w.active[id].claim.Some? {
      var i := ClaimedRecord(cfg, w, id);
      PathsWithout(w.own, i);
    }
  }

  lemma LetGoKeepsSlots(cfg: Config, w: World, id: string)
    requires WithinSlots(cfg, w) && id in w.active
    ensures WithinSlots(cfg, LetGo(w, id))
  {
    SlotsAreCounted(cfg, w.active);
    SlotsAreCounted(cfg, LetGo(w, id).active);
    forall lane: Lane
      ensures Capacity(cfg, LetGo(w, id).active, lane) >= Capacity(cfg, w.active, lane)
    {
      SubsetIsSmaller(LaneIds(LetGo(w, id).active, lane), LaneIds(w.active, lane));
    }
  }

  lemma GoneJobKeepsTidy(w: World, v: World, id: string)
    requires Tidy(w) && id in w.active && v.active == w.active - {id}
    requires Good(v.files) && OnlyFilesOf(w.files, v.files, id)
    ensures Tidy(v)
  {
  }

  /** The queue step that settling a job is. */
  function SettleStep(cfg: Config, m: Memory, job: Job, r: Result, now: int): Step {
    var fate := FateOf(cfg, m, job, r, now);
    var spec := SettledSpec(job, r, fate);
    match fate
    case Retry => Requeue(spec)
    case End(ok, _) => Step.Finish(spec, ok)
  }

  /** Settling is one step of the queue, and a retry is one the attempt limit allows. */
  lemma SettleIsAStep(cfg: Config, m: Memory, w: World, id: string, r: Result, now: int)
    requires Tidy(w) && id in w.active
    ensures var s := SettleStep(cfg, m, w.active[id], r, now);
            && Enabled(w.files, s)
            && SettleOne(cfg, m, w, id, r, now).files == Apply(w.files, s)
  {
    var job := w.active[id];
    if FateOf(cfg, m, job, r, now).Retry? {
      RetryExcusesOnlyMemory(cfg, m, job, r, now);
    }
  }

  lemma StepOnRunning(files: Files, s: Step, spec: Spec)
    requires Good(files) && Enabled(files, s)
    requires s == Requeue(spec) || s == Step.Finish(spec, true) || s == Step.Finish(spec, false) || s == Update(spec)
    ensures Good(Apply(files, s)) && OnlyFilesOf(files, Apply(files, s), spec.id)
  {
    StepMovesOneJob(files, s, spec.id);
  }

  /** Settling a job keeps the books: its record goes with it, and no other's. */
  lemma SettleKeepsOrder(cfg: Config, m: Memory, w: World, id: string, r: Result, now: int)
    requires InOrder(cfg, w) && id in w.active
    ensures InOrder(cfg, SettleOne(cfg, m, w, id, r, now))
  {
    var v := SettleOne(cfg, m, w, id, r, now);
    var s := SettleStep(cfg, m, w.active[id], r, now);
    SettleIsAStep(cfg, m, w, id, r, now);
    StepOnRunning(w.files, s, s.spec);
    GoneJobKeepsTidy(w, v, id);
    LetGoKeepsLinked(cfg, w, id);
    LetGoKeepsBalance(cfg, w, id);
    LetGoKeepsSlots(cfg, w, id);
  }

  function StopStep(job: Job): Step {
    Update(job.spec.(pid := None))
  }

  lemma StopIsAStep(w: World, id: string)
    requires Tidy(w) && id in w.active
    ensures Enabled(w.files, StopStep(w.active[id]))
    ensures StopOne(w, id).files == Apply(w.files, StopStep(w.active[id]))
  {
  }

  lemma StopKeepsOrder(cfg: Config, w: World, id: string)
    requires InOrder(cfg, w) && id in w.active
    ensures InOrder(cfg, StopOne(w, id))
  {
    var s := StopStep(w.active[id]);
    StopIsAStep(w, id);
    StepOnRunning(w.files, s, s.spec);
    GoneJobKeepsTidy(w, StopOne(w, id), id);
    LetGoKeepsLinked(cfg, w, id);
    LetGoKeepsBalance(cfg, w, id);
    LetGoKeepsSlots(cfg, w, id);
  }
}
