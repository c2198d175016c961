/**
 Whole lives of a runner (src/gpuqueue/runner.py, `tick`, `shutdown`): any
 sequence of admission passes, noted convictions, settlements and stops, with
 everybody else's steps in between; and any number of such lives one after the
 other. A runner may crash between any two of these, and between two jobs of a
 pass: that is a life, or a pass, that ends early.
 */
module RunnerRuns {
  import opened Base
  import opened Ledger
  import opened Queue
  import opened QueueRuns
  import opened AdmitPass
  import opened AdmitProofs
  import opened AdmitTheorems
  import opened AdmitOutcomes
  import opened CardStrikes
  import opened Settlement

  /** What a runner has: its view of the world, its strikes, its convictions. */
  datatype Life = Life(w: World, strikes: nat, m: Memory)

  datatype Event =
    | Admission(answer: CardState, pending: seq<Spec>, env: seq<Luck>)
    | Notice(convictions: seq<Conviction>, at: int)
    | Settled(id: string, r: Result, now: int)
    | Stopped(id: string)
    | Outside(others: seq<Record>, step: Step)

  function Start(w: World): Pass {
    AdmitPass.Pass(w, [], false, false)
  }

  /** Nobody else writes the file of an active job: the reaper skips
      `active_ids`, and clients only submit and cancel. */
  predicate KeepsOff(step: Step, active: map<string, Job>) {
    match step
    case Update(spec) => spec.id !in active
    case Finish(spec, _) => spec.id !in active
    case Requeue(spec) => spec.id !in active
    case _ => true
  }

  ghost predicate Possible(cfg: Config, s: Life, e: Event) {
    match e
    case Admission(_, pending, env) => |pending| == |env| && Setting(cfg, Start(s.w), pending, env)
    case Notice(_, _) => true
    case Settled(id, _, _) => id in s.w.active
    case Stopped(id) => id in s.w.active
    case Outside(_, step) => Enabled(s.w.files, step) && KeepsOff(step, s.w.active)
  }

  ghost function After(cfg: Config, s: Life, e: Event): Life
    requires Possible(cfg, s, e)
  {
    match e
    case Admission(answer, pending, env) =>
      var card := LookUp(cfg, s.w.active, pending, answer);
      var strikes := NextStrikes(s.strikes, card);
      Life(RunPass(cfg, card, strikes, true, Start(s.w), pending, env).world, strikes, s.m)
    case Notice(convictions, at) => s.(m := Noted(s.m, convictions, at))
    case Settled(id, r, now) => s.(w := SettleOne(cfg, s.m, s.w, id, r, now), m := Forgets(s.m, s.w.active[id]))
    case Stopped(id) => s.(w := StopOne(s.w, id))
    case Outside(others, step) => s.(w := s.w.(others := others, files := Apply(s.w.files, step)))
  }

  ghost predicate IsLife(cfg: Config, s: Life, events: seq<Event>)
    decreases |events|
  {
    events == [] || (Possible(cfg, s, events[0]) && IsLife(cfg, After(cfg, s, events[0]), events[1..]))
  }

  ghost function EndOf(cfg: Config, s: Life, events: seq<Event>): Life
    requires IsLife(cfg, s, events)
    decreases |events|
  {
    if events == [] then s else EndOf(cfg, After(cfg, s, events[0]), events[1..])
  }

  /** A runner that has just started on these files. */
  function Fresh(others: seq<Record>, files: Files): Life {
    Life(World(others, [], map[], files, [], []), 0, Memory({}, None))
  }

  // ---------------------------------------------------------------------
  // The books
  // ---------------------------------------------------------------------

  /** A runner that has just started, whatever an earlier one left in the queue. */
  lemma FreshRunnerIsInOrder(cfg: Config, others: seq<Record>, files: Files)
    requires Good(files)
    ensures InOrder(cfg, Fresh(others, files).w)
  {
    var none: map<string, Job> := map[];
    assert LaneIds(none, Cpu) == {} && LaneIds(none, Gpu) == {};
    assert PathsOf([]) == [];
  }

  /** A step that keeps off the active jobs leaves the runner's view of them intact. */
  lemma OutsideKeepsTidy(w: World, step: Step, others: seq<Record>)
    requires Tidy(w) && Enabled(w.files, step) && KeepsOff(step, w.active)
    ensures Tidy(w.(others := others, files := Apply(w.files, step)))
  {
    var after := Apply(w.files, step);
    forall id | id in w.active
      ensures Path(Running, id) in after && after[Path(Running, id)] == w.files[Path(Running, id)]
    {
      OutsideKeepsFile(w.files, step, id, w.active);
    }
    StepMovesOneJob(w.files, step, "");
  }

  lemma OutsideKeepsFile(files: Files, step: Step, id: string, active: map<string, Job>)
    requires Good(files) && Enabled(files, step) && KeepsOff(step, active)
    requires id in active && Path(Running, id) in files
    ensures Path(Running, id) in Apply(files, step)
    ensures Apply(files, step)[Path(Running, id)] == files[Path(Running, id)]
  {
    hide Apply, IsFree;
    assert Path(Pending, id) !in files;
    StepExactly(files, step);
    assert SameFile(files, Apply(files, step), Path(Running, id));
  }

  lemma EventKeepsOrder(cfg: Config, s: Life, e: Event)
    requires InOrder(cfg, s.w) && Possible(cfg, s, e)
    ensures InOrder(cfg, After(cfg, s, e).w)
  {
    match e {
      case Admission(answer, pending, env) =>
        var card := LookUp(cfg, s.w.active, pending, answer);
        PassKeepsOrder(cfg, card, NextStrikes(s.strikes, card), true, Start(s.w), pending, env);
      case Notice(_, _) =>
      case Settled(id, r, now) => SettleKeepsOrder(cfg, s.m, s.w, id, r, now);
      case Stopped(id) => StopKeepsOrder(cfg, s.w, id);
      case Outside(others, step) => OutsideKeepsTidy(s.w, step, others);
    }
  }

  /** At every moment of a runner's life its records and its active GPU jobs
      are in one-to-one correspondence, every claim it entered is held or was
      exited once, and its lanes are within their slots. */
  lemma {:induction false} LifeKeepsOrder(cfg: Config, s: Life, events: seq<Event>)
    requires InOrder(cfg, s.w) && IsLife(cfg, s, events)
    ensures InOrder(cfg, EndOf(cfg, s, events).w)
    decreases |events|
  {
    if events != [] {
      EventKeepsOrder(cfg, s, events[0]);
      LifeKeepsOrder(cfg, After(cfg, s, events[0]), events[1..]);
    }
  }

  lemma EachRecordHasAJob(cfg: Config, own: seq<Record>, active: map<string, Job>)
    requires AllHaveJobs(cfg, own, active)
    ensures own == [] || exists id :: id in active
  {
    if own != [] {
      assert HasJob(cfg, own[0], active);
      var id :| id in active && Backs(cfg, own[0], active[id]);
    }
  }

  /** Once no job is active nothing is held, and every claim ever entered was
      exited exactly once. */
  lemma IdleRunnerHoldsNothing(cfg: Config, w: World, token: string)
    requires InOrder(cfg, w) && w.active == map[]
    ensures w.own == []
    ensures multiset(w.released)[token] == if token in w.taken then 1 else 0
  {
    EachRecordHasAJob(cfg, w.own, w.active);
    assert PathsOf(w.own) == [];
    assert token in w.taken <==> token in multiset(w.taken);
  }

  // ---------------------------------------------------------------------
  // A runner's life is a run of the queue
  // ---------------------------------------------------------------------

  function FailSteps(files: Files, id: string, reason: Reason): seq<Step> {
    if Path(Pending, id) in files then [Claim(id), Step.Finish(FailedSpec(files[Path(Pending, id)], reason), false)]
    else [Claim(id)]
  }

  function CarrySteps(cfg: Config, w: World, spec: Spec, e: Luck, v: Verdict): seq<Step> {
    match v
    case Fail(reason) => FailSteps(w.files, spec.id, reason)
    case Try =>
      if Starts(w, spec, e) then [Claim(spec.id), Update(StartedSpec(cfg, w.files[Path(Pending, spec.id)], e))]
      else FailSteps(w.files, spec.id, if e.checksOut then StartFailed else CheckoutFailed)
    case _ => []
  }

  function MovedSteps(spec: Spec, e: Luck): seq<Step> {
    if e.gone then [Cancel(spec.id)] else []
  }

  function PassSteps(cfg: Config, card: CardState, strikes: nat, p: Pass, pending: seq<Spec>, env: seq<Luck>): seq<Step>
    requires |pending| == |env|
    decreases |pending|
  {
    if pending == [] then []
    else
      var spec, e := pending[0], env[0];
      var m := Moved(p, spec, e);
      var v := Decide(cfg, card, strikes, true, m, spec, e);
      MovedSteps(spec, e) + CarrySteps(cfg, m.world, spec, e, v)
      + PassSteps(cfg, card, strikes, Carry(cfg, m, spec, e, v), pending[1..], env[1..])
  }

  function StepsOf(cfg: Config, s: Life, e: Event): seq<Step>
    requires e.Admission? ==> |e.pending| == |e.env|
    requires (e.Settled? || e.Stopped?) ==> e.id in s.w.active
  {
    match e
    case Admission(answer, pending, env) =>
      var card := LookUp(cfg, s.w.active, pending, answer);
      PassSteps(cfg, card, NextStrikes(s.strikes, card), Start(s.w), pending, env)
    case Notice(_, _) => []
    case Settled(id, r, now) => [SettleStep(cfg, s.m, s.w.active[id], r, now)]
    case Stopped(id) => [StopStep(s.w.active[id])]
    case Outside(_, step) => [step]
  }

  ghost function LifeSteps(cfg: Config, s: Life, events: seq<Event>): seq<Step>
    requires IsLife(cfg, s, events)
    decreases |events|
  {
    if events == [] then []
    else StepsOf(cfg, s, events[0]) + LifeSteps(cfg, After(cfg, s, events[0]), events[1..])
  }

  /** `steps` can be taken from `files` and lead to `after`. */
  predicate Leads(files: Files, steps: seq<Step>, after: Files) {
    IsRun(files, steps) && RunFrom(files, steps) == after
  }

  lemma {:induction false} LeadsOn(a: Files, first: seq<Step>, b: Files, rest: seq<Step>, c: Files)
    requires Leads(a, first, b) && Leads(b, rest, c)
    ensures Leads(a, first + rest, c)
    decreases |first|
  {
    if first == [] {
      assert first + rest == rest;
    } else {
      assert (first + rest)[1..] == first[1..] + rest;
      LeadsOn(Apply(a, first[0]), first[1..], b, rest, c);
    }
  }

  lemma OneStep(files: Files, s: Step)
    requires Enabled(files, s)
    ensures Leads(files, [s], Apply(files, s))
  {
    assert [s][1..] == [];
  }

  lemma TwoSteps(files: Files, s: Step, t: Step)
    requires Enabled(files, s) && Enabled(Apply(files, s), t)
    ensures Leads(files, [s, t], Apply(Apply(files, s), t))
  {
    OneStep(files, s);
    OneStep(Apply(files, s), t);
    LeadsOn(files, [s], Apply(files, s), [t], Apply(Apply(files, s), t));
    assert [s] + [t] == [s, t];
  }

  lemma FailLeads(files: Files, id: string, reason: Reason)
    requires WellNamed(files)
    ensures Leads(files, FailSteps(files, id, reason), FailPending(files, id, reason))
  {
    if Path(Pending, id) in files {
      TwoSteps(files, Claim(id), Step.Finish(FailedSpec(files[Path(Pending, id)], reason), false));
    } else {
      OneStep(files, Claim(id));
    }
  }

  lemma CarryLeads(cfg: Config, m: Pass, spec: Spec, e: Luck, v: Verdict)
    requires WellNamed(m.world.files)
    ensures Leads(m.world.files, CarrySteps(cfg, m.world, spec, e, v), Carry(cfg, m, spec, e, v).world.files)
  {
    match v {
      case Fail(reason) => FailLeads(m.world.files, spec.id, reason);
      case Try =>
        if Starts(m.world, spec, e) {
          TwoSteps(m.world.files, Claim(spec.id), Update(StartedSpec(cfg, m.world.files[Path(Pending, spec.id)], e)));
        } else {
          FailLeads(m.world.files, spec.id, if e.checksOut then StartFailed else CheckoutFailed);
        }
      case _ =>
    }
  }

  lemma MovedLeads(p: Pass, spec: Spec, e: Luck)
    ensures Leads(p.world.files, MovedSteps(spec, e), Moved(p, spec, e).world.files)
  {
    if e.gone {
      OneStep(p.world.files, Cancel(spec.id));
    }
  }

  lemma {:induction false} PassLeads(cfg: Config, card: CardState, strikes: nat, p: Pass, pending: seq<Spec>,
      env: seq<Luck>)
    requires |pending| == |env| && Setting(cfg, p, pending, env)
    ensures Leads(p.world.files, PassSteps(cfg, card, strikes, p, pending, env),
                  RunPass(cfg, card, strikes, true, p, pending, env).world.files)
    decreases |pending|
  {
    if pending != [] {
      var spec, e := pending[0], env[0];
      var m := Moved(p, spec, e);
      var v := Decide(cfg, card, strikes, true, m, spec, e);
      var q := Carry(cfg, m, spec, e, v);
      assert q == Consider(cfg, card, strikes, true, p, spec, e);
      FirstTurn(cfg, card, strikes, true, p, pending, env);
      MovedKeepsOrder(cfg, p, spec, e);
      MovedLeads(p, spec, e);
      CarryLeads(cfg, m, spec, e, v);
      PassLeads(cfg, card, strikes, q, pending[1..], env[1..]);
      var end := RunPass(cfg, card, strikes, true, q, pending[1..], env[1..]).world.files;
      LeadsOn(p.world.files, MovedSteps(spec, e), m.world.files, CarrySteps(cfg, m.world, spec, e, v), q.world.files);
      LeadsOn(p.world.files, MovedSteps(spec, e) + CarrySteps(cfg, m.world, spec, e, v), q.world.files,
              PassSteps(cfg, card, strikes, q, pending[1..], env[1..]), end);
    }
  }

  lemma EventLeads(cfg: Config, s: Life, e: Event)
    requires InOrder(cfg, s.w) && Possible(cfg, s, e)
    ensures Leads(s.w.files, StepsOf(cfg, s, e), After(cfg, s, e).w.files)
  {
    match e {
      case Admission(answer, pending, env) =>
        var card := LookUp(cfg, s.w.active, pending, answer);
        PassLeads(cfg, card, NextStrikes(s.strikes, card), Start(s.w), pending, env);
      case Notice(_, _) =>
      case Settled(id, r, now) =>
        SettleIsAStep(cfg, s.m, s.w, id, r, now);
        OneStep(s.w.files, SettleStep(cfg, s.m, s.w.active[id], r, now));
      case Stopped(id) =>
        StopIsAStep(s.w, id);
        OneStep(s.w.files, StopStep(s.w.active[id]));
      case Outside(others, step) => OneStep(s.w.files, step);
    }
  }

  lemma {:induction false} LifeIsAQueueRun(cfg: Config, s: Life, events: seq<Event>)
    requires InOrder(cfg, s.w) && IsLife(cfg, s, events)
    ensures Leads(s.w.files, LifeSteps(cfg, s, events), EndOf(cfg, s, events).w.files)
    decreases |events|
  {
    if events != [] {
      var t := After(cfg, s, events[0]);
      EventKeepsOrder(cfg, s, events[0]);
      EventLeads(cfg, s, events[0]);
      LifeIsAQueueRun(cfg, t, events[1..]);
      var end := EndOf(cfg, s, events).w.files;
      LeadsOn(s.w.files, StepsOf(cfg, s, events[0]), t.w.files, LifeSteps(cfg, t, events[1..]), end);
    }
  }

  /** Over a runner's whole life, with clients and the reaper at work beside it,
      no job is lost, and a job's retries by any of them together stay within
      the attempts it has left. */
  lemma LifeConservesJobs(cfg: Config, s: Life, events: seq<Event>, id: string)
    requires InOrder(cfg, s.w) && IsLife(cfg, s, events) && IdExists(s.w.files, id)
    ensures var end := EndOf(cfg, s, events).w.files;
            var steps := LifeSteps(cfg, s, events);
            && Good(end) && IdExists(end, id)
            && IsRun(s.w.files, steps)
            && Count(s.w.files, steps, id).sentBack + Left(PlaceOf(end, id)) == Left(PlaceOf(s.w.files, id))
  {
    LifeIsAQueueRun(cfg, s, events);
    JobsAreConserved(s.w.files, LifeSteps(cfg, s, events), id);
    VisitsBalance(s.w.files, LifeSteps(cfg, s, events), id);
  }

  // ---------------------------------------------------------------------
  // Runner after runner
  // ---------------------------------------------------------------------

  /** One life: how the runner was configured, who else held the card when it
      started, and what happened. */
  datatype Span = Span(cfg: Config, others: seq<Record>, events: seq<Event>)

  /** Each runner starts afresh on the files the one before left, however that one ended. */
  ghost predicate AreLives(files: Files, spans: seq<Span>)
    decreases |spans|
  {
    spans == []
    || (var s := Fresh(spans[0].others, files);
        IsLife(spans[0].cfg, s, spans[0].events) && AreLives(EndOf(spans[0].cfg, s, spans[0].events).w.files,
            spans[1..]))
  }

  ghost function LeftBy(files: Files, spans: seq<Span>): Files
    requires AreLives(files, spans)
    decreases |spans|
  {
    if spans == [] then files
    else LeftBy(EndOf(spans[0].cfg, Fresh(spans[0].others, files), spans[0].events).w.files, spans[1..])
  }

  ghost function AllSteps(files: Files, spans: seq<Span>): seq<Step>
    requires AreLives(files, spans)
    decreases |spans|
  {
    if spans == [] then []
    else
      var s := Fresh(spans[0].others, files);
      LifeSteps(spans[0].cfg, s, spans[0].events)
      + AllSteps(EndOf(spans[0].cfg, s, spans[0].events).w.files, spans[1..])
  }

  lemma {:induction false} LivesAreAQueueRun(files: Files, spans: seq<Span>)
    requires Good(files) && AreLives(files, spans)
    ensures Leads(files, AllSteps(files, spans), LeftBy(files, spans))
    decreases |spans|
  {
    if spans != [] {
      var cfg, s := spans[0].cfg, Fresh(spans[0].others, files);
      var mid := EndOf(cfg, s, spans[0].events).w.files;
      FreshRunnerIsInOrder(cfg, spans[0].others, files);
      LifeKeepsOrder(cfg, s, spans[0].events);
      LifeIsAQueueRun(cfg, s, spans[0].events);
      LivesAreAQueueRun(mid, spans[1..]);
      LeadsOn(files, LifeSteps(cfg, s, spans[0].events), mid, AllSteps(mid, spans[1..]), LeftBy(files, spans));
    }
  }

  /** Over any number of runners, one after the other, with clients and the
      reaper at work beside them, no job is lost, and a job's retries by all of
      them together stay within the attempts it has left. */
  lemma LivesConserveJobs(files: Files, spans: seq<Span>, id: string)
    requires Good(files) && AreLives(files, spans) && IdExists(files, id)
    ensures var end := LeftBy(files, spans);
            var steps := AllSteps(files, spans);
            && Good(end) && IdExists(end, id)
            && IsRun(files, steps)
            && Count(files, steps, id).sentBack + Left(PlaceOf(end, id)) == Left(PlaceOf(files, id))
  {
    LivesAreAQueueRun(files, spans);
    JobsAreConserved(files, AllSteps(files, spans), id);
    VisitsBalance(files, AllSteps(files, spans), id);
  }

  // ---------------------------------------------------------------------
  // What a runner remembers
  // ---------------------------------------------------------------------

  /** A conviction that got the holder off the card was noted. */
  predicate FreesTheCard(e: Event) {
    e.Notice? && exists i :: 0 <= i < |e.convictions| && e.convictions[i].killed
  }

  /** When the card was last freed by a conviction, by the history alone. */
  function LastFreed(events: seq<Event>): Option<int> {
    if events == [] then None
    else
      var later := LastFreed(events[1..]);
      if later.Some? then later else if FreesTheCard(events[0]) then Some(events[0].at) else None
  }

  lemma {:induction false} MemoryIsHistory(cfg: Config, s: Life, events: seq<Event>)
    requires IsLife(cfg, s, events)
    ensures EndOf(cfg, s, events).m.last == if LastFreed(events).Some? then LastFreed(events) else s.m.last
    decreases |events|
  {
    if events != [] {
      MemoryIsHistory(cfg, After(cfg, s, events[0]), events[1..]);
    }
  }

  lemma {:induction false} LastFreedIsNoted(events: seq<Event>)
    ensures LastFreed(events).Some? <==> exists k :: 0 <= k < |events| && FreesTheCard(events[k])
    ensures LastFreed(events).Some? ==>
              exists k :: 0 <= k < |events| && FreesTheCard(events[k]) && events[k].at == LastFreed(events).value
                          && forall l :: k < l < |events| ==> !FreesTheCard(events[l])
  {
    if events != [] {
      LastFreedIsNoted(events[1..]);
      forall k | 0 <= k < |events[1..]|
        ensures events[1..][k] == events[k + 1]
      {
      }
      if LastFreed(events[1..]).Some? {
        var k :| 0 <= k < |events[1..]| && FreesTheCard(events[1..][k])
            && events[1..][k].at == LastFreed(events[1..]).value
                 && forall l :: k < l < |events[1..]| ==> !FreesTheCard(events[1..][l]);
        assert FreesTheCard(events[k + 1]);
        forall l | k + 1 < l < |events|
          ensures !FreesTheCard(events[l])
        {
          assert events[l] == events[1..][l - 1];
        }
      } else {
        forall l | 0 < l < |events|
          ensures !FreesTheCard(events[l])
        {
          assert events[l] == events[1..][l - 1];
        }
      }
    }
  }

  /** Over a whole life, settlement sends a job back exactly when it ran out of
      memory, unconvicted and in time, with an attempt left, and the last conviction
      noted that freed the card came after the job started and within the window. */
  lemma SentBackForCause(cfg: Config, others: seq<Record>, files: Files, events: seq<Event>, id: string, r: Result,
      now: int)
    requires IsLife(cfg, Fresh(others, files), events)
    requires id in EndOf(cfg, Fresh(others, files), events).w.active
    ensures var s := EndOf(cfg, Fresh(others, files), events);
            var job := s.w.active[id];
            FateOf(cfg, s.m, job, r, now).Retry?
            <==> && DescribeFailure(s.m, job.spec,
                r) == OutOfMemory && r.exitCode != 0 && job.spec.attempts < 1
                 && exists k :: 0 <= k < |events| && FreesTheCard(events[k])
                                && (forall l :: k < l < |events| ==> !FreesTheCard(events[l]))
                                && job.started < events[k].at && now <= events[k].at + ConvictionWindow(cfg)
  {
    hide FateOf, DescribeFailure, RunPass, SettleOne, Possible, ConvictionWindow;
    var s := EndOf(cfg, Fresh(others, files), events);
    MemoryIsHistory(cfg, Fresh(others, files), events);
    LastFreedIsNoted(events);
    RetryExcusesOnlyMemory(cfg, s.m, s.w.active[id], r, now);
    if k :| 0 <= k < |events| && FreesTheCard(events[k]) && forall l :: k < l < |events| ==> !FreesTheCard(events[l]) {
      assert LastFreed(events) == Some(events[k].at);
    }
  }

  /** The event leaves this job running. */
  predicate Spares(e: Event, id: string) {
    !(e.Settled? && e.id == id) && !(e.Stopped? && e.id == id)
  }

  ghost predicate IsBranded(s: Life, id: string, job: Job) {
    id in s.w.active && s.w.active[id] == job && id in s.m.convicted
  }

  lemma EventKeepsTheBrand(cfg: Config, s: Life, e: Event, id: string, job: Job)
    requires InOrder(cfg, s.w) && Possible(cfg, s, e) && Spares(e, id) && IsBranded(s, id, job)
    ensures IsBranded(After(cfg, s, e), id, job)
  {
    if e.Admission? {
      var card := LookUp(cfg, s.w.active, e.pending, e.answer);
      PassKeepsActive(cfg, card, NextStrikes(s.strikes, card), true, Start(s.w), e.pending, e.env, id);
    }
  }

  lemma {:induction false} TheBrandStays(cfg: Config, s: Life, events: seq<Event>, id: string, job: Job)
    requires InOrder(cfg, s.w) && IsLife(cfg, s, events) && IsBranded(s, id, job)
    requires forall k :: 0 <= k < |events| ==> Spares(events[k], id)
    ensures IsBranded(EndOf(cfg, s, events), id, job)
    decreases |events|
  {
    if events != [] {
      assert Spares(events[0], id);
      EventKeepsOrder(cfg, s, events[0]);
      EventKeepsTheBrand(cfg, s, events[0], id, job);
      TheBrandStays(cfg, After(cfg, s, events[0]), events[1..], id, job);
    }
  }

  /** A job convicted while it runs ends in failed/, however it exits, whenever
      it is collected, and whatever happens in between; and its file says that it
      was convicted unless it already said why it had failed. */
  lemma ConvictedJobFails(cfg: Config, s: Life, convictions: seq<Conviction>, at: int, events: seq<Event>, id: string,
      r: Result, now: int)
    requires InOrder(cfg, s.w) && id in s.w.active
    requires exists i :: 0 <= i < |convictions| && Brands(convictions[i], id)
    requires IsLife(cfg, After(cfg, s, Notice(convictions, at)), events)
    requires forall k :: 0 <= k < |events| ==> Spares(events[k], id)
    ensures var t := EndOf(cfg, After(cfg, s, Notice(convictions, at)), events);
            && Possible(cfg, t, Settled(id, r, now))
            && var end := After(cfg, t, Settled(id, r, now)).w.files;
               && Path(Failed, id) in end
               && end[Path(Failed, id)].error == Some(s.w.active[id].spec.error.GetOr(Convicted))
               && Path(Pending, id) !in end && Path(Done, id) !in end
  {
    hide RunPass, Setting, InOrder, FateOf, LookUp;
    var job := s.w.active[id];
    var noted := After(cfg, s, Notice(convictions, at));
    BrandedAreNamed(convictions, id);
    TheBrandStays(cfg, noted, events, id, job);
    LifeKeepsOrder(cfg, noted, events);
    SettledConvictFails(cfg, EndOf(cfg, noted, events), id, job, r, now);
  }

  lemma SettledConvictFails(cfg: Config, t: Life, id: string, job: Job, r: Result, now: int)
    requires InOrder(cfg, t.w) && IsBranded(t, id, job)
    ensures var end := SettleOne(cfg, t.m, t.w, id, r, now).files;
            && Path(Failed, id) in end
            && end[Path(Failed, id)].error == Some(job.spec.error.GetOr(Convicted))
            && Path(Pending, id) !in end && Path(Done, id) !in end
  {
    ConvictionOutranks(cfg, t.m, job, r, now);
    assert Path(Running, id) in t.w.files;
  }

  /** A record of the runner's names, by its owner, the one job it backs. */
  lemma OwnerNamesTheJob(cfg: Config, w: World, r: Record, id: string, other: string)
    requires InOrder(cfg, w) && r in w.own
    requires id in w.active && Backs(cfg, r, w.active[id])
    ensures Brands(Conviction(r.owner, true), other) <==> other == id
  {
    assert w.active[id].spec.id == id;
    assert (JOB_OWNER + other)[|JOB_OWNER|..] == other && (JOB_OWNER + id)[|JOB_OWNER|..] == id;
  }

  /** The watchdog convicts a record the runner holds: the job that record backs,
      and no other, is branded, and it ends in failed/ however it exits and whatever
      happens before it is collected. */
  lemma ConvictedRecordFailsItsJob(cfg: Config, s: Life, c: Watchdog.Conviction, killed: bool, at: int,
      events: seq<Event>, r: Result, now: int) returns (id: string)
    requires InOrder(cfg, s.w) && c.record in s.w.own
    requires IsLife(cfg, After(cfg, s, Notice([Reported(c, killed)], at)), events)
    ensures id in s.w.active && s.w.active[id].claim == Some(c.record.path)
    ensures forall other :: other in After(cfg, s, Notice([Reported(c, killed)], at)).m.convicted
                            <==> other == id || other in s.m.convicted
    ensures (forall k :: 0 <= k < |events| ==> Spares(events[k], id)) ==>
              var t := EndOf(cfg, After(cfg, s, Notice([Reported(c, killed)], at)), events);
              && Possible(cfg, t, Settled(id, r, now))
              && var end := After(cfg, t, Settled(id, r, now)).w.files;
                 && Path(Failed, id) in end
                 && end[Path(Failed, id)].error == Some(s.w.active[id].spec.error.GetOr(Convicted))
                 && Path(Pending, id) !in end && Path(Done, id) !in end
  {
    id := JobOf(cfg, s.w, c.record);
    var cs := [Reported(c, killed)];
    forall other
      ensures other in Branded(cs) <==> other == id
    {
      BrandedAreNamed(cs, other);
      OwnerNamesTheJob(cfg, s.w, c.record, id, other);
      assert Brands(cs[0], other) <==> Brands(Conviction(c.record.owner, true), other);
    }
    BrandedAreNamed(cs, id);
    if forall k :: 0 <= k < |events| ==> Spares(events[k], id) {
      ConvictedJobFails(cfg, s, cs, at, events, id, r, now);
    }
  }

  lemma JobOf(cfg: Config, w: World, r: Record) returns (id: string)
    requires InOrder(cfg, w) && r in w.own
    ensures id in w.active && Backs(cfg, r, w.active[id])
  {
    var i :| 0 <= i < |w.own| && w.own[i] == r;
    assert HasJob(cfg, w.own[i], w.active);
    id :| id in w.active && Backs(cfg, w.own[i], w.active[id]);
  }

  /** The event notes a conviction of this job. */
  ghost predicate Convicts(e: Event, id: string) {
    e.Notice? && exists i :: 0 <= i < |e.convictions| && Brands(e.convictions[i], id)
  }

  predicate Settles(e: Event, id: string) {
    e.Settled? && e.id == id
  }

  lemma EventBrands(cfg: Config, s: Life, e: Event, id: string)
    requires InOrder(cfg, s.w) && Possible(cfg, s, e) && !Settles(e, id)
    ensures id in After(cfg, s, e).m.convicted <==> id in s.m.convicted || Convicts(e, id)
  {
    if e.Notice? {
      BrandedAreNamed(e.convictions, id);
    }
  }

  /** Until a job is settled it is remembered as convicted exactly if that was noted. */
  lemma {:induction false} BrandIsHistory(cfg: Config, s: Life, events: seq<Event>, id: string)
    requires InOrder(cfg, s.w) && IsLife(cfg, s, events)
    requires forall k :: 0 <= k < |events| ==> !Settles(events[k], id)
    ensures id in EndOf(cfg, s, events).m.convicted
            <==> id in s.m.convicted || exists k :: 0 <= k < |events| && Convicts(events[k], id)
    decreases |events|
  {
    hide RunPass, Setting, InOrder, Possible, After, Convicts, Settles;
    if events != [] {
      EventKeepsOrder(cfg, s, events[0]);
      EventBrands(cfg, s, events[0], id);
      BrandIsHistory(cfg, After(cfg, s, events[0]), events[1..], id);
      assert events == [events[0]] + events[1..];
    }
  }

  lemma DoneIsTheFate(cfg: Config, m: Memory, w: World, id: string, r: Result, now: int)
    requires Tidy(w) && id in w.active
    ensures Path(Done, id) in SettleOne(cfg, m, w, id, r, now).files
            <==> FateOf(cfg, m, w.active[id], r, now).End? && FateOf(cfg, m, w.active[id], r, now).ok
  {
    hide FateOf;
    assert Path(Running, id) in w.files && Path(Done, id) !in w.files;
  }

  /** Over a whole life, a job settled for the first time ends in done/ exactly
      if its process exited 0 in time, its artifacts could be collected, and no
      conviction of it was ever noted. */
  lemma DoneForCause(cfg: Config, others: seq<Record>, files: Files, events: seq<Event>, id: string, r: Result,
      now: int)
    requires Good(files) && IsLife(cfg, Fresh(others, files), events)
    requires forall k :: 0 <= k < |events| ==> !Settles(events[k], id)
    requires id in EndOf(cfg, Fresh(others, files), events).w.active
    ensures var s := EndOf(cfg, Fresh(others, files), events);
            Path(Done, id) in SettleOne(cfg, s.m, s.w, id, r, now).files
            <==> && r.exitCode == 0 && !r.timedOut && r.artifacts
                 && forall k :: 0 <= k < |events| ==> !Convicts(events[k], id)
  {
    var s := EndOf(cfg, Fresh(others, files), events);
    FreshRunnerIsInOrder(cfg, others, files);
    LifeKeepsOrder(cfg, Fresh(others, files), events);
    BrandIsHistory(cfg, Fresh(others, files), events, id);
    hide FateOf, RunPass, Setting, SettleOne, Possible, After, Linked, Balanced, WithinSlots;
    DoneIsTheFate(cfg, s.m, s.w, id, r, now);
    DoneMeansClean(cfg, s.m, s.w.active[id], r, now);
  }

  /** What a pass found when it looked at the card. */
  function LookOf(cfg: Config, s: Life, e: Event): seq<CardState> {
    if e.Admission? then [LookUp(cfg, s.w.active, e.pending, e.answer)] else []
  }

  ghost function Looks(cfg: Config, s: Life, events: seq<Event>): seq<CardState>
    requires IsLife(cfg, s, events)
    decreases |events|
  {
    if events == [] then [] else LookOf(cfg, s, events[0]) + Looks(cfg, After(cfg, s, events[0]), events[1..])
  }

  lemma EventCounts(cfg: Config, s: Life, e: Event, past: seq<CardState>)
    requires Possible(cfg, s, e) && s.strikes == Strikes(past)
    ensures After(cfg, s, e).strikes == Strikes(past + LookOf(cfg, s, e))
  {
    assert past + [] == past;
    if e.Admission? {
      assert (past + LookOf(cfg, s, e))[..|past|] == past;
    }
  }

  lemma {:induction false} CounterFollowsThePasses(cfg: Config, s: Life, events: seq<Event>, past: seq<CardState>)
    requires IsLife(cfg, s, events) && s.strikes == Strikes(past)
    ensures EndOf(cfg, s, events).strikes == Strikes(past + Looks(cfg, s, events))
    decreases |events|
  {
    hide Possible, After, LookOf, Strikes;
    if events == [] {
      assert past + [] == past;
    } else {
      var t, look := After(cfg, s, events[0]), LookOf(cfg, s, events[0]);
      EventCounts(cfg, s, events[0], past);
      CounterFollowsThePasses(cfg, t, events[1..], past + look);
      assert past + look + Looks(cfg, t, events[1..]) == past + (look + Looks(cfg, t, events[1..]));
    }
  }

  /** At every moment of a life the counter is the length of the run of passes
      that could not name the card, up to the last pass. */
  lemma CounterIsTheTrailingRun(cfg: Config, others: seq<Record>, files: Files, events: seq<Event>, n: nat)
    requires IsLife(cfg, Fresh(others, files), events)
    ensures var s := Fresh(others, files);
            Unnamed(Looks(cfg, s, events), n) <==> n <= EndOf(cfg, s, events).strikes
  {
    var s := Fresh(others, files);
    CounterFollowsThePasses(cfg, s, events, []);
    assert [] + Looks(cfg, s, events) == Looks(cfg, s, events);
    StrikesAreTheTrailingRun(Looks(cfg, s, events));
  }
}
