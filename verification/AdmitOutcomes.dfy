/** What becomes of each job an admission pass considers (src/gpuqueue/runner.py, `admit`). */
module AdmitOutcomes {
  import opened Base
  import opened Ledger
  import opened Queue
  import opened QueueRuns
  import opened AdmitPass
  import opened AdmitProofs
  import opened AdmitTheorems

  /** Neither the job's files nor its entry among the active ones differ. */
  ghost predicate LeftAlone(w: World, v: World, id: string) {
    && Agree(w.files, v.files, id)
    && (id in w.active <==> id in v.active)
    && (id in w.active ==> w.active[id] == v.active[id])
  }

  lemma TurnLeavesOthers(cfg: Config, card: CardState, strikes: nat, shortcut: bool, p: Pass, pending: seq<Spec>,
      env: seq<Luck>, id: string)
    requires Setting(cfg, p, pending, env) && pending != [] && pending[0].id != id
    ensures LeftAlone(p.world, Consider(cfg, card, strikes, shortcut, p, pending[0], env[0]).world, id)
  {
    TurnKeepsSetting(cfg, card, strikes, shortcut, p, pending, env);
    TurnActivates(cfg, card, strikes, shortcut, p, pending[0], env[0]);
  }

  lemma TurnActivates(cfg: Config, card: CardState, strikes: nat, shortcut: bool, p: Pass, spec: Spec, e: Luck)
    ensures var q := Consider(cfg, card, strikes, shortcut, p, spec, e);
            forall id :: id != spec.id ==>
              && (id in p.world.active <==> id in q.world.active)
              && (id in p.world.active ==> p.world.active[id] == q.world.active[id])
  {
  }

  lemma LeftAloneChain(u: World, v: World, w: World, id: string)
    requires LeftAlone(u, v, id) && LeftAlone(v, w, id)
    ensures LeftAlone(u, w, id)
  {
    forall state: State
      ensures SameFile(u.files, w.files, Path(state, id))
    {
      assert SameFile(u.files, v.files, Path(state, id)) && SameFile(v.files, w.files, Path(state, id));
    }
  }

  lemma {:induction false} RestLeavesAlone(cfg: Config, card: CardState, strikes: nat, shortcut: bool, p: Pass,
      pending: seq<Spec>, env: seq<Luck>, id: string)
    requires |pending| == |env| && Setting(cfg, p, pending, env)
    requires forall i :: 0 <= i < |pending| ==> pending[i].id != id
    ensures LeftAlone(p.world, RunPass(cfg, card, strikes, shortcut, p, pending, env).world, id)
    decreases |pending|
  {
    hide Setting, RunPass, Consider, LeftAlone;
    if pending == [] {
      NothingChanges(cfg, card, strikes, shortcut, p, pending, env, id);
    } else {
      var q := Consider(cfg, card, strikes, shortcut, p, pending[0], env[0]);
      FirstTurn(cfg, card, strikes, shortcut, p, pending, env);
      TurnLeavesOthers(cfg, card, strikes, shortcut, p, pending, env, id);
      RestLeavesAlone(cfg, card, strikes, shortcut, q, pending[1..], env[1..], id);
      LeftAloneChain(p.world, q.world, RunPass(cfg, card, strikes, shortcut, q, pending[1..], env[1..]).world, id);
    }
  }

  lemma NothingChanges(cfg: Config, card: CardState, strikes: nat, shortcut: bool, p: Pass, pending: seq<Spec>,
      env: seq<Luck>, id: string)
    requires |pending| == |env| && pending == []
    ensures LeftAlone(p.world, RunPass(cfg, card, strikes, shortcut, p, pending, env).world, id)
  {
  }

  // ---------------------------------------------------------------------
  // Outcomes and their causes
  // ---------------------------------------------------------------------

  /** The job gets as far as the card: nothing in this pass has ended GPU
      admissions, and no stranger is on it. */
  ghost predicate AsksForTheCard(cfg: Config, card: CardState, shortcut: bool, p: Pass, spec: Spec) {
    && spec.lane.Gpu? && spec.project in cfg.projects && !LaneFull(cfg, p.world.active, Gpu)
    && !p.blocked && !(shortcut && p.closed) && !card.Contended?
  }

  /** It gets as far as the ledger: the card has a name, and the declaration is one it could hold. */
  ghost predicate AsksTheLedger(cfg: Config, card: CardState, shortcut: bool, p: Pass, spec: Spec, e: Luck) {
    && AsksForTheCard(cfg, card, shortcut, p, spec) && !card.Unidentified?
    && WellDeclared(spec.vram) && !TooLarge(spec.vram, e.usable)
  }

  /** The job may be begun: a slot, and for a GPU job the card. */
  ghost predicate MayBegin(cfg: Config, card: CardState, shortcut: bool, p: Pass, spec: Spec, e: Luck) {
    if spec.lane.Cpu? then spec.project in cfg.projects && !LaneFull(cfg, p.world.active, Cpu)
    else AsksTheLedger(cfg, card, shortcut, p, spec, e) && !e.mutexTimeout
         && RoomFor(cfg, e.usable, e.others + p.world.own, spec.vram)
  }

  ghost predicate Launches(cfg: Config, card: CardState, shortcut: bool, p: Pass, spec: Spec, e: Luck) {
    !e.gone && MayBegin(cfg, card, shortcut, p, spec, e) && e.checksOut && e.starts
  }

  /** Each reason that can stand on a failed job's file, and what it takes. */
  ghost predicate HasCause(cfg: Config, card: CardState, strikes: nat, shortcut: bool, p: Pass, spec: Spec, e: Luck,
      reason: Reason) {
    match reason
    case Cancelled => e.gone
    case UnknownProject => !e.gone && spec.project !in cfg.projects
    case NoUsableGpu => !e.gone && AsksForTheCard(cfg, card, shortcut, p, spec) && card.Unidentified? && strikes >= 3
    case NeverFits =>
      !e.gone && AsksForTheCard(cfg, card, shortcut, p, spec) && !card.Unidentified? && TooLarge(spec.vram, e.usable)
    case BadVram =>
      && !e.gone && AsksForTheCard(cfg, card, shortcut, p, spec) && !card.Unidentified?
      && !TooLarge(spec.vram, e.usable) && !WellDeclared(spec.vram)
    case CheckoutFailed => !e.gone && MayBegin(cfg, card, shortcut, p, spec, e) && !e.checksOut
    case StartFailed => !e.gone && MayBegin(cfg, card, shortcut, p, spec, e) && e.checksOut && !e.starts
    case _ => false
  }

  /** The job as it is entered when it starts. */
  function Entry(cfg: Config, spec: Spec, e: Luck): Job {
    Job(spec.(pid := Some(e.pid), runnerPid := Some(cfg.runnerPid)), e.pid,
        if spec.lane.Gpu? then Some(e.token) else None, e.now)
  }

  ghost predicate IsStarted(cfg: Config, w: World, spec: Spec, e: Luck) {
    && spec.id in w.active && w.active[spec.id] == Entry(cfg, spec, e)
    && Path(Running, spec.id) in w.files && w.files[Path(Running, spec.id)] == Entry(cfg, spec, e).spec
  }

  ghost predicate IsFailedFor(w: World, spec: Spec, reason: Reason) {
    && spec.id !in w.active && Path(Failed, spec.id) in w.files
    && w.files[Path(Failed, spec.id)]
       == if reason.Cancelled? then spec.(error := Some(Cancelled))
          else spec.(error := Some(reason), exitCode := Some(-1), pid := None)
  }

  ghost predicate IsPending(w: World, spec: Spec) {
    spec.id !in w.active && Path(Pending, spec.id) in w.files && w.files[Path(Pending, spec.id)] == spec
  }

  /** How a job that was pending before its turn, `p`, ends: started, failed for a
      reason or still pending, each exactly for its cause. */
  ghost predicate EndsForCause(cfg: Config, card: CardState, strikes: nat, shortcut: bool, p: Pass, w: World,
      started: seq<string>, spec: Spec, e: Luck) {
    && (IsStarted(cfg, w, spec, e) <==> Launches(cfg, card, shortcut, p, spec, e))
    && (spec.id in started <==> spec.id in p.started || Launches(cfg, card, shortcut, p, spec, e))
    && (forall reason ::
          IsFailedFor(w, spec, reason) <==> HasCause(cfg, card, strikes, shortcut, p, spec, e, reason))
    && (IsPending(w, spec)
        <==> && !Launches(cfg, card, shortcut, p, spec, e)
             && forall reason :: !HasCause(cfg, card, strikes, shortcut, p, spec, e, reason))
  }

  /** The tests of a turn, one by one. */
  lemma DecideExactly(cfg: Config, card: CardState, strikes: nat, shortcut: bool, m: Pass, spec: Spec, e: Luck)
    requires m.world.others == e.others && !e.gone
    ensures var v := Decide(cfg, card, strikes, shortcut, m, spec, e);
            && (v.Try? <==> MayBegin(cfg, card, shortcut, m, spec, e))
            && (v.BlockMutex? <==> AsksTheLedger(cfg, card, shortcut, m, spec, e) && e.mutexTimeout)
            && (v.CloseCard? <==>
                  && AsksTheLedger(cfg, card, shortcut, m, spec, e) && !e.mutexTimeout
                  && !RoomFor(cfg, e.usable, e.others + m.world.own, spec.vram)
                  && NoRoomForAny(cfg, e.usable, e.others + m.world.own))
            && (forall reason :: v == Fail(reason) <==>
                  && HasCause(cfg, card, strikes, shortcut, m, spec, e, reason)
                  && !reason.Cancelled? && !reason.CheckoutFailed? && !reason.StartFailed?)
  {
    hide LaneFull, Capacity, RoomFor, Fits, NoRoomForAny, CardIsClosed;
    SlotsAreCounted(cfg, m.world.active);
    NoRoomIsClosed(cfg, e.usable, e.others + m.world.own);
    if WellDeclared(spec.vram) {
      RoomIsFit(cfg, e.usable, e.others + m.world.own, spec.vram);
    }
  }

  /** Being cancelled changes nothing about the tests. */
  lemma DecideIgnoresGone(cfg: Config, card: CardState, strikes: nat, shortcut: bool, m: Pass, spec: Spec, e: Luck)
    ensures Decide(cfg, card, strikes, shortcut, m, spec, e)
            == Decide(cfg, card, strikes, shortcut, m, spec, e.(gone := false))
    ensures MayBegin(cfg, card, shortcut, m, spec, e) == MayBegin(cfg, card, shortcut, m, spec, e.(gone := false))
    ensures AsksTheLedger(cfg, card, shortcut, m, spec, e)
            == AsksTheLedger(cfg, card, shortcut, m, spec, e.(gone := false))
  {
  }

  lemma FailPendingSaysWhy(files: Files, spec: Spec, reason: Reason)
    requires Good(files) && AsListed(files, spec) && Path(Pending, spec.id) in files
    ensures var after := FailPending(files, spec.id, reason);
            && Path(Failed, spec.id) in after && Path(Pending, spec.id) !in after && Path(Running, spec.id) !in after
            && after[Path(Failed, spec.id)] == spec.(error := Some(reason), exitCode := Some(-1), pid := None)
  {
  }

  lemma CarryFails(cfg: Config, m: Pass, spec: Spec, e: Luck, v: Verdict, reason: Reason)
    requires Good(m.world.files) && AsListed(m.world.files, spec) && Path(Pending, spec.id) in m.world.files
    requires spec.id !in m.world.active && !reason.Cancelled?
    requires v == Fail(reason)
             || (v.Try? && reason.CheckoutFailed? && !e.checksOut)
             || (v.Try? && reason.StartFailed? && e.checksOut && !e.starts)
    ensures var q := Carry(cfg, m, spec, e, v);
            && IsFailedFor(q.world, spec, reason) && q.started == m.started
            && Path(Pending, spec.id) !in q.world.files
  {
    FailPendingSaysWhy(m.world.files, spec, reason);
  }

  lemma CarryStarts(cfg: Config, m: Pass, spec: Spec, e: Luck)
    requires Good(m.world.files) && AsListed(m.world.files, spec) && Path(Pending, spec.id) in m.world.files
    requires e.checksOut && e.starts
    ensures var q := Carry(cfg, m, spec, e, Try);
            && IsStarted(cfg, q.world, spec, e) && q.started == m.started + [spec.id]
            && Path(Pending, spec.id) !in q.world.files && Path(Failed, spec.id) !in q.world.files
  {
  }

  /** A job is started, failed for one reason, or pending: never two of these. */
  lemma OneOutcome(cfg: Config, w: World, spec: Spec, e: Luck)
    requires Good(w.files)
    ensures IsPending(w, spec) ==> !IsStarted(cfg, w, spec, e) && forall reason :: !IsFailedFor(w, spec, reason)
    ensures IsStarted(cfg, w, spec, e) ==> forall reason :: !IsFailedFor(w, spec, reason)
    ensures forall a, b :: IsFailedFor(w, spec, a) && IsFailedFor(w, spec, b) ==> a == b
  {
    assert Path(Pending, spec.id) != Path(Failed, spec.id);
  }

  lemma OneCause(cfg: Config, card: CardState, strikes: nat, shortcut: bool, p: Pass, spec: Spec, e: Luck)
    ensures forall a, b ::
              (HasCause(cfg, card, strikes, shortcut, p, spec, e, a)
               && HasCause(cfg, card, strikes, shortcut, p, spec, e, b)) ==> a == b
    ensures Launches(cfg, card, shortcut, p, spec, e) ==>
              forall reason :: !HasCause(cfg, card, strikes, shortcut, p, spec, e, reason)
  {
  }

  lemma MovedCauses(cfg: Config, card: CardState, strikes: nat, shortcut: bool, p: Pass, spec: Spec, e: Luck)
    ensures var m := Moved(p, spec, e);
            && MayBegin(cfg, card, shortcut, m, spec, e) == MayBegin(cfg, card, shortcut, p, spec, e)
            && Launches(cfg, card, shortcut, m, spec, e) == Launches(cfg, card, shortcut, p, spec, e)
            && AsksTheLedger(cfg, card, shortcut, m, spec, e) == AsksTheLedger(cfg, card, shortcut, p, spec, e)
            && forall reason :: HasCause(cfg, card, strikes, shortcut, m, spec, e, reason)
                                == HasCause(cfg, card, strikes, shortcut, p, spec, e, reason)
  {
  }

  /** Putting the cases together. */
  lemma ForCause(cfg: Config, card: CardState, strikes: nat, shortcut: bool, p: Pass, w: World, started: seq<string>,
      spec: Spec, e: Luck)
    requires Good(w.files)
    requires started == if Launches(cfg, card, shortcut, p, spec, e) then p.started + [spec.id] else p.started
    requires Launches(cfg, card, shortcut, p, spec, e) ==> IsStarted(cfg, w, spec, e)
    requires forall reason ::
               HasCause(cfg, card, strikes, shortcut, p, spec, e, reason) ==> IsFailedFor(w, spec, reason)
    requires (!Launches(cfg, card, shortcut, p, spec, e)
              && forall reason :: !HasCause(cfg, card, strikes, shortcut, p, spec, e, reason)) ==> IsPending(w, spec)
    ensures EndsForCause(cfg, card, strikes, shortcut, p, w, started, spec, e)
  {
    hide HasCause, Launches, IsFailedFor, IsStarted, IsPending;
    OneOutcome(cfg, w, spec, e);
    OneCause(cfg, card, strikes, shortcut, p, spec, e);
  }

  lemma NotActive(cfg: Config, w: World, spec: Spec)
    requires InOrder(cfg, w) && Path(Pending, spec.id) in w.files
    ensures spec.id !in w.active && Good(w.files)
  {
  }

  lemma TurnOnThere(cfg: Config, card: CardState, strikes: nat, shortcut: bool, p: Pass, spec: Spec, e: Luck)
    requires InOrder(cfg, p.world) && AsListed(p.world.files, spec) && Path(Pending, spec.id) in p.world.files
    requires !e.gone && Good(Consider(cfg, card, strikes, shortcut, p, spec, e).world.files)
    ensures var q := Consider(cfg, card, strikes, shortcut, p, spec, e);
            EndsForCause(cfg, card, strikes, shortcut, p, q.world, q.started, spec, e)
  {
    hide MayBegin, AsksForTheCard, AsksTheLedger, HasCause, Launches, Decide, Carry;
    hide EndsForCause, IsFailedFor, IsStarted, IsPending, InOrder;
    OnlyThoseCauses(cfg, card, strikes, shortcut, p, spec, e);
    NotActive(cfg, p.world, spec);
    var m := Moved(p, spec, e);
    var v := Decide(cfg, card, strikes, shortcut, m, spec, e);
    var q := Carry(cfg, m, spec, e, v);
    DecideExactly(cfg, card, strikes, shortcut, m, spec, e);
    MovedCauses(cfg, card, strikes, shortcut, p, spec, e);
    if v.Try? && e.checksOut && e.starts {
      CarryStarts(cfg, m, spec, e);
    } else if v.Try? {
      var reason := if e.checksOut then StartFailed else CheckoutFailed;
      CarryFails(cfg, m, spec, e, v, reason);
      assert HasCause(cfg, card, strikes, shortcut, p, spec, e, reason);
    } else if v.Fail? {
      CarryFails(cfg, m, spec, e, v, v.reason);
      assert HasCause(cfg, card, strikes, shortcut, m, spec, e, v.reason);
      assert HasCause(cfg, card, strikes, shortcut, p, spec, e, v.reason);
    } else {
      CarryWaits(m, cfg, spec, e, v);
    }
    OnlyThoseCauses(cfg, card, strikes, shortcut, p, spec, e);
    ForCause(cfg, card, strikes, shortcut, p, q.world, q.started, spec, e);
  }

  lemma CarryWaits(m: Pass, cfg: Config, spec: Spec, e: Luck, v: Verdict)
    requires AsListed(m.world.files, spec) && Path(Pending, spec.id) in m.world.files && spec.id !in m.world.active
    requires !v.Try? && !v.Fail?
    ensures IsPending(Carry(cfg, m, spec, e, v).world, spec) && Carry(cfg, m, spec, e, v).started == m.started
  {
  }

  /** What a job that is not cancelled can fail for, beyond the tests. */
  lemma OnlyThoseCauses(cfg: Config, card: CardState, strikes: nat, shortcut: bool, p: Pass, spec: Spec, e: Luck)
    ensures HasCause(cfg, card, strikes, shortcut, p, spec, e, Cancelled) <==> e.gone
    ensures HasCause(cfg, card, strikes, shortcut, p, spec, e, CheckoutFailed)
            <==> !e.gone && MayBegin(cfg, card, shortcut, p, spec, e) && !e.checksOut
    ensures HasCause(cfg, card, strikes, shortcut, p, spec, e, StartFailed)
            <==> !e.gone && MayBegin(cfg, card, shortcut, p, spec, e) && e.checksOut && !e.starts
    ensures Launches(cfg, card, shortcut, p, spec, e)
            <==> !e.gone && MayBegin(cfg, card, shortcut, p, spec, e) && e.checksOut && e.starts
    ensures e.gone ==>
              forall reason :: HasCause(cfg, card, strikes, shortcut, p, spec, e, reason) ==> reason == Cancelled
  {
  }

  lemma CancelledStaysFailed(cfg: Config, m: Pass, spec: Spec, e: Luck, v: Verdict)
    requires Path(Pending, spec.id) !in m.world.files && IsFailedFor(m.world, spec, Cancelled)
    ensures IsFailedFor(Carry(cfg, m, spec, e, v).world, spec, Cancelled)
    ensures Carry(cfg, m, spec, e, v).started == m.started
  {
  }

  lemma TurnOnGone(cfg: Config, card: CardState, strikes: nat, shortcut: bool, p: Pass, spec: Spec, e: Luck)
    requires InOrder(cfg, p.world) && AsListed(p.world.files, spec) && Path(Pending, spec.id) in p.world.files
    requires e.gone && Good(Consider(cfg, card, strikes, shortcut, p, spec, e).world.files)
    ensures var q := Consider(cfg, card, strikes, shortcut, p, spec, e);
            EndsForCause(cfg, card, strikes, shortcut, p, q.world, q.started, spec, e)
  {
    hide Decide, EndsForCause, Carry, HasCause, Launches, InOrder;
    OnlyThoseCauses(cfg, card, strikes, shortcut, p, spec, e);
    NotActive(cfg, p.world, spec);
    var m := Moved(p, spec, e);
    CancelledStaysFailed(cfg, m, spec, e, Decide(cfg, card, strikes, shortcut, m, spec, e));
    ForCause(cfg, card, strikes, shortcut, p, Consider(cfg, card, strikes, shortcut, p, spec, e).world,
             Consider(cfg, card, strikes, shortcut, p, spec, e).started, spec, e);
  }

  lemma TurnEndsForCause(cfg: Config, card: CardState, strikes: nat, shortcut: bool, p: Pass, spec: Spec, e: Luck)
    requires InOrder(cfg, p.world) && AsListed(p.world.files, spec) && Path(Pending, spec.id) in p.world.files
    ensures var q := Consider(cfg, card, strikes, shortcut, p, spec, e);
            EndsForCause(cfg, card, strikes, shortcut, p, q.world, q.started, spec, e)
  {
    var m := Moved(p, spec, e);
    MovedKeepsOrder(cfg, p, spec, e);
    ConsiderKeepsGood(cfg, m, spec, e, Decide(cfg, card, strikes, shortcut, m, spec, e));
    hide EndsForCause, Decide, Carry;
    if e.gone {
      TurnOnGone(cfg, card, strikes, shortcut, p, spec, e);
    } else {
      TurnOnThere(cfg, card, strikes, shortcut, p, spec, e);
    }
  }

  lemma ConsiderKeepsGood(cfg: Config, m: Pass, spec: Spec, e: Luck, v: Verdict)
    requires Good(m.world.files) && AsListed(m.world.files, spec)
    ensures Good(Carry(cfg, m, spec, e, v).world.files)
  {
    match v {
      case Try =>
        if Starts(m.world, spec, e) {
          StartIsOneMove(m.world.files, spec.id, StartedSpec(cfg, spec, e));
        } else {
          FailPendingIsOneMove(m.world.files, spec.id, if e.checksOut then StartFailed else CheckoutFailed);
        }
      case Fail(reason) => FailPendingIsOneMove(m.world.files, spec.id, reason);
      case _ =>
    }
  }

  /** What one turn does to the runner. */
  lemma TurnBooks(cfg: Config, card: CardState, strikes: nat, shortcut: bool, p: Pass, spec: Spec, e: Luck)
    requires InOrder(cfg, p.world) && AsListed(p.world.files, spec) && Path(Pending, spec.id) in p.world.files
    ensures var q := Consider(cfg, card, strikes, shortcut, p, spec, e);
            var launched := Launches(cfg, card, shortcut, p, spec, e);
            var held := spec.lane.Gpu? && MayBegin(cfg, card, shortcut, p, spec, e);
            var ask := if spec.vram.Mb? then Some(spec.vram.n) else None;
            var record := Record(e.token, cfg.runnerPid, Some(e.pid), ask, "gpuq:" + spec.id, None, None);
            && q.world.others == e.others
            && q.world.own == p.world.own + (if launched && spec.lane.Gpu? then [record] else [])
            && q.world.active == (if launched then p.world.active[spec.id := Entry(cfg, spec, e)] else p.world.active)
            && q.world.taken == p.world.taken + (if held then [e.token] else [])
            && q.world.released == p.world.released + (if held && !launched then [e.token] else [])
  {
    hide Decide, MayBegin, AsksTheLedger, RoomFor, NoRoomForAny, HasCause, InOrder;
    var m := Moved(p, spec, e);
    var v := Decide(cfg, card, strikes, shortcut, m, spec, e);
    DecideIgnoresGone(cfg, card, strikes, shortcut, m, spec, e);
    DecideExactly(cfg, card, strikes, shortcut, m, spec, e.(gone := false));
    MovedCauses(cfg, card, strikes, shortcut, p, spec, e);
    assert Path(Pending, spec.id) in m.world.files <==> !e.gone;
    assert p.world.taken + [] == p.world.taken && p.world.released + [] == p.world.released
        && p.world.own + [] == p.world.own;
  }

  /** The rest of the pass is told that the ledger did not answer in time, or
      that the card is closed to everybody, when and only when that was found. */
  lemma TurnTellsThePass(cfg: Config, card: CardState, strikes: nat, shortcut: bool, p: Pass, spec: Spec, e: Luck)
    requires InOrder(cfg, p.world) && AsListed(p.world.files, spec) && Path(Pending, spec.id) in p.world.files
    ensures var q := Consider(cfg, card, strikes, shortcut, p, spec, e);
            && (q.blocked <==>
                  p.blocked || (AsksTheLedger(cfg, card, shortcut, p, spec, e) && e.mutexTimeout))
            && (q.closed <==>
                  p.closed
                  || (&& AsksTheLedger(cfg, card, shortcut, p, spec, e) && !e.mutexTimeout
                      && !RoomFor(cfg, e.usable, e.others + p.world.own, spec.vram)
                      && NoRoomForAny(cfg, e.usable, e.others + p.world.own)))
  {
    hide Decide, MayBegin, AsksTheLedger, RoomFor, NoRoomForAny, HasCause, InOrder;
    var m := Moved(p, spec, e);
    var v := Decide(cfg, card, strikes, shortcut, m, spec, e);
    DecideIgnoresGone(cfg, card, strikes, shortcut, m, spec, e);
    DecideExactly(cfg, card, strikes, shortcut, m, spec, e.(gone := false));
    MovedCauses(cfg, card, strikes, shortcut, p, spec, e);
  }

  // ---------------------------------------------------------------------
  // The whole pass
  // ---------------------------------------------------------------------

  lemma EndsLater(cfg: Config, card: CardState, strikes: nat, shortcut: bool, p: Pass, q: Pass, r: Pass, spec: Spec,
      e: Luck)
    requires EndsForCause(cfg, card, strikes, shortcut, p, q.world, q.started, spec, e)
    requires LeftAlone(q.world, r.world, spec.id) && (spec.id in r.started <==> spec.id in q.started)
    ensures EndsForCause(cfg, card, strikes, shortcut, p, r.world, r.started, spec, e)
  {
    hide HasCause, Launches;
    assert SameFile(q.world.files, r.world.files, Path(Pending, spec.id));
    assert SameFile(q.world.files, r.world.files, Path(Running, spec.id));
    assert SameFile(q.world.files, r.world.files, Path(Failed, spec.id));
    assert IsPending(r.world, spec) == IsPending(q.world, spec);
    assert IsStarted(cfg, r.world, spec, e) == IsStarted(cfg, q.world, spec, e);
    forall reason
      ensures IsFailedFor(r.world, spec, reason) == IsFailedFor(q.world, spec, reason)
    {
    }
  }

  lemma PrefixPass(cfg: Config, card: CardState, strikes: nat, shortcut: bool, p: Pass, pending: seq<Spec>,
      env: seq<Luck>, i: nat)
    requires |pending| == |env| && 0 < i <= |pending|
    ensures RunPass(cfg, card, strikes, shortcut, p, pending[..i], env[..i])
            == RunPass(cfg, card, strikes, shortcut, Consider(cfg, card, strikes, shortcut, p, pending[0], env[0]),
                       pending[1..][..i - 1], env[1..][..i - 1])
  {
    hide Consider;
    assert pending[..i][1..] == pending[1..][..i - 1] && env[..i][1..] == env[1..][..i - 1];
  }

  lemma EmptyPass(cfg: Config, card: CardState, strikes: nat, shortcut: bool, p: Pass, pending: seq<Spec>,
      env: seq<Luck>)
    requires |pending| == |env|
    ensures RunPass(cfg, card, strikes, shortcut, p, pending[..0], env[..0]) == p
  {
  }

  /** Every job that the pass finds in pending/ ends it started, failed or still
      pending, each exactly for its cause: as it was when its turn came, after
      the jobs before it. What stands on its file says which. */
  lemma {:induction false} PassAccountsForEach(cfg: Config, card: CardState, strikes: nat, shortcut: bool, p: Pass,
      pending: seq<Spec>, env: seq<Luck>, i: nat)
    requires |pending| == |env| && Setting(cfg, p, pending, env)
    requires i < |pending| && Path(Pending, pending[i].id) in p.world.files
    ensures var turn := RunPass(cfg, card, strikes, shortcut, p, pending[..i], env[..i]);
            var end := RunPass(cfg, card, strikes, shortcut, p, pending, env);
            EndsForCause(cfg, card, strikes, shortcut, turn, end.world, end.started, pending[i], env[i])
    decreases |pending|
  {
    hide *;
    FirstTurn(cfg, card, strikes, shortcut, p, pending, env);
    var q := Consider(cfg, card, strikes, shortcut, p, pending[0], env[0]);
    var end := RunPass(cfg, card, strikes, shortcut, p, pending, env);
    if i == 0 {
      EmptyPass(cfg, card, strikes, shortcut, p, pending, env);
      TurnEndsForCause(cfg, card, strikes, shortcut, p, pending[0], env[0]);
      RestLeavesFirst(cfg, card, strikes, shortcut, p, pending, env);
      OthersAreDifferent(cfg, p, pending, env);
      RestLeavesAlone(cfg, card, strikes, shortcut, q, pending[1..], env[1..], pending[0].id);
      EndsLater(cfg, card, strikes, shortcut, p, q, end, pending[0], env[0]);
    } else {
      assert pending[i] == pending[1..][i - 1] && env[i] == env[1..][i - 1];
      OthersAreDifferent(cfg, p, pending, env);
      TurnLeavesOthers(cfg, card, strikes, shortcut, p, pending, env, pending[i].id);
      StillThere(p.world, q.world, pending[i].id);
      PassAccountsForEach(cfg, card, strikes, shortcut, q, pending[1..], env[1..], i - 1);
      PrefixPass(cfg, card, strikes, shortcut, p, pending, env, i);
    }
  }

  lemma OthersAreDifferent(cfg: Config, p: Pass, pending: seq<Spec>, env: seq<Luck>)
    requires Setting(cfg, p, pending, env) && pending != []
    ensures forall k :: 0 <= k < |pending[1..]| ==> pending[1..][k].id != pending[0].id
    ensures forall k :: 0 < k < |pending| ==> pending[0].id != pending[k].id
  {
  }

  lemma StillThere(w: World, v: World, id: string)
    requires LeftAlone(w, v, id) && Path(Pending, id) in w.files
    ensures Path(Pending, id) in v.files
  {
    assert SameFile(w.files, v.files, Path(Pending, id));
  }

  lemma TurnKeepsActive(cfg: Config, card: CardState, strikes: nat, shortcut: bool, p: Pass, spec: Spec, e: Luck,
      id: string)
    requires InOrder(cfg, p.world) && AsListed(p.world.files, spec) && id in p.world.active
    ensures var q := Consider(cfg, card, strikes, shortcut, p, spec, e);
            id in q.world.active && q.world.active[id] == p.world.active[id]
  {
    hide Decide, Carry;
    if id == spec.id {
      var m := Moved(p, spec, e);
      MovedKeepsOrder(cfg, p, spec, e);
      assert Path(Running, id) in m.world.files && Path(Pending, id) !in m.world.files;
      NothingStarts(cfg, m, spec, e, Decide(cfg, card, strikes, shortcut, m, spec, e));
    } else {
      TurnActivates(cfg, card, strikes, shortcut, p, spec, e);
    }
  }

  lemma NothingStarts(cfg: Config, m: Pass, spec: Spec, e: Luck, v: Verdict)
    requires Path(Pending, spec.id) !in m.world.files
    ensures Carry(cfg, m, spec, e, v).world.active == m.world.active
  {
  }

  /** A pass does not touch a job that is already active. */
  lemma {:induction false} PassKeepsActive(cfg: Config, card: CardState, strikes: nat, shortcut: bool, p: Pass,
      pending: seq<Spec>, env: seq<Luck>, id: string)
    requires |pending| == |env| && Setting(cfg, p, pending, env) && id in p.world.active
    ensures var end := RunPass(cfg, card, strikes, shortcut, p, pending, env);
            id in end.world.active && end.world.active[id] == p.world.active[id]
    decreases |pending|
  {
    if pending != [] {
      FirstTurn(cfg, card, strikes, shortcut, p, pending, env);
      TurnKeepsActive(cfg, card, strikes, shortcut, p, pending[0], env[0], id);
      hide *;
      PassKeepsActive(cfg, card, strikes, shortcut, Consider(cfg, card, strikes, shortcut, p, pending[0], env[0]),
          pending[1..], env[1..], id);
    }
  }
}
