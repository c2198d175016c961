/**
 Failing jobs over a card that cannot be named (src/gpuqueue/runner.py,
 `_gpuid_strikes`): only after GPUID_STRIKES passes in a row could not name it.
 */
module CardStrikes {
  import opened Base
  import opened Queue
  import opened AdmitPass
  import opened AdmitProofs
  import opened AdmitTheorems

  /** The counter after a pass whose lookup came out as `card`. */
  function NextStrikes(strikes: nat, card: CardState): nat {
    if card.Unidentified? then strikes + 1 else 0
  }

  /** The counter of a runner that has made these passes. */
  function Strikes(passes: seq<CardState>): nat {
    if passes == [] then 0 else NextStrikes(Strikes(passes[..|passes| - 1]), passes[|passes| - 1])
  }

  /** The last `n` passes could not name the card. */
  predicate Unnamed(passes: seq<CardState>, n: nat) {
    n <= |passes| && forall k :: |passes| - n <= k < |passes| ==> passes[k].Unidentified?
  }

  /** The counter is the length of the run of failed lookups the history ends
      with: a pass that did not ask, found a stranger or got through breaks it. */
  lemma {:induction false} StrikesAreTheTrailingRun(passes: seq<CardState>)
    ensures forall n: nat :: Unnamed(passes, n) <==> n <= Strikes(passes)
  {
    if passes != [] {
      var before := passes[..|passes| - 1];
      StrikesAreTheTrailingRun(before);
      forall n: nat
        ensures Unnamed(passes, n) <==> n <= Strikes(passes)
      {
        if n > 0 && passes[|passes| - 1].Unidentified? {
          assert Unnamed(passes, n) <==> Unnamed(before, n - 1);
        }
      }
    }
  }

  ghost predicate Blamed(files: Files, id: string) {
    exists state: State :: BlamedIn(files, id, state)
  }

  predicate BlamedIn(files: Files, id: string, state: State) {
    Path(state, id) in files && files[Path(state, id)].error == Some(NoUsableGpu)
  }

  lemma CarryBlamesNobodyElse(cfg: Config, m: Pass, spec: Spec, e: Luck, v: Verdict, state: State)
    requires AsListed(m.world.files, spec) && v != Fail(NoUsableGpu)
    requires BlamedIn(Carry(cfg, m, spec, e, v).world.files, spec.id, state)
    ensures Blamed(m.world.files, spec.id)
  {
    assert BlamedIn(m.world.files, spec.id, state) || BlamedIn(m.world.files, spec.id, Pending);
  }

  lemma OwnTurnBlames(cfg: Config, card: CardState, strikes: nat, shortcut: bool, p: Pass, spec: Spec, e: Luck)
    requires InOrder(cfg, p.world) && AsListed(p.world.files, spec)
    requires Blamed(Consider(cfg, card, strikes, shortcut, p, spec, e).world.files, spec.id)
    ensures Blamed(p.world.files, spec.id) || (card.Unidentified? && strikes >= GPUID_STRIKES)
  {
    var m := Moved(p, spec, e);
    var v := Decide(cfg, card, strikes, shortcut, m, spec, e);
    if v != Fail(NoUsableGpu) {
      var state: State :| BlamedIn(Consider(cfg, card, strikes, shortcut, p, spec, e).world.files, spec.id, state);
      MovedKeepsOrder(cfg, p, spec, e);
      CarryBlamesNobodyElse(cfg, m, spec, e, v, state);
      MovedBlamesNobody(p, spec, e);
    }
  }

  lemma MovedBlamesNobody(p: Pass, spec: Spec, e: Luck)
    requires Blamed(Moved(p, spec, e).world.files, spec.id)
    ensures Blamed(p.world.files, spec.id)
  {
    var s: State :| BlamedIn(Moved(p, spec, e).world.files, spec.id, s);
    assert BlamedIn(p.world.files, spec.id, s);
  }

  lemma TurnBlames(cfg: Config, card: CardState, strikes: nat, shortcut: bool, p: Pass, pending: seq<Spec>,
      env: seq<Luck>, id: string)
    requires Setting(cfg, p, pending, env) && pending != []
    requires Blamed(Consider(cfg, card, strikes, shortcut, p, pending[0], env[0]).world.files, id)
    ensures Blamed(p.world.files, id) || (card.Unidentified? && strikes >= GPUID_STRIKES)
  {
    hide Decide, Carry, Consider;
    var q := Consider(cfg, card, strikes, shortcut, p, pending[0], env[0]);
    if id == pending[0].id {
      OwnTurnBlames(cfg, card, strikes, shortcut, p, pending[0], env[0]);
    } else {
      TurnKeepsSetting(cfg, card, strikes, shortcut, p, pending, env);
      var state: State :| BlamedIn(q.world.files, id, state);
      assert BlamedIn(p.world.files, id, state);
    }
  }

  lemma {:induction false} PassBlames(cfg: Config, card: CardState, strikes: nat, shortcut: bool, p: Pass,
      pending: seq<Spec>, env: seq<Luck>, id: string)
    requires Setting(cfg, p, pending, env)
    requires Blamed(RunPass(cfg, card, strikes, shortcut, p, pending, env).world.files, id)
    ensures Blamed(p.world.files, id) || (card.Unidentified? && strikes >= GPUID_STRIKES)
    decreases |pending|
  {
    if pending != [] {
      var q := Consider(cfg, card, strikes, shortcut, p, pending[0], env[0]);
      TurnKeepsSetting(cfg, card, strikes, shortcut, p, pending, env);
      PassBlames(cfg, card, strikes, shortcut, q, pending[1..], env[1..], id);
      if Blamed(q.world.files, id) {
        TurnBlames(cfg, card, strikes, shortcut, p, pending, env, id);
      }
    }
  }

  /** A job is failed for want of a usable GPU only in a pass that ends a run of
      at least three passes none of which could name the card. */
  lemma NoUsableGpuNeedsARun(cfg: Config, passes: seq<CardState>, shortcut: bool, p: Pass, pending: seq<Spec>,
      env: seq<Luck>, id: string)
    requires Setting(cfg, p, pending, env) && passes != []
    requires !Blamed(p.world.files, id)
    requires Blamed(RunPass(cfg, passes[|passes| - 1], Strikes(passes), shortcut, p, pending, env).world.files, id)
    ensures Unnamed(passes, 3)
  {
    PassBlames(cfg, passes[|passes| - 1], Strikes(passes), shortcut, p, pending, env, id);
    StrikesAreTheTrailingRun(passes);
  }

  lemma StruckTurn(cfg: Config, strikes: nat, shortcut: bool, p: Pass, spec: Spec, e: Luck)
    requires InOrder(cfg, p.world) && AsListed(p.world.files, spec)
    requires strikes >= GPUID_STRIKES && !p.blocked && !p.closed
    ensures var q := Consider(cfg, Unidentified, strikes, shortcut, p, spec, e);
            && !q.blocked && !q.closed
            && (spec.lane.Gpu? && Path(Pending, spec.id) in q.world.files ==> Capacity(cfg, q.world.active, Gpu) <= 0)
  {
    var m := Moved(p, spec, e);
    var v := Decide(cfg, Unidentified, strikes, shortcut, m, spec, e);
    MovedKeepsOrder(cfg, p, spec, e);
    if v.Fail? {
      CarryLeavesPending(cfg, m, spec, e, v);
    }
  }

  /** And once there is such a run, every GPU job for which there is a slot leaves pending/. */
  lemma {:induction false} ARunEndsTheWait(cfg: Config, strikes: nat, shortcut: bool, p: Pass, pending: seq<Spec>,
      env: seq<Luck>, i: nat)
    requires Setting(cfg, p, pending, env) && !p.blocked && !p.closed && strikes >= GPUID_STRIKES
    requires i < |pending| && pending[i].lane.Gpu?
    requires Path(Pending, pending[i].id) in RunPass(cfg, Unidentified, strikes, shortcut, p, pending, env).world.files
    ensures LaneFull(cfg, RunPass(cfg, Unidentified, strikes, shortcut, p, pending, env).world.active, Gpu)
    decreases |pending|
  {
    hide *;
    FirstTurn(cfg, Unidentified, strikes, shortcut, p, pending, env);
    var q := Consider(cfg, Unidentified, strikes, shortcut, p, pending[0], env[0]);
    StruckTurn(cfg, strikes, shortcut, p, pending[0], env[0]);
    if i == 0 {
      RestLeavesFirst(cfg, Unidentified, strikes, shortcut, p, pending, env);
      SlotsOnlyFill(cfg, Unidentified, strikes, shortcut, q, pending[1..], env[1..], Gpu);
      SlotsAreCounted(cfg, RunPass(cfg, Unidentified, strikes, shortcut, p, pending, env).world.active);
    } else {
      assert pending[i] == pending[1..][i - 1];
      ARunEndsTheWait(cfg, strikes, shortcut, q, pending[1..], env[1..], i - 1);
    }
  }

  // ---------------------------------------------------------------------
  // Asking only when it matters
  // ---------------------------------------------------------------------

  /** Not looking at the card is for passes that could not use it, and only those. */
  lemma LookUpExactly(cfg: Config, active: map<string, Job>, pending: seq<Spec>, answer: CardState)
    requires !answer.NotAsked?
    ensures LookUp(cfg, active, pending, answer).NotAsked?
            <==> LaneFull(cfg, active, Gpu) || forall i :: 0 <= i < |pending| ==> pending[i].lane.Cpu?
    ensures LookUp(cfg, active, pending, answer) in {answer, NotAsked}
  {
    SlotsAreCounted(cfg, active);
  }

  lemma AnswerDoesNotMatter(cfg: Config, answer: CardState, strikes: nat, shortcut: bool, p: Pass, spec: Spec, e: Luck)
    requires spec.lane.Cpu? || LaneFull(cfg, p.world.active, Gpu)
    ensures Consider(cfg, NotAsked, strikes, shortcut, p, spec, e)
            == Consider(cfg, answer, strikes, shortcut, p, spec, e)
  {
    hide Carry;
    SlotsAreCounted(cfg, p.world.active);
  }

  lemma {:induction false} UnaskedPass(cfg: Config, answer: CardState, strikes: nat, shortcut: bool, p: Pass,
      pending: seq<Spec>, env: seq<Luck>)
    requires |pending| == |env| && Setting(cfg, p, pending, env)
    requires LaneFull(cfg, p.world.active, Gpu) || forall i :: 0 <= i < |pending| ==> pending[i].lane.Cpu?
    ensures RunPass(cfg, NotAsked, strikes, shortcut, p, pending, env)
            == RunPass(cfg, answer, strikes, shortcut, p, pending, env)
    decreases |pending|
  {
    hide Consider, Setting, LaneFull;
    if pending != [] {
      var q := Consider(cfg, answer, strikes, shortcut, p, pending[0], env[0]);
      AnswerDoesNotMatter(cfg, answer, strikes, shortcut, p, pending[0], env[0]);
      FirstTurn(cfg, answer, strikes, shortcut, p, pending, env);
      LanesStayFull(cfg, answer, strikes, shortcut, p, pending, env);
      UnaskedPass(cfg, answer, strikes, shortcut, q, pending[1..], env[1..]);
    }
  }

  lemma LanesStayFull(cfg: Config, card: CardState, strikes: nat, shortcut: bool, p: Pass, pending: seq<Spec>,
      env: seq<Luck>)
    requires Setting(cfg, p, pending, env) && pending != []
    ensures LaneFull(cfg, p.world.active, Gpu) ==>
              LaneFull(cfg, Consider(cfg, card, strikes, shortcut, p, pending[0], env[0]).world.active, Gpu)
  {
    TurnIsReady(cfg, p, pending, env);
    TurnKeepsLanes(cfg, card, strikes, shortcut, p, pending[0], env[0], Gpu);
    SlotsAreCounted(cfg, p.world.active);
    SlotsAreCounted(cfg, Consider(cfg, card, strikes, shortcut, p, pending[0], env[0]).world.active);
  }

  /** A pass that looks only when there is a GPU job with room does what a pass
      that always looks would do. */
  lemma LookingLessLosesNothing(cfg: Config, answer: CardState, strikes: nat, shortcut: bool, p: Pass,
      pending: seq<Spec>, env: seq<Luck>)
    requires |pending| == |env| && Setting(cfg, p, pending, env) && !answer.NotAsked?
    ensures RunPass(cfg, LookUp(cfg, p.world.active, pending, answer), strikes, shortcut, p, pending, env)
            == RunPass(cfg, answer, strikes, shortcut, p, pending, env)
  {
    hide RunPass, Setting, LookUp;
    LookUpExactly(cfg, p.world.active, pending, answer);
    if LookUp(cfg, p.world.active, pending, answer).NotAsked? {
      UnaskedPass(cfg, answer, strikes, shortcut, p, pending, env);
    }
  }

  lemma RefusingTurn(cfg: Config, card: CardState, strikes: nat, shortcut: bool, p: Pass, spec: Spec, e: Luck)
    requires card.Contended? || card.Unidentified?
    ensures var q := Consider(cfg, card, strikes, shortcut, p, spec, e);
            q.world.taken == p.world.taken && q.world.own == p.world.own
  {
    assert p.world.taken + [] == p.world.taken;
  }

  lemma {:induction false} RefusingPass(cfg: Config, card: CardState, strikes: nat, shortcut: bool, p: Pass,
      pending: seq<Spec>, env: seq<Luck>)
    requires |pending| == |env| && (card.Contended? || card.Unidentified?)
    ensures var end := RunPass(cfg, card, strikes, shortcut, p, pending, env);
            end.world.taken == p.world.taken && end.world.own == p.world.own
    decreases |pending|
  {
    hide Consider;
    if pending != [] {
      RefusingTurn(cfg, card, strikes, shortcut, p, pending[0], env[0]);
      RefusingPass(cfg, card, strikes, shortcut, Consider(cfg, card, strikes, shortcut, p, pending[0], env[0]),
                   pending[1..], env[1..]);
    }
  }

  /** With a stranger on the card, or no name for it, a pass does not touch the ledger. */
  lemma RefusedCardIsNotTaken(cfg: Config, answer: CardState, strikes: nat, shortcut: bool, p: Pass,
      pending: seq<Spec>, env: seq<Luck>)
    requires |pending| == |env| && Setting(cfg, p, pending, env) && (answer.Contended? || answer.Unidentified?)
    ensures var card := LookUp(cfg, p.world.active, pending, answer);
            var end := RunPass(cfg, card, strikes, shortcut, p, pending, env);
            end.world.taken == p.world.taken && end.world.own == p.world.own
  {
    LookingLessLosesNothing(cfg, answer, strikes, shortcut, p, pending, env);
    RefusingPass(cfg, answer, strikes, shortcut, p, pending, env);
  }
}
