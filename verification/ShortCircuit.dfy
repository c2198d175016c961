/**
 Once the card is found closed, the pass stops asking the ledger for the rest
 of its GPU jobs (src/gpuqueue/runner.py, `card_closed`). Here the pass that
 stops is compared with the plain one that tries every job.
 */
module ShortCircuit {
  import opened Base
  import opened Ledger
  import opened Queue
  import opened QueueRuns
  import opened AdmitPass
  import opened AdmitProofs
  import opened AdmitTheorems

  /** A declaration no ledger can ever admit. */
  predicate Hopeless(spec: Spec, usable: Option<int>) {
    spec.lane.Gpu? && (ExceedsCapacity(spec.vram, usable) || !ValidDeclaration(spec.vram))
  }

  /** The plain pass has failed this job; the other one left it unexamined. */
  ghost predicate Unexamined(f: Files, g: Files, id: string, usable: Option<int>) {
    && Path(Pending, id) in f && Hopeless(f[Path(Pending, id)], usable)
    && Path(Pending, id) !in g && Path(Failed, id) in g
  }

  ghost predicate AgreeOrUnexamined(f: Files, g: Files, usable: Option<int>) {
    forall id :: Agree(f, g, id) || Unexamined(f, g, id, usable)
  }

  /** The two runners have the same jobs, the same records and the same history of claims. */
  predicate SameRunner(fast: World, plain: World) {
    && fast.others == plain.others && fast.own == plain.own && fast.active == plain.active
    && fast.taken == plain.taken && fast.released == plain.released
  }

  /** Where the two passes are after the same turns. */
  ghost predicate Together(card: CardState, usable: Option<int>, fast: Pass, plain: Pass, pending: seq<Spec>) {
    && SameRunner(fast.world, plain.world)
    && fast.started == plain.started && fast.closed == plain.closed
    && (!fast.closed ==> fast == plain)
    && (fast.closed ==> !card.Refuses())
    && AgreeOrUnexamined(fast.world.files, plain.world.files, usable)
    && AgreeOn(fast.world.files, plain.world.files, pending)
  }

  ghost predicate AgreeOn(f: Files, g: Files, pending: seq<Spec>) {
    forall i :: 0 <= i < |pending| ==> Agree(f, g, pending[i].id)
  }

  // ---------------------------------------------------------------------
  // The same change on both sides
  // ---------------------------------------------------------------------

  lemma OnlyJobAgrees(f: Files, g: Files, id: string, other: string)
    requires OnlyJob(f, g, id) && other != id
    ensures Agree(f, g, other)
  {
  }

  lemma AgreeChain(a: Files, f: Files, g: Files, b: Files, id: string)
    requires Agree(f, a, id) && Agree(f, g, id) && Agree(g, b, id)
    ensures Agree(a, b, id)
  {
    forall state: State
      ensures SameFile(a, b, Path(state, id))
    {
      assert SameFile(f, a, Path(state, id)) && SameFile(f, g, Path(state, id)) && SameFile(g, b, Path(state, id));
    }
  }

  lemma UnexaminedStays(a: Files, f: Files, g: Files, b: Files, id: string, usable: Option<int>)
    requires Agree(f, a, id) && Unexamined(f, g, id, usable) && Agree(g, b, id)
    ensures Unexamined(a, b, id, usable)
  {
    assert SameFile(f, a, Path(Pending, id)) && SameFile(g, b, Path(Pending, id)) && SameFile(g, b, Path(Failed, id));
  }

  /** A turn changes one job's files; if they agree or are explained afterwards, all are. */
  lemma OneJobApart(f: Files, a: Files, g: Files, b: Files, pending: seq<Spec>, usable: Option<int>)
    requires pending != [] && forall i, j :: 0 <= i < j < |pending| ==> pending[i].id != pending[j].id
    requires AgreeOrUnexamined(f, g, usable) && AgreeOn(f, g, pending)
    requires OnlyJob(f, a, pending[0].id) && OnlyJob(g, b, pending[0].id)
    requires Agree(a, b, pending[0].id) || Unexamined(a, b, pending[0].id, usable)
    ensures AgreeOrUnexamined(a, b, usable) && AgreeOn(a, b, pending[1..])
  {
    forall id | id != pending[0].id
      ensures Agree(f, g, id) ==> Agree(a, b, id)
      ensures Agree(a, b, id) || Unexamined(a, b, id, usable)
    {
      OnlyJobAgrees(f, a, pending[0].id, id);
      OnlyJobAgrees(g, b, pending[0].id, id);
      if Agree(f, g, id) {
        AgreeChain(a, f, g, b, id);
      } else {
        UnexaminedStays(a, f, g, b, id, usable);
      }
    }
    forall i | 0 <= i < |pending[1..]|
      ensures Agree(a, b, pending[1..][i].id)
    {
      assert pending[1..][i] == pending[i + 1] && Agree(f, g, pending[i + 1].id) && pending[0].id != pending[i + 1].id;
    }
  }

  lemma MovedAgrees(p: Pass, q: Pass, spec: Spec, e: Luck)
    requires Agree(p.world.files, q.world.files, spec.id)
    ensures Agree(Moved(p, spec, e).world.files, Moved(q, spec, e).world.files, spec.id)
  {
    assert SameFile(p.world.files, q.world.files, Path(Pending, spec.id));
    forall state: State
      ensures SameFile(Moved(p, spec, e).world.files, Moved(q, spec, e).world.files, Path(state, spec.id))
    {
      assert SameFile(p.world.files, q.world.files, Path(state, spec.id));
    }
  }

  lemma FailPendingAgrees(f: Files, g: Files, id: string, reason: Reason)
    requires Agree(f, g, id)
    requires Path(Pending, id) in f ==> f[Path(Pending, id)].id == id
    ensures Agree(FailPending(f, id, reason), FailPending(g, id, reason), id)
  {
    assert SameFile(f, g, Path(Pending, id));
    forall state: State
      ensures SameFile(FailPending(f, id, reason), FailPending(g, id, reason), Path(state, id))
    {
      assert SameFile(f, g, Path(state, id));
    }
  }

  lemma LaunchedAgrees(cfg: Config, w: World, v: World, spec: Spec, e: Luck)
    requires Agree(w.files, v.files, spec.id) && Path(Pending, spec.id) in w.files && Path(Pending, spec.id) in v.files
    requires w.files[Path(Pending, spec.id)] == v.files[Path(Pending, spec.id)]
    ensures Agree(Launched(cfg, w, spec, e).files, Launched(cfg, v, spec, e).files, spec.id)
  {
    forall state: State
      ensures SameFile(Launched(cfg, w, spec, e).files, Launched(cfg, v, spec, e).files, Path(state, spec.id))
    {
      assert SameFile(w.files, v.files, Path(state, spec.id));
    }
  }

  lemma BeginAgrees(cfg: Config, w: World, v: World, spec: Spec, e: Luck)
    requires SameRunner(w, v) && Agree(w.files, v.files, spec.id) && AsListed(w.files, spec)
    ensures Starts(w, spec, e) == Starts(v, spec, e)
    ensures SameRunner(Begin(cfg, w, spec, e), Begin(cfg, v, spec, e))
    ensures Agree(Begin(cfg, w, spec, e).files, Begin(cfg, v, spec, e).files, spec.id)
  {
    assert SameFile(w.files, v.files, Path(Pending, spec.id));
    if Starts(w, spec, e) {
      LaunchedAgrees(cfg, w, v, spec, e);
    } else {
      FailPendingAgrees(w.files, v.files, spec.id, if e.checksOut then StartFailed else CheckoutFailed);
    }
  }

  /** The same verdict does the same to both. */
  lemma CarryAgrees(cfg: Config, p: Pass, q: Pass, spec: Spec, e: Luck, v: Verdict)
    requires SameRunner(p.world, q.world) && p.started == q.started && p.closed == q.closed
    requires Agree(p.world.files, q.world.files, spec.id) && AsListed(p.world.files, spec)
    ensures var a, b := Carry(cfg, p, spec, e, v), Carry(cfg, q, spec, e, v);
            && SameRunner(a.world, b.world) && a.started == b.started && a.closed == b.closed
            && Agree(a.world.files, b.world.files, spec.id)
  {
    match v {
      case Try => BeginAgrees(cfg, p.world, q.world, spec, e);
      case Fail(reason) => FailPendingAgrees(p.world.files, q.world.files, spec.id, reason);
      case _ =>
    }
  }

  // ---------------------------------------------------------------------
  // One turn on a closed card
  // ---------------------------------------------------------------------

  /** On a closed card the plain pass can only do to a GPU job what leaves the
      runner alone: fail a hopeless one, time out on the mutex, or be refused. */
  lemma ClosedVerdicts(cfg: Config, card: CardState, strikes: nat, usable: Option<int>, m: Pass, n: Pass, spec: Spec,
      e: Luck)
    requires SameRunner(m.world, n.world) && m.closed && n.closed && e.usable == usable && !card.Refuses()
    requires HoldersOk(n.world) && Closed(cfg, usable, n.world)
    ensures var a := Decide(cfg, card, strikes, true, m, spec, e);
            var b := Decide(cfg, card, strikes, false, n, spec, e);
            a == b || (a.Skip? && (b.CloseCard? || b.BlockMutex? || (b.Fail? && Hopeless(spec, usable))))
  {
    CardIsClosedExact(Holders(n.world), usable, HolderCap(cfg));
  }

  lemma FailedIsUnexamined(f: Files, g: Files, spec: Spec, reason: Reason, usable: Option<int>)
    requires Good(g) && Agree(f, g, spec.id) && AsListed(f, spec) && Hopeless(spec, usable)
    ensures var b := FailPending(g, spec.id, reason);
            Agree(f, b, spec.id) || Unexamined(f, b, spec.id, usable)
  {
    assert SameFile(f, g, Path(Pending, spec.id));
    FailPendingIsOneMove(g, spec.id, reason);
  }

  lemma ClosedTurn(cfg: Config, card: CardState, strikes: nat, usable: Option<int>, m: Pass, n: Pass, spec: Spec,
      e: Luck)
    requires SameRunner(m.world, n.world) && m.started == n.started && m.closed && n.closed
    requires e.usable == usable && !card.Refuses()
    requires HoldersOk(n.world) && Closed(cfg, usable, n.world)
    requires Agree(m.world.files, n.world.files, spec.id) && AsListed(m.world.files, spec) && Good(n.world.files)
    ensures var a := Carry(cfg, m, spec, e, Decide(cfg, card, strikes, true, m, spec, e));
            var b := Carry(cfg, n, spec, e, Decide(cfg, card, strikes, false, n, spec, e));
            && SameRunner(a.world, b.world) && a.started == b.started && a.closed && b.closed
            && (|| Agree(a.world.files, b.world.files, spec.id)
                || Unexamined(a.world.files, b.world.files, spec.id, usable))
  {
    ClosedVerdicts(cfg, card, strikes, usable, m, n, spec, e);
    var v, w := Decide(cfg, card, strikes, true, m, spec, e), Decide(cfg, card, strikes, false, n, spec, e);
    if v == w {
      CarryAgrees(cfg, m, n, spec, e, v);
    } else if w.Fail? {
      FailedIsUnexamined(m.world.files, n.world.files, spec, w.reason, usable);
    }
  }

  /** The turn the two passes take together. */
  lemma TurnTogether(cfg: Config, card: CardState, strikes: nat, usable: Option<int>, fast: Pass, plain: Pass,
      pending: seq<Spec>, env: seq<Luck>)
    requires |pending| == |env| && pending != []
    requires Underway(cfg, usable, fast, pending, env) && Underway(cfg, usable, plain, pending, env)
    requires Together(card, usable, fast, plain, pending)
    ensures Together(card, usable, Consider(cfg, card, strikes, true, fast, pending[0], env[0]),
                     Consider(cfg, card, strikes, false, plain, pending[0], env[0]), pending[1..])
  {
    var spec, e := pending[0], env[0];
    if !fast.closed {
      OpenTurn(cfg, card, strikes, fast, spec, e);
      AgreesWithItself(Consider(cfg, card, strikes, true, fast, spec, e).world.files);
    } else {
      TurnKeepsSetting(cfg, card, strikes, true, fast, pending, env);
      TurnKeepsSetting(cfg, card, strikes, false, plain, pending, env);
      OthersMeetOwn(plain.world, env);
      MovedStaysClosed(cfg, usable, plain, spec, e);
      MovedAgrees(fast, plain, spec, e);
      MovedKeepsOrder(cfg, fast, spec, e);
      MovedKeepsOrder(cfg, plain, spec, e);
      ClosedTurn(cfg, card, strikes, usable, Moved(fast, spec, e), Moved(plain, spec, e), spec, e);
      OneJobApart(fast.world.files, Consider(cfg, card, strikes, true, fast, spec, e).world.files,
                  plain.world.files, Consider(cfg, card, strikes, false, plain, spec, e).world.files, pending, usable);
    }
  }

  lemma OpenTurn(cfg: Config, card: CardState, strikes: nat, p: Pass, spec: Spec, e: Luck)
    requires !p.closed
    ensures Consider(cfg, card, strikes, true, p, spec, e) == Consider(cfg, card, strikes, false, p, spec, e)
    ensures Consider(cfg, card, strikes, true, p, spec, e).closed ==> !card.Refuses()
  {
  }

  lemma AgreesWithItself(f: Files)
    ensures forall id :: Agree(f, f, id)
  {
  }

  // ---------------------------------------------------------------------
  // The whole pass
  // ---------------------------------------------------------------------

  lemma {:induction false} PassTogether(cfg: Config, card: CardState, strikes: nat, usable: Option<int>, fast: Pass,
      plain: Pass, pending: seq<Spec>, env: seq<Luck>)
    requires |pending| == |env|
    requires Underway(cfg, usable, fast, pending, env) && Underway(cfg, usable, plain, pending, env)
    requires Together(card, usable, fast, plain, pending)
    ensures Together(card, usable, RunPass(cfg, card, strikes, true, fast, pending, env),
                     RunPass(cfg, card, strikes, false, plain, pending, env), [])
    decreases |pending|
  {
    if pending != [] {
      NextTurn(cfg, card, strikes, true, usable, fast, pending, env);
      NextTurn(cfg, card, strikes, false, usable, plain, pending, env);
      TurnTogether(cfg, card, strikes, usable, fast, plain, pending, env);
      PassTogether(cfg, card, strikes, usable, Consider(cfg, card, strikes, true, fast, pending[0], env[0]),
                   Consider(cfg, card, strikes, false, plain, pending[0], env[0]), pending[1..], env[1..]);
    }
  }

  /** Stopping at a closed card starts the same jobs, in the same order, takes
      and gives back the same claims, and leaves the same records as trying every
      job. The files agree too, except that a hopeless GPU job which the plain pass
      found and failed may merely still be pending. */
  lemma {:induction false} ShortcutStartsTheSameJobs(cfg: Config, card: CardState, strikes: nat, usable: Option<int>,
      p: Pass, pending: seq<Spec>, env: seq<Luck>)
    requires Setting(cfg, p, pending, env) && Stable(p.world, env, usable) && FreshPass(p)
    ensures var fast := RunPass(cfg, card, strikes, true, p, pending, env);
            var plain := RunPass(cfg, card, strikes, false, p, pending, env);
            && fast.started == plain.started
            && SameRunner(fast.world, plain.world)
            && AgreeOrUnexamined(fast.world.files, plain.world.files, usable)
            && (!fast.closed ==> fast == plain)
  {
    AgreesWithItself(p.world.files);
    PassTogether(cfg, card, strikes, usable, p, p, pending, env);
  }
}
