/** What a whole admission pass achieves (src/gpuqueue/runner.py, `admit`). */
module AdmitTheorems {
  import opened Base
  import opened Ledger
  import opened Queue
  import opened Sorting
  import opened QueueRuns
  import opened AdmitPass
  import opened AdmitProofs

  // ---------------------------------------------------------------------
  // What a pass starts from
  // ---------------------------------------------------------------------

  ghost predicate HoldersOk(w: World) {
    DistinctPaths(Holders(w)) && PositiveDeclarations(Holders(w))
  }

  predicate Closed(cfg: Config, usable: Option<int>, w: World) {
    CardIsClosed(Holders(w), usable, HolderCap(cfg))
  }

  /** The `card_closed` flag is only up while the card is closed. */
  ghost predicate ClosedOk(cfg: Config, usable: Option<int>, p: Pass) {
    p.closed ==> HoldersOk(p.world) && Closed(cfg, usable, p.world)
  }

  /** The runner's books are in order, and the surroundings are as assumed. */
  ghost predicate Setting(cfg: Config, p: Pass, pending: seq<Spec>, env: seq<Luck>) {
    && |pending| == |env|
    && InOrder(cfg, p.world) && Listed(p.world.files, pending) && Sane(p.world, env)
  }

  lemma OthersMeetOwn(w: World, env: seq<Luck>)
    requires Sane(w, env) && env != []
    ensures HoldersOk(w.(others := env[0].others))
  {
    assert DistinctPaths(env[0].others) && PositiveDeclarations(env[0].others) && Apart(env[0].others, w.own);
  }

  /** Only a valid declaration is ever written into the ledger, under a new token. */
  lemma TurnOwns(cfg: Config, card: CardState, strikes: nat, shortcut: bool, p: Pass, spec: Spec, e: Luck)
    ensures var q := Consider(cfg, card, strikes, shortcut, p, spec, e);
            && (q.world.taken == p.world.taken || q.world.taken == p.world.taken + [e.token])
            && (q.world.own == p.world.own
                || (exists r: Record :: q.world.own == p.world.own + [r] && r.path == e.token && ValidWant(r.vramMb)))
  {
    var m := Moved(p, spec, e);
    var q := Consider(cfg, card, strikes, shortcut, p, spec, e);
    if Decide(cfg, card, strikes, shortcut, m, spec, e).Try? {
      assert m.world.taken + [] == m.world.taken;
      if spec.lane.Gpu? && Starts(m.world, spec, e) {
        var r := ClaimRecord(cfg, spec, e).(usagePid := Some(e.pid));
        assert q.world.own == p.world.own + [r] && r.path == e.token && ValidWant(r.vramMb);
      }
    }
  }

  lemma TurnKeepsSane(cfg: Config, card: CardState, strikes: nat, shortcut: bool, p: Pass, spec: Spec, env: seq<Luck>)
    requires env != [] && Sane(p.world, env) && NotNamed(env[0].token, p.world.own)
    ensures var q := Consider(cfg, card, strikes, shortcut, p, spec, env[0]);
            Sane(q.world, env[1..])
  {
    var e := env[0];
    var q := Consider(cfg, card, strikes, shortcut, p, spec, e);
    TurnOwns(cfg, card, strikes, shortcut, p, spec, e);
    TokensStayNew(p.world, q.world, env);
    if q.world.own != p.world.own {
      var r: Record :| q.world.own == p.world.own + [r] && r.path == e.token && ValidWant(r.vramMb);
      OneMoreOwn(p.world, q.world, env, r);
    }
  }

  lemma TokensStayNew(w: World, v: World, env: seq<Luck>)
    requires env != [] && Sane(w, env)
    requires v.taken == w.taken || v.taken == w.taken + [env[0].token]
    ensures forall k :: 0 <= k < |env[1..]| ==> env[1..][k].token !in v.taken
  {
    forall k | 0 <= k < |env[1..]|
      ensures env[1..][k].token !in v.taken
    {
      assert env[1..][k] == env[k + 1] && env[k + 1].token !in w.taken;
      assert env[0].token != env[k + 1].token;
    }
  }

  lemma OneMoreOwn(w: World, v: World, env: seq<Luck>, r: Record)
    requires env != [] && Sane(w, env)
    requires v.own == w.own + [r] && r.path == env[0].token && ValidWant(r.vramMb) && NotNamed(r.path, w.own)
    ensures DistinctPaths(v.own) && PositiveDeclarations(v.own)
    ensures forall k :: 0 <= k < |env[1..]| ==> Apart(env[1..][k].others, v.own)
  {
    forall k | 0 <= k < |env[1..]|
      ensures Apart(env[1..][k].others, v.own)
    {
      assert env[1..][k] == env[k + 1] && Apart(env[k + 1].others, w.own) && NotNamed(env[0].token, env[k + 1].others);
    }
  }

  /** What a turn relies on. */
  lemma TurnIsReady(cfg: Config, p: Pass, pending: seq<Spec>, env: seq<Luck>)
    requires Setting(cfg, p, pending, env) && pending != []
    ensures |env| == |pending| && InOrder(cfg, p.world) && Sane(p.world, env)
    ensures WellNamed(p.world.files) && AsListed(p.world.files, pending[0])
    ensures env[0].token !in p.world.taken && NotNamed(env[0].token, p.world.own)
  {
    assert env[0].token !in p.world.taken;
    NewTokenIsNotNamed(p.world, env[0].token);
  }

  lemma RestIsListed(files: Files, after: Files, pending: seq<Spec>)
    requires Listed(files, pending) && pending != [] && OnlyJob(files, after, pending[0].id)
    ensures Listed(after, pending[1..])
  {
    forall i | 0 <= i < |pending[1..]| && Path(Pending, pending[1..][i].id) in after
      ensures after[Path(Pending, pending[1..][i].id)] == pending[1..][i]
    {
      assert pending[1..][i] == pending[i + 1] && pending[0].id != pending[i + 1].id;
    }
  }

  /** The rest of the pass starts from where a turn ends. */
  lemma TurnKeepsSetting(cfg: Config, card: CardState, strikes: nat, shortcut: bool, p: Pass, pending: seq<Spec>,
      env: seq<Luck>)
    requires Setting(cfg, p, pending, env) && pending != []
    ensures var q := Consider(cfg, card, strikes, shortcut, p, pending[0], env[0]);
            && Setting(cfg, q, pending[1..], env[1..])
            && OnlyJob(p.world.files, q.world.files, pending[0].id)
            && (p.world.others <= env[0].others ==> Grows(p.world, q.world))
  {
    hide InOrder, Consider, Sane, Grows, Listed, OnlyJob, AsListed, NotNamed;
    var q := Consider(cfg, card, strikes, shortcut, p, pending[0], env[0]);
    TurnIsReady(cfg, p, pending, env);
    TurnKeepsOrder(cfg, card, strikes, shortcut, p, pending[0], env[0]);
    TurnKeepsSane(cfg, card, strikes, shortcut, p, pending[0], env);
    RestIsListed(p.world.files, q.world.files, pending);
  }

  // ---------------------------------------------------------------------
  // No leaked hold
  // ---------------------------------------------------------------------

  /** A pass keeps the one-to-one link between the runner's records and its
      active GPU jobs, gives back every claim it does not keep, and stays within the
      slots, whatever fails and whoever else comes or goes. */
  lemma {:induction false} PassKeepsOrder(cfg: Config, card: CardState, strikes: nat, shortcut: bool, p: Pass,
      pending: seq<Spec>, env: seq<Luck>)
    requires Setting(cfg, p, pending, env)
    ensures InOrder(cfg, RunPass(cfg, card, strikes, shortcut, p, pending, env).world)
    decreases |pending|
  {
    if pending != [] {
      TurnKeepsSetting(cfg, card, strikes, shortcut, p, pending, env);
      PassKeepsOrder(cfg, card, strikes, shortcut, Consider(cfg, card, strikes, shortcut, p, pending[0], env[0]),
          pending[1..], env[1..]);
    }
  }

  lemma TurnStartsOnlyItsJob(cfg: Config, card: CardState, strikes: nat, shortcut: bool, p: Pass, spec: Spec, e: Luck,
      id: string)
    requires id != spec.id
    ensures id in Consider(cfg, card, strikes, shortcut, p, spec, e).started <==> id in p.started
  {
  }

  /** A job that is not among those considered stays where it is. */
  lemma {:induction false} PassLeavesOthers(cfg: Config, card: CardState, strikes: nat, shortcut: bool, p: Pass,
      pending: seq<Spec>, env: seq<Luck>, id: string)
    requires Setting(cfg, p, pending, env)
    requires forall i :: 0 <= i < |pending| ==> pending[i].id != id
    ensures var end := RunPass(cfg, card, strikes, shortcut, p, pending, env);
            && (Path(Pending, id) in end.world.files <==> Path(Pending, id) in p.world.files)
            && (id in end.started <==> id in p.started)
    decreases |pending|
  {
    if pending != [] {
      var q := Consider(cfg, card, strikes, shortcut, p, pending[0], env[0]);
      var end := RunPass(cfg, card, strikes, shortcut, p, pending, env);
      TurnKeepsSetting(cfg, card, strikes, shortcut, p, pending, env);
      TurnStartsOnlyItsJob(cfg, card, strikes, shortcut, p, pending[0], env[0], id);
      assert Path(Pending, id) in q.world.files <==> Path(Pending, id) in p.world.files;
      PassLeavesOthers(cfg, card, strikes, shortcut, q, pending[1..], env[1..], id);
      assert end == RunPass(cfg, card, strikes, shortcut, q, pending[1..], env[1..]);
    }
  }

  /** After its own turn a job is left alone. */
  lemma RestLeavesFirst(cfg: Config, card: CardState, strikes: nat, shortcut: bool, p: Pass, pending: seq<Spec>,
      env: seq<Luck>)
    requires |pending| == |env| && Setting(cfg, p, pending, env) && pending != []
    ensures var q := Consider(cfg, card, strikes, shortcut, p, pending[0], env[0]);
            var end := RunPass(cfg, card, strikes, shortcut, p, pending, env);
            && (pending[0].id in end.started <==> pending[0].id in q.started)
            && (Path(Pending, pending[0].id) in end.world.files <==> Path(Pending, pending[0].id) in q.world.files)
  {
    TurnKeepsSetting(cfg, card, strikes, shortcut, p, pending, env);
    PassLeavesOthers(cfg, card, strikes, shortcut, Consider(cfg, card, strikes, shortcut, p, pending[0], env[0]),
        pending[1..], env[1..], pending[0].id);
  }

  /** A pass is its first turn and then the rest of the pass. */
  lemma FirstTurn(cfg: Config, card: CardState, strikes: nat, shortcut: bool, p: Pass, pending: seq<Spec>,
      env: seq<Luck>)
    requires Setting(cfg, p, pending, env) && pending != []
    ensures |env| == |pending| && InOrder(cfg, p.world) && AsListed(p.world.files, pending[0])
    ensures Setting(cfg, Consider(cfg, card, strikes, shortcut, p, pending[0], env[0]), pending[1..], env[1..])
    ensures RunPass(cfg, card, strikes, shortcut, p, pending, env)
            == RunPass(cfg, card, strikes, shortcut, Consider(cfg, card, strikes, shortcut, p, pending[0], env[0]),
                pending[1..], env[1..])
  {
    TurnKeepsSetting(cfg, card, strikes, shortcut, p, pending, env);
  }

  // ---------------------------------------------------------------------
  // Why a job is still pending, and that the reason lasts
  // ---------------------------------------------------------------------

  predicate CouldTake(cfg: Config, usable: Option<int>, w: World, spec: Spec) {
    && ValidDeclaration(spec.vram) && !ExceedsCapacity(spec.vram, usable)
    && Fits(Holders(w), AsWant(spec.vram), usable, HolderCap(cfg))
  }

  ghost predicate Barred(cfg: Config, card: CardState, usable: Option<int>, p: Pass, a: Spec) {
    || card.Refuses()
    || p.blocked
    || Capacity(cfg, p.world.active, Gpu) <= 0
    || (HoldersOk(p.world)
        && (Closed(cfg, usable, p.world)
            || (ValidDeclaration(a.vram) && !ExceedsCapacity(a.vram, usable) && !CouldTake(cfg, usable, p.world, a))))
  }

  lemma HoldersGrow(w: World, v: World)
    requires Grows(w, v)
    ensures AllChargedIn(Holders(w), Holders(v))
  {
    forall i | 0 <= i < |Holders(w)|
      ensures ChargedIn(Holders(w)[i], Holders(v))
    {
      var j := if i < |w.others| then i else |v.others| + (i - |w.others|);
      assert Holders(v)[j] == Holders(w)[i];
    }
  }

  lemma CapacityOnlyFalls(cfg: Config, w: World, v: World, lane: Lane)
    requires Grows(w, v)
    ensures Capacity(cfg, v.active, lane) <= Capacity(cfg, w.active, lane)
  {
    SubsetIsSmaller(LaneIds(w.active, lane), LaneIds(v.active, lane));
  }

  lemma {:induction false} SubsetIsSmaller(a: set<string>, b: set<string>)
    requires a <= b
    ensures |a| <= |b|
    decreases a
  {
    assert b == a + (b - a);
  }

  lemma BarredLasts(cfg: Config, card: CardState, usable: Option<int>, p: Pass, q: Pass, a: Spec)
    requires Barred(cfg, card, usable, p, a)
    requires Grows(p.world, q.world) && HoldersOk(q.world) && (p.blocked ==> q.blocked)
    ensures Barred(cfg, card, usable, q, a)
  {
    HoldersGrow(p.world, q.world);
    CapacityOnlyFalls(cfg, p.world, q.world, Gpu);
    if HoldersOk(p.world) {
      if Closed(cfg, usable, p.world) {
        ClosedIsMonotone(Holders(p.world), Holders(q.world), usable, HolderCap(cfg));
      } else if CouldTake(cfg, usable, q.world, a) {
        FitsAntitone(Holders(p.world), Holders(q.world), AsWant(a.vram), usable, HolderCap(cfg));
      }
    }
  }

  /** Every verdict that leaves the files alone is a reason that bars the job. */
  lemma StayingBars(cfg: Config, card: CardState, strikes: nat, shortcut: bool, usable: Option<int>, m: Pass, a: Spec,
      e: Luck)
    requires e.usable == usable && a.lane.Gpu?
    requires HoldersOk(m.world) && (m.closed ==> Closed(cfg, usable, m.world))
    ensures var v := Decide(cfg, card, strikes, shortcut, m, a, e);
            v.Try? || v.Fail? || Barred(cfg, card, usable, Carry(cfg, m, a, e, v), a)
  {
  }

  /** A turn leaves a GPU job pending only for a reason that bars it from the card. */
  lemma {:induction false} StillPendingIsBarred(cfg: Config, card: CardState, strikes: nat, shortcut: bool,
      usable: Option<int>, p: Pass, a: Spec, e: Luck)
    requires InOrder(cfg, p.world) && AsListed(p.world.files, a) && e.token !in p.world.taken
    requires p.world.others <= e.others && HoldersOk(p.world.(others := e.others))
    requires e.usable == usable && a.lane.Gpu? && ClosedOk(cfg, usable, p)
    ensures var q := Consider(cfg, card, strikes, shortcut, p, a, e);
            Path(Pending, a.id) in q.world.files ==> Barred(cfg, card, usable, q, a)
  {
    var m := Moved(p, a, e);
    var v := Decide(cfg, card, strikes, shortcut, m, a, e);
    MovedKeepsOrder(cfg, p, a, e);
    if v.Try? || v.Fail? {
      CarryLeavesPending(cfg, m, a, e, v);
    }
    MovedStaysClosed(cfg, usable, p, a, e);
    StayingBars(cfg, card, strikes, shortcut, usable, m, a, e);
  }

  lemma CarryLeavesPending(cfg: Config, m: Pass, spec: Spec, e: Luck, v: Verdict)
    requires Good(m.world.files) && AsListed(m.world.files, spec) && (v.Try? || v.Fail?)
    ensures Path(Pending, spec.id) !in Carry(cfg, m, spec, e, v).world.files
  {
    if v.Fail? {
      FailPendingIsOneMove(m.world.files, spec.id, v.reason);
    } else if Starts(m.world, spec, e) {
      StartIsOneMove(m.world.files, spec.id, StartedSpec(cfg, spec, e));
    } else {
      FailPendingIsOneMove(m.world.files, spec.id, if e.checksOut then StartFailed else CheckoutFailed);
    }
  }

  lemma MovedStaysClosed(cfg: Config, usable: Option<int>, p: Pass, spec: Spec, e: Luck)
    requires p.world.others <= e.others && HoldersOk(p.world.(others := e.others))
    requires ClosedOk(cfg, usable, p)
    ensures ClosedOk(cfg, usable, Moved(p, spec, e))
  {
    var m := Moved(p, spec, e);
    if p.closed {
      HoldersGrow(p.world, m.world);
      ClosedIsMonotone(Holders(p.world), Holders(m.world), usable, HolderCap(cfg));
    }
  }

  lemma StableTail(w: World, v: World, env: seq<Luck>, usable: Option<int>)
    requires env != [] && Stable(w, env, usable) && v.others == env[0].others
    ensures Stable(v, env[1..], usable)
  {
    forall k | 0 <= k < |env[1..]|
      ensures env[1..][k] == env[k + 1]
    {
    }
  }

  /** The flag goes up only when the ledger is found closed, and then this turn takes nothing. */
  lemma ClosingTurn(cfg: Config, card: CardState, strikes: nat, shortcut: bool, p: Pass, spec: Spec, e: Luck)
    ensures var q := Consider(cfg, card, strikes, shortcut, p, spec, e);
            && (q.closed && !p.closed ==> Closed(cfg, e.usable, q.world))
            && (p.closed ==> q.closed) && (p.blocked ==> q.blocked)
  {
  }

  lemma TurnKeepsClosedOk(cfg: Config, card: CardState, strikes: nat, shortcut: bool, usable: Option<int>, p: Pass,
      pending: seq<Spec>, env: seq<Luck>)
    requires Setting(cfg, p, pending, env) && pending != [] && Stable(p.world, env, usable)
    requires ClosedOk(cfg, usable, p)
    ensures var q := Consider(cfg, card, strikes, shortcut, p, pending[0], env[0]);
            && ClosedOk(cfg, usable, q)
            && Stable(q.world, env[1..], usable)
            && HoldersOk(q.world)
            && (p.blocked ==> q.blocked)
  {
    var q := Consider(cfg, card, strikes, shortcut, p, pending[0], env[0]);
    NewTokenIsNotNamed(p.world, env[0].token);
    TurnKeepsOrder(cfg, card, strikes, shortcut, p, pending[0], env[0]);
    StableTail(p.world, q.world, env, usable);
    TurnHoldersOk(cfg, card, strikes, shortcut, p, pending[0], env);
    ClosingTurn(cfg, card, strikes, shortcut, p, pending[0], env[0]);
    if p.closed {
      HoldersGrow(p.world, q.world);
      ClosedIsMonotone(Holders(p.world), Holders(q.world), usable, HolderCap(cfg));
    }
  }

  lemma OneMoreRecord(records: seq<Record>, r: Record)
    requires DistinctPaths(records) && PositiveDeclarations(records)
    requires NotNamed(r.path, records) && ValidWant(r.vramMb)
    ensures DistinctPaths(records + [r]) && PositiveDeclarations(records + [r])
  {
  }

  lemma TurnHoldersOk(cfg: Config, card: CardState, strikes: nat, shortcut: bool, p: Pass, spec: Spec, env: seq<Luck>)
    requires env != [] && Sane(p.world, env) && NotNamed(env[0].token, p.world.own)
    ensures HoldersOk(Consider(cfg, card, strikes, shortcut, p, spec, env[0]).world)
  {
    var q := Consider(cfg, card, strikes, shortcut, p, spec, env[0]);
    var others, own := env[0].others, p.world.own;
    OthersMeetOwn(p.world, env);
    TurnOwns(cfg, card, strikes, shortcut, p, spec, env[0]);
    assert q.world.others == others;
    if q.world.own != own {
      var r: Record :| q.world.own == own + [r] && r.path == env[0].token && ValidWant(r.vramMb);
      assert NotNamed(r.path, others);
      OneMoreRecord(others + own, r);
      assert others + (own + [r]) == others + own + [r];
    }
  }

  /** A GPU job that asks for no less than `a`. */
  ghost predicate AsksAsMuch(b: Spec, a: Spec) {
    b.lane.Gpu? && AsksNoMore(AsWant(a.vram), AsWant(b.vram))
  }

  /** While `a` is barred, no job that asks for at least as much is started. */
  lemma BarredStopsBiggerAsks(cfg: Config, card: CardState, strikes: nat, shortcut: bool, usable: Option<int>, p: Pass,
      a: Spec, b: Spec, e: Luck)
    requires Barred(cfg, card, usable, Moved(p, b, e), a)
    requires AsksAsMuch(b, a) && e.usable == usable
    ensures Consider(cfg, card, strikes, shortcut, p, b, e).started == p.started
  {
    var m := Moved(p, b, e);
    if Decide(cfg, card, strikes, shortcut, m, b, e).Try? {
      if Closed(cfg, usable, m.world) {
        CardIsClosedExact(Holders(m.world), usable, HolderCap(cfg));
      } else {
        SmallerAskFits(Holders(m.world), AsWant(a.vram), AsWant(b.vram), usable, HolderCap(cfg));
      }
      assert false;
    }
  }

  /** A pass under way in stable surroundings. */
  ghost predicate Underway(cfg: Config, usable: Option<int>, p: Pass, pending: seq<Spec>, env: seq<Luck>) {
    Setting(cfg, p, pending, env) && Stable(p.world, env, usable) && ClosedOk(cfg, usable, p)
  }

  /** A barred job is still barred after a turn, and the turn starts no larger ask. */
  lemma BarredTurn(cfg: Config, card: CardState, strikes: nat, shortcut: bool, usable: Option<int>, p: Pass,
      pending: seq<Spec>, env: seq<Luck>, a: Spec)
    requires |pending| == |env| && Underway(cfg, usable, p, pending, env)
    requires pending != [] && Barred(cfg, card, usable, p, a)
    ensures var q := Consider(cfg, card, strikes, shortcut, p, pending[0], env[0]);
            && Barred(cfg, card, usable, q, a)
            && (AsksAsMuch(pending[0], a) ==> q.started == p.started)
  {
    var q := Consider(cfg, card, strikes, shortcut, p, pending[0], env[0]);
    TurnKeepsSetting(cfg, card, strikes, shortcut, p, pending, env);
    TurnKeepsClosedOk(cfg, card, strikes, shortcut, usable, p, pending, env);
    BarredLasts(cfg, card, usable, p, q, a);
    if AsksAsMuch(pending[0], a) {
      var m := Moved(p, pending[0], env[0]);
      OthersMeetOwn(p.world, env);
      assert HoldersOk(m.world) by {
        assert Holders(m.world) == Holders(p.world.(others := env[0].others));
      }
      BarredLasts(cfg, card, usable, p, m, a);
      BarredStopsBiggerAsks(cfg, card, strikes, shortcut, usable, p, a, pending[0], env[0]);
    }
  }

  lemma NextTurn(cfg: Config, card: CardState, strikes: nat, shortcut: bool, usable: Option<int>, p: Pass,
      pending: seq<Spec>, env: seq<Luck>)
    requires Underway(cfg, usable, p, pending, env) && pending != []
    ensures |env| == |pending| && Setting(cfg, p, pending, env)
    ensures Underway(cfg, usable, Consider(cfg, card, strikes, shortcut, p, pending[0], env[0]), pending[1..], env[1..])
    ensures RunPass(cfg, card, strikes, shortcut, p, pending, env)
            == RunPass(cfg, card, strikes, shortcut, Consider(cfg, card, strikes, shortcut, p, pending[0], env[0]),
                pending[1..], env[1..])
  {
    TurnKeepsSetting(cfg, card, strikes, shortcut, p, pending, env);
    TurnKeepsClosedOk(cfg, card, strikes, shortcut, usable, p, pending, env);
  }

  /** What bars a job at one point bars it to the end. */
  lemma {:induction false} BarredToTheEnd(cfg: Config, card: CardState, strikes: nat, shortcut: bool,
      usable: Option<int>, p: Pass, pending: seq<Spec>, env: seq<Luck>, a: Spec)
    requires |pending| == |env| && Underway(cfg, usable, p, pending, env)
    requires Barred(cfg, card, usable, p, a)
    ensures Barred(cfg, card, usable, RunPass(cfg, card, strikes, shortcut, p, pending, env), a)
    decreases |pending|
  {
    if pending != [] {
      NextTurn(cfg, card, strikes, shortcut, usable, p, pending, env);
      BarredTurn(cfg, card, strikes, shortcut, usable, p, pending, env, a);
      var q := Consider(cfg, card, strikes, shortcut, p, pending[0], env[0]);
      BarredToTheEnd(cfg, card, strikes, shortcut, usable, q, pending[1..], env[1..], a);
    }
  }

  /** A later job that asks for at least as much as a barred one is not started. */
  lemma {:induction false} BiggerAskWaits(cfg: Config, card: CardState, strikes: nat, shortcut: bool,
      usable: Option<int>, p: Pass, pending: seq<Spec>, env: seq<Luck>, a: Spec, j: nat)
    requires |pending| == |env| && Underway(cfg, usable, p, pending, env)
    requires Barred(cfg, card, usable, p, a)
    requires j < |pending| && AsksAsMuch(pending[j], a)
    ensures pending[j].id in RunPass(cfg, card, strikes, shortcut, p, pending, env).started
            <==> pending[j].id in p.started
    decreases |pending|
  {
    hide *;
    var q := Consider(cfg, card, strikes, shortcut, p, pending[0], env[0]);
    NextTurn(cfg, card, strikes, shortcut, usable, p, pending, env);
    BarredTurn(cfg, card, strikes, shortcut, usable, p, pending, env, a);
    if j == 0 {
      RestLeavesFirst(cfg, card, strikes, shortcut, p, pending, env);
    } else {
      assert pending[j] == pending[1..][j - 1];
      StartsInOwnTurn(cfg, card, strikes, shortcut, usable, p, pending, env, j);
      BiggerAskWaits(cfg, card, strikes, shortcut, usable, q, pending[1..], env[1..], a, j - 1);
    }
  }

  lemma StartsInOwnTurn(cfg: Config, card: CardState, strikes: nat, shortcut: bool, usable: Option<int>, p: Pass,
      pending: seq<Spec>, env: seq<Luck>, j: nat)
    requires |pending| == |env| && Underway(cfg, usable, p, pending, env) && 0 < j < |pending|
    ensures pending[j].id in Consider(cfg, card, strikes, shortcut, p, pending[0], env[0]).started
            <==> pending[j].id in p.started
  {
    TurnStartsOnlyItsJob(cfg, card, strikes, shortcut, p, pending[0], env[0], pending[j].id);
  }

  /** A GPU job that is still pending at the end is barred at the end. */
  lemma {:induction false} PendingIsBarred(cfg: Config, card: CardState, strikes: nat, shortcut: bool,
      usable: Option<int>, p: Pass, pending: seq<Spec>, env: seq<Luck>, i: nat)
    requires |pending| == |env| && Underway(cfg, usable, p, pending, env)
    requires i < |pending| && pending[i].lane.Gpu?
    requires Path(Pending, pending[i].id) in RunPass(cfg, card, strikes, shortcut, p, pending, env).world.files
    ensures Barred(cfg, card, usable, RunPass(cfg, card, strikes, shortcut, p, pending, env), pending[i])
    decreases |pending|
  {
    hide *;
    var q := Consider(cfg, card, strikes, shortcut, p, pending[0], env[0]);
    NextTurn(cfg, card, strikes, shortcut, usable, p, pending, env);
    if i == 0 {
      PendingIsBarredAtOnce(cfg, card, strikes, shortcut, usable, p, pending, env);
      BarredToTheEnd(cfg, card, strikes, shortcut, usable, q, pending[1..], env[1..], pending[0]);
    } else {
      assert pending[i] == pending[1..][i - 1];
      PendingIsBarred(cfg, card, strikes, shortcut, usable, q, pending[1..], env[1..], i - 1);
    }
  }

  /** A GPU job that is still pending at the end was barred when its turn ended. */
  lemma {:induction false} PendingIsBarredAtOnce(cfg: Config, card: CardState, strikes: nat, shortcut: bool,
      usable: Option<int>, p: Pass, pending: seq<Spec>, env: seq<Luck>)
    requires |pending| == |env| && Underway(cfg, usable, p, pending, env)
    requires pending != [] && pending[0].lane.Gpu?
    requires Path(Pending, pending[0].id) in RunPass(cfg, card, strikes, shortcut, p, pending, env).world.files
    ensures Barred(cfg, card, usable, Consider(cfg, card, strikes, shortcut, p, pending[0], env[0]), pending[0])
  {
    RestLeavesFirst(cfg, card, strikes, shortcut, p, pending, env);
    OthersMeetOwn(p.world, env);
    StillPendingIsBarred(cfg, card, strikes, shortcut, usable, p, pending[0], env[0]);
  }

  /** While an earlier GPU job is pending at the end, no later job that asks for at least as much was started. */
  lemma {:induction false} WaitsItsTurn(cfg: Config, card: CardState, strikes: nat, shortcut: bool,
      usable: Option<int>, p: Pass, pending: seq<Spec>, env: seq<Luck>, i: nat, j: nat)
    requires |pending| == |env| && Underway(cfg, usable, p, pending, env)
    requires i < j < |pending| && pending[i].lane.Gpu? && AsksAsMuch(pending[j], pending[i])
    requires Path(Pending, pending[i].id) in RunPass(cfg, card, strikes, shortcut, p, pending, env).world.files
    ensures pending[j].id in RunPass(cfg, card, strikes, shortcut, p, pending, env).started
            <==> pending[j].id in p.started
    decreases |pending|
  {
    hide *;
    var q := Consider(cfg, card, strikes, shortcut, p, pending[0], env[0]);
    NextTurn(cfg, card, strikes, shortcut, usable, p, pending, env);
    StartsInOwnTurn(cfg, card, strikes, shortcut, usable, p, pending, env, j);
    assert pending[j] == pending[1..][j - 1];
    if i == 0 {
      PendingIsBarredAtOnce(cfg, card, strikes, shortcut, usable, p, pending, env);
      BiggerAskWaits(cfg, card, strikes, shortcut, usable, q, pending[1..], env[1..], pending[0], j - 1);
    } else {
      assert pending[i] == pending[1..][i - 1];
      WaitsItsTurn(cfg, card, strikes, shortcut, usable, q, pending[1..], env[1..], i - 1, j - 1);
    }
  }

  // ---------------------------------------------------------------------
  // The main results
  // ---------------------------------------------------------------------

  ghost predicate FreshPass(p: Pass) {
    p.started == [] && !p.closed && !p.blocked
  }

  ghost predicate NoMutexTimeout(env: seq<Luck>) {
    forall k :: 0 <= k < |env| ==> !env[k].mutexTimeout
  }

  /** The greedy pass is maximal: with a usable card, no mutex timeout, no
      outside departure and one capacity answer, a GPU job still pending at the
      end could not take the card now either, or has no slot. This holds although
      some jobs of the pass took the card and gave it back. */
  lemma {:induction false} PassIsMaximal(cfg: Config, strikes: nat, shortcut: bool, usable: Option<int>, p: Pass,
      pending: seq<Spec>, env: seq<Luck>, i: nat)
    requires Setting(cfg, p, pending, env) && Stable(p.world, env, usable) && FreshPass(p) && NoMutexTimeout(env)
    requires i < |pending| && pending[i].lane.Gpu?
    requires Path(Pending, pending[i].id) in RunPass(cfg, Ready, strikes, shortcut, p, pending, env).world.files
    ensures var end := RunPass(cfg, Ready, strikes, shortcut, p, pending, env);
            || LaneFull(cfg, end.world.active, Gpu)
            || !RoomFor(cfg, usable, end.world.others + end.world.own, pending[i].vram)
  {
    hide RunPass, Stable, LaneFull, Capacity, Fits;
    var end := RunPass(cfg, Ready, strikes, shortcut, p, pending, env);
    PendingIsBarred(cfg, Ready, strikes, shortcut, usable, p, pending, env, i);
    SlotsAreCounted(cfg, end.world.active);
    if WellDeclared(pending[i].vram) {
      RoomIsFit(cfg, usable, Holders(end.world), pending[i].vram);
    }
    NeverBlocked(cfg, strikes, shortcut, p, pending, env);
    if HoldersOk(end.world) && Closed(cfg, usable, end.world) {
      CardIsClosedExact(Holders(end.world), usable, HolderCap(cfg));
    }
  }

  lemma {:induction false} NeverBlocked(cfg: Config, strikes: nat, shortcut: bool, p: Pass, pending: seq<Spec>,
      env: seq<Luck>)
    requires |pending| == |env| && NoMutexTimeout(env) && !p.blocked
    ensures !RunPass(cfg, Ready, strikes, shortcut, p, pending, env).blocked
    decreases |pending|
  {
    if pending != [] {
      NeverBlocked(cfg, strikes, shortcut, Consider(cfg, Ready, strikes, shortcut, p, pending[0], env[0]),
          pending[1..], env[1..]);
    }
  }

  /** No overtaking: a job is not started past an earlier one that asks for no
      more and is still pending, whatever the card's state and even if the mutex
      times out. */
  lemma {:induction false} NoOvertaking(cfg: Config, card: CardState, strikes: nat, shortcut: bool,
      usable: Option<int>, p: Pass, pending: seq<Spec>, env: seq<Luck>, i: nat, j: nat)
    requires Setting(cfg, p, pending, env) && Stable(p.world, env, usable) && FreshPass(p)
    requires i < j < |pending| && pending[i].lane.Gpu? && AsksAsMuch(pending[j], pending[i])
    ensures var end := RunPass(cfg, card, strikes, shortcut, p, pending, env);
            pending[j].id in end.started ==> Path(Pending, pending[i].id) !in end.world.files
  {
    if Path(Pending, pending[i].id) in RunPass(cfg, card, strikes, shortcut, p, pending, env).world.files {
      WaitsItsTurn(cfg, card, strikes, shortcut, usable, p, pending, env, i, j);
    }
  }

  /** The same by the clock: of two pending jobs, the one submitted later, or at
      the same time under a larger id, is not started while the other, which asks for
      no more, is still pending. */
  lemma {:induction false} EarlierGoesFirst(cfg: Config, card: CardState, strikes: nat, shortcut: bool,
      usable: Option<int>, p: Pass, pending: seq<Spec>, env: seq<Luck>, i: nat, j: nat)
    requires Setting(cfg, p, pending, env) && Stable(p.world, env, usable) && FreshPass(p)
    requires Ordered(ByTime, pending) && i < |pending| && j < |pending| && i != j
    requires Less(pending[i].submittedAt, pending[j].submittedAt)
             || (pending[i].submittedAt == pending[j].submittedAt && Less(pending[i].id, pending[j].id))
    requires pending[i].lane.Gpu? && AsksAsMuch(pending[j], pending[i])
    ensures var end := RunPass(cfg, card, strikes, shortcut, p, pending, env);
            pending[j].id in end.started ==> Path(Pending, pending[i].id) !in end.world.files
  {
    hide *;
    EarlierIsListedFirst(pending, i, j);
    NoOvertaking(cfg, card, strikes, shortcut, usable, p, pending, env, i, j);
  }

  lemma EarlierIsListedFirst(pending: seq<Spec>, i: nat, j: nat)
    requires Ordered(ByTime, pending) && i < |pending| && j < |pending| && i != j
    requires Less(pending[i].submittedAt, pending[j].submittedAt)
             || (pending[i].submittedAt == pending[j].submittedAt && Less(pending[i].id, pending[j].id))
    ensures i < j
  {
    LessIsTotal(pending[i].submittedAt, pending[j].submittedAt);
    LessIsTotal(pending[i].id, pending[j].id);
    assert ByTime(pending[i], pending[j]) && !ByTime(pending[j], pending[i]);
  }

  /** A look at the card fails a job for good exactly when no ledger whatever
      would ever hand that job the card, however long it waited. */
  lemma OnlyTheHopelessFail(cfg: Config, w: World, spec: Spec, e: Luck)
    requires cfg.gpuMaxJobs >= 1
    ensures TakeVerdict(cfg, w, spec, e).Fail?
            <==> forall v: World, f: Luck :: f.usable == e.usable ==> !TakeVerdict(cfg, v, spec, f).Try?
  {
    if !TakeVerdict(cfg, w, spec, e).Fail? {
      var empty := w.(others := [], own := []);
      assert Holders(empty) == [];
      assert TakeVerdict(cfg, empty, spec, e.(mutexTimeout := false)).Try?;
    }
  }

  // ---------------------------------------------------------------------
  // The CPU lane
  // ---------------------------------------------------------------------

  lemma TurnKeepsLanes(cfg: Config, card: CardState, strikes: nat, shortcut: bool, p: Pass, spec: Spec, e: Luck,
      lane: Lane)
    requires InOrder(cfg, p.world) && AsListed(p.world.files, spec) && e.token !in p.world.taken
    ensures Capacity(cfg, Consider(cfg, card, strikes, shortcut, p, spec, e).world.active, lane)
            <= Capacity(cfg, p.world.active, lane)
  {
    var q := Consider(cfg, card, strikes, shortcut, p, spec, e);
    MovedKeepsOrder(cfg, p, spec, e);
    CarryKeepsOrder(cfg, Moved(p, spec, e), spec, e, Decide(cfg, card, strikes, shortcut, Moved(p, spec, e), spec, e));
    CapacityOnlyFalls(cfg, Moved(p, spec, e).world, q.world, lane);
  }

  lemma {:induction false} SlotsOnlyFill(cfg: Config, card: CardState, strikes: nat, shortcut: bool, p: Pass,
      pending: seq<Spec>, env: seq<Luck>, lane: Lane)
    requires Setting(cfg, p, pending, env)
    ensures Capacity(cfg, RunPass(cfg, card, strikes, shortcut, p, pending, env).world.active, lane)
            <= Capacity(cfg, p.world.active, lane)
    decreases |pending|
  {
    if pending != [] {
      assert env[0].token !in p.world.taken;
      TurnKeepsLanes(cfg, card, strikes, shortcut, p, pending[0], env[0], lane);
      TurnKeepsSetting(cfg, card, strikes, shortcut, p, pending, env);
      SlotsOnlyFill(cfg, card, strikes, shortcut, Consider(cfg, card, strikes, shortcut, p, pending[0], env[0]),
          pending[1..], env[1..], lane);
    }
  }

  lemma CpuTurn(cfg: Config, card: CardState, strikes: nat, shortcut: bool, p: Pass, spec: Spec, e: Luck)
    requires InOrder(cfg, p.world) && AsListed(p.world.files, spec) && spec.lane.Cpu?
    ensures var q := Consider(cfg, card, strikes, shortcut, p, spec, e);
            Path(Pending, spec.id) in q.world.files ==> Capacity(cfg, q.world.active, Cpu) <= 0
  {
    var m := Moved(p, spec, e);
    var v := Decide(cfg, card, strikes, shortcut, m, spec, e);
    MovedKeepsOrder(cfg, p, spec, e);
    if v.Try? || v.Fail? {
      CarryLeavesPending(cfg, m, spec, e, v);
    }
  }

  /** The card never holds up the CPU lane: whatever the card's state, whoever
      holds it, and however long the mutex, a CPU job is still pending at the end
      only for want of a CPU slot. */
  lemma {:induction false} CardNeverDelaysCpu(cfg: Config, card: CardState, strikes: nat, shortcut: bool, p: Pass,
      pending: seq<Spec>, env: seq<Luck>, i: nat)
    requires Setting(cfg, p, pending, env)
    requires i < |pending| && pending[i].lane.Cpu?
    requires Path(Pending, pending[i].id) in RunPass(cfg, card, strikes, shortcut, p, pending, env).world.files
    ensures LaneFull(cfg, RunPass(cfg, card, strikes, shortcut, p, pending, env).world.active, Cpu)
    decreases |pending|
  {
    hide *;
    FirstTurn(cfg, card, strikes, shortcut, p, pending, env);
    var q := Consider(cfg, card, strikes, shortcut, p, pending[0], env[0]);
    if i == 0 {
      CpuTurn(cfg, card, strikes, shortcut, p, pending[0], env[0]);
      RestLeavesFirst(cfg, card, strikes, shortcut, p, pending, env);
      SlotsOnlyFill(cfg, card, strikes, shortcut, q, pending[1..], env[1..], Cpu);
      SlotsAreCounted(cfg, RunPass(cfg, card, strikes, shortcut, p, pending, env).world.active);
    } else {
      assert pending[i] == pending[1..][i - 1];
      CardNeverDelaysCpu(cfg, card, strikes, shortcut, q, pending[1..], env[1..], i - 1);
    }
  }

  lemma FullLaneTurn(cfg: Config, card: CardState, strikes: nat, shortcut: bool, p: Pass, spec: Spec, e: Luck)
    requires Capacity(cfg, p.world.active, spec.lane) <= 0
    ensures Consider(cfg, card, strikes, shortcut, p, spec, e).started == p.started
  {
    hide Capacity;
  }

  lemma TurnStartsItsOwn(cfg: Config, card: CardState, strikes: nat, shortcut: bool, p: Pass, spec: Spec, e: Luck,
      id: string)
    requires id != spec.id
    ensures id in Consider(cfg, card, strikes, shortcut, p, spec, e).started <==> id in p.started
  {
    hide Decide;
  }

  lemma FirstToken(cfg: Config, p: Pass, pending: seq<Spec>, env: seq<Luck>)
    requires Setting(cfg, p, pending, env) && pending != []
    ensures env[0].token !in p.world.taken
    ensures forall k :: 0 < k < |pending| ==> pending[k].id != pending[0].id
  {
  }

  lemma {:induction false} FullLaneStartsNobody(cfg: Config, card: CardState, strikes: nat, shortcut: bool, p: Pass,
      pending: seq<Spec>, env: seq<Luck>, id: string)
    requires Setting(cfg, p, pending, env) && Capacity(cfg, p.world.active, Cpu) <= 0
    requires forall k :: 0 <= k < |pending| && pending[k].id == id ==> pending[k].lane.Cpu?
    ensures |pending| == |env|
    ensures id in RunPass(cfg, card, strikes, shortcut, p, pending, env).started <==> id in p.started
    decreases |pending|
  {
    hide Setting, Consider, Capacity;
    SameLength(cfg, p, pending, env);
    if pending != [] {
      FirstTurn(cfg, card, strikes, shortcut, p, pending, env);
      FirstToken(cfg, p, pending, env);
      TurnKeepsLanes(cfg, card, strikes, shortcut, p, pending[0], env[0], Cpu);
      if pending[0].id == id {
        FullLaneTurn(cfg, card, strikes, shortcut, p, pending[0], env[0]);
      } else {
        TurnStartsItsOwn(cfg, card, strikes, shortcut, p, pending[0], env[0], id);
      }
      FullLaneStartsNobody(cfg, card, strikes, shortcut, Consider(cfg, card, strikes, shortcut, p, pending[0], env[0]),
          pending[1..], env[1..], id);
    }
  }

  lemma SameLength(cfg: Config, p: Pass, pending: seq<Spec>, env: seq<Luck>)
    requires Setting(cfg, p, pending, env)
    ensures |pending| == |env|
  {
  }

  /** The CPU lane goes in order too: while a CPU job is pending at the end of a
      pass, no CPU job after it was started in that pass. */
  lemma {:induction false} CpuGoesInOrder(cfg: Config, card: CardState, strikes: nat, shortcut: bool, p: Pass,
      pending: seq<Spec>, env: seq<Luck>, i: nat, j: nat)
    requires Setting(cfg, p, pending, env)
    requires i < j < |pending| && pending[i].lane.Cpu? && pending[j].lane.Cpu?
    requires pending[j].id in RunPass(cfg, card, strikes, shortcut, p, pending, env).started
    requires Path(Pending, pending[i].id) in RunPass(cfg, card, strikes, shortcut, p, pending, env).world.files
    ensures pending[j].id in p.started
    decreases |pending|
  {
    hide *;
    FirstTurn(cfg, card, strikes, shortcut, p, pending, env);
    FirstToken(cfg, p, pending, env);
    var q := Consider(cfg, card, strikes, shortcut, p, pending[0], env[0]);
    assert pending[j] == pending[1..][j - 1];
    TurnStartsItsOwn(cfg, card, strikes, shortcut, p, pending[0], env[0], pending[j].id);
    if i == 0 {
      CpuTurn(cfg, card, strikes, shortcut, p, pending[0], env[0]);
      RestLeavesFirst(cfg, card, strikes, shortcut, p, pending, env);
      OneLane(cfg, q, pending[1..], env[1..], j - 1);
      FullLaneStartsNobody(cfg, card, strikes, shortcut, q, pending[1..], env[1..], pending[j].id);
    } else {
      assert pending[i] == pending[1..][i - 1];
      CpuGoesInOrder(cfg, card, strikes, shortcut, q, pending[1..], env[1..], i - 1, j - 1);
    }
  }

  lemma OneLane(cfg: Config, p: Pass, pending: seq<Spec>, env: seq<Luck>, j: nat)
    requires Setting(cfg, p, pending, env) && j < |pending|
    ensures forall k :: 0 <= k < |pending| && pending[k].id == pending[j].id ==> k == j
  {
  }
}
