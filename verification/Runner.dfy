/**
 The runner itself (src/gpuqueue/runner.py, `Runner`): its fields, and the
 phases that update them. Every method is held to the functions of AdmitPass
 and Settlement, whose properties are proved in their own modules.
 */
module Runner {
  import opened Base
  import opened Ledger
  import opened Queue
  import opened QueueRuns
  import opened AdmitPass
  import opened AdmitProofs
  import opened AdmitTheorems
  import opened CardStrikes
  import opened Settlement
  import opened RunnerRuns
  import opened Sorting
  import opened Text

  datatype Answer = Granted | TimedOutOnMutex | FoundClosed | FoundBusy

  /** What `_take_card` hands back to `admit`. */
  datatype CardAnswer = Handed(record: Record) | NotThisJob | CardClosed | MutexTimeout

  /** The directory of one card, as this runner uses it. */
  class ClaimDir {
    var others: seq<Record>
    var own: seq<Record>
    ghost var taken: seq<string>
    ghost var released: seq<string>

    constructor (others: seq<Record>)
      ensures this.others == others && own == [] && taken == [] && released == []
    {
      this.others, own, taken, released := others, [], [], [];
    }

    method Acquire(r: Record, usable: Option<int>, maxHolders: Option<int>, timeout: bool) returns (a: Answer)
      modifies this
      ensures others == old(others) && released == old(released)
      ensures a.Granted? <==> !timeout && Fits(old(others + own), r.vramMb, usable, maxHolders)
      ensures a.TimedOutOnMutex? <==> timeout
      ensures a.FoundClosed? ==> CardIsClosed(old(others + own), usable, maxHolders)
      ensures a.FoundBusy? ==> !CardIsClosed(old(others + own), usable, maxHolders)
      ensures own == if a.Granted? then old(own) + [r] else old(own)
      ensures taken == if a.Granted? then old(taken) + [r.path] else old(taken)
    {
      if timeout {
        return TimedOutOnMutex;
      }
      var live := others + own;
      if !Fits(live, r.vramMb, usable, maxHolders) {
        return if CardIsClosed(live, usable, maxHolders) then FoundClosed else FoundBusy;
      }
      own := own + [r];
      taken := taken + [r.path];
      return Granted;
    }

    /** Leaving the claim: the record is unlinked. */
    method Release(path: string)
      modifies this
      ensures others == old(others) && taken == old(taken)
      ensures own == RemovePath(old(own), path)
      ensures released == old(released) + [path]
    {
      hide RemovePath;
      var before, kept := own, [];
      RemoveFromNone(path);
      for i := 0 to |before|
        invariant own == before && others == old(others) && taken == old(taken) && released == old(released)
        invariant kept + RemovePath(before[i..], path) == RemovePath(before, path)
      {
        RemoveStep(kept, before, i, path);
        if before[i].path != path {
          kept := kept + [before[i]];
        }
      }
      assert before[|before|..] == [];
      own := kept;
      released := released + [path];
    }

    /** The record is charged to the process that uses the card, and written:
        over its file, or anew if somebody removed it. */
    method SetUsagePid(r: Record, pid: int)
      modifies this
      ensures others == old(others) && taken == old(taken) && released == old(released)
      ensures own == Written(old(own), r.(usagePid := Some(pid)))
    {
      hide Written;
      var w := r.(usagePid := Some(pid));
      var before := own;
      for i := 0 to |before|
        invariant own == before && others == old(others) && taken == old(taken) && released == old(released)
        invariant NotNamed(w.path, before[..i])
      {
        if before[i].path == w.path {
          WrittenOver(before, w, i);
          Replaced(before, i, w);
          own := before[i := w];
          return;
        }
      }
      assert before[..|before|] == before;
      WrittenAnew(before, w);
      own := before + [w];
    }
  }

  /** The directory once `r` is written: in place of the file of its name, or as one more. */
  function Written(records: seq<Record>, r: Record): seq<Record> {
    if records == [] then [r]
    else if records[0].path == r.path then [r] + records[1..]
    else [records[0]] + Written(records[1..], r)
  }

  /** Written under a new name, a record is one more in the directory. */
  lemma {:induction false} WrittenAnew(records: seq<Record>, r: Record)
    requires NotNamed(r.path, records)
    ensures Written(records, r) == records + [r]
  {
    if records != [] {
      WrittenAnew(records[1..], r);
      Regroup([records[0]], records[1..], [r]);
      assert [records[0]] + records[1..] == records;
    }
  }

  /** Written under a name there is, it takes the place of that file and no other. */
  lemma {:induction false} WrittenOver(records: seq<Record>, r: Record, i: nat)
    requires i < |records| && records[i].path == r.path && NotNamed(r.path, records[..i])
    ensures Written(records, r) == records[..i] + ([r] + records[i + 1..])
  {
    if i == 0 {
      assert records[..0] == [];
    } else {
      assert records[0] == records[..i][0];
      assert records[1..][..i - 1] == records[..i][1..];
      WrittenOver(records[1..], r, i - 1);
      assert records[1..][i..] == records[i + 1..];
      Regroup([records[0]], records[1..][..i - 1], [r] + records[i + 1..]);
      assert [records[0]] + records[1..][..i - 1] == records[..i];
    }
  }

  lemma {:induction false} WrittenLast(own: seq<Record>, was: Record, r: Record)
    requires NotNamed(r.path, own) && was.path == r.path
    ensures Written(own + [was], r) == own + [r]
  {
    if own == [] {
      assert ([] + [was])[1..] == [];
    } else {
      assert (own + [was])[1..] == own[1..] + [was];
      WrittenLast(own[1..], was, r);
    }
  }

  lemma RemoveFirst(records: seq<Record>, path: string)
    requires records != []
    ensures RemovePath(records, path)
            == (if records[0].path == path then [] else [records[0]]) + RemovePath(records[1..], path)
  {
  }

  lemma RemoveFromNone(path: string)
    ensures RemovePath([], path) == []
  {
  }

  lemma RemoveStep(kept: seq<Record>, records: seq<Record>, i: nat, path: string)
    requires i < |records|
    ensures kept + RemovePath(records[i..], path)
            == (if records[i].path != path then kept + [records[i]] else kept) + RemovePath(records[i + 1..], path)
  {
    assert records[i..][1..] == records[i + 1..];
    var below := RemovePath(records[i + 1..], path);
    if records[i].path != path {
      Regroup(kept, [records[i]], below);
    } else {
      assert [] + below == below;
    }
  }

  lemma Replaced(records: seq<Record>, i: nat, r: Record)
    requires i < |records|
    ensures records[i := r] == records[..i] + ([r] + records[i + 1..])
  {
  }

  lemma RemoveLast(own: seq<Record>, r: Record)
    requires NotNamed(r.path, own)
    ensures RemovePath(own + [r], r.path) == own
  {
    if own == [] {
      assert [r][1..] == [];
    } else {
      assert (own + [r])[1..] == own[1..] + [r];
      RemoveLast(own[1..], r);
    }
  }

  /** The claim under which a job of this lane is launched. */
  function ClaimFor(cfg: Config, spec: Spec, e: Luck): Option<Record> {
    if spec.lane.Gpu? then Some(ClaimRecord(cfg, spec, e)) else None
  }

  /** The world once the card has been taken for a job that needs it. */
  function WithCard(cfg: Config, w: World, spec: Spec, e: Luck): World {
    w.(own := w.own + (if spec.lane.Gpu? then [ClaimRecord(cfg, spec, e)] else []), taken := w.taken + Tokens(spec, e))
  }

  class Runner {
    const cfg: Config
    const queue: QueueRoot
    const card: ClaimDir
    var active: map<string, Job>
    var stopping: bool
    var gpuidStrikes: nat
    var convicted: set<string>
    var lastConviction: Option<int>

    constructor (cfg: Config, queue: QueueRoot, card: ClaimDir)
      requires Good(queue.files) && card.own == [] && card.taken == [] && card.released == []
      ensures this.cfg == cfg && this.queue == queue && this.card == card
      ensures !stopping && active == map[] && gpuidStrikes == Strikes([]) && convicted == {} && lastConviction == None
      ensures Valid()
    {
      this.cfg, this.queue, this.card := cfg, queue, card;
      active, stopping, gpuidStrikes, convicted, lastConviction := map[], false, 0, {}, None;
      new;
      FreshRunnerIsInOrder(cfg, card.others, queue.files);
    }

    ghost function View(): World
      reads this, queue, card
    {
      World(card.others, card.own, active, queue.files, card.taken, card.released)
    }

    ghost function Remembers(): Memory
      reads this
    {
      Memory(convicted, lastConviction)
    }

    ghost predicate Valid()
      reads this, queue, card
    {
      InOrder(cfg, View())
    }

    // -------------------------------------------------------------------
    // Admission
    // -------------------------------------------------------------------

    method FailPending(id: string, reason: Reason)
      modifies queue
      ensures queue.files == AdmitPass.FailPending(old(queue.files), id, reason)
    {
      var claimed := queue.Claim(id);
      if claimed.Some? {
        FailRunning(claimed.value, reason);
      }
    }

    method FailRunning(spec: Spec, reason: Reason)
      modifies queue
      ensures queue.files == Finished(old(queue.files), FailedSpec(spec, reason), false)
    {
      queue.Finish(spec.(error := Some(reason), exitCode := Some(-1), pid := None), false);
    }

    method ExitClaim(claim: Option<Record>)
      modifies card
      ensures claim.None? ==> unchanged(card)
      ensures claim.Some? ==>
                && card.others == old(card.others) && card.taken == old(card.taken)
                && card.own == RemovePath(old(card.own), claim.value.path)
                && card.released == old(card.released) + [claim.value.path]
    {
      if claim.Some? {
        card.Release(claim.value.path);
      }
    }

    method TakeCard(spec: Spec, e: Luck) returns (taken: CardAnswer)
      requires spec.lane.Gpu?
      modifies queue, card
      ensures var v := TakeVerdict(cfg, old(View()), spec, e);
              && (taken.Handed? <==> v.Try?)
              && (taken.CardClosed? <==> v.CloseCard?)
              && (taken.MutexTimeout? <==> v.BlockMutex?)
              && (taken.Handed? ==>
                    && taken.record == ClaimRecord(cfg, spec, e)
                    && View() == old(View()).(own := old(card.own) + [taken.record],
                        taken := old(card.taken) + [e.token]))
              && (!taken.Handed? ==> View() == Carry(cfg, Start(old(View())), spec, e, v).world)
    {
      if ExceedsCapacity(spec.vram, e.usable) {
        FailPending(spec.id, NeverFits);
        return NotThisJob;
      }
      if !ValidDeclaration(spec.vram) {
        FailPending(spec.id, BadVram);
        return NotThisJob;
      }
      var record := ClaimRecord(cfg, spec, e);
      var a := card.Acquire(record, e.usable, HolderCap(cfg), e.mutexTimeout);
      match a {
        case Granted => return Handed(record);
        case TimedOutOnMutex => return MutexTimeout;
        case FoundClosed => return CardClosed;
        case FoundBusy => return NotThisJob;
      }
    }

    /** `spec` has been claimed, and `claim` is held for it. */
    method Launch(spec: Spec, e: Luck, claim: Option<Record>) returns (ok: bool)
      requires claim.Some? ==> card.own != [] && card.own[|card.own| - 1] == claim.value
                               && NotNamed(claim.value.path, card.own[..|card.own| - 1])
      modifies this`active, queue, card
      ensures ok <==> e.checksOut && e.starts
      ensures card.others == old(card.others) && card.taken == old(card.taken)
      ensures ok ==>
                && var job := Job(StartedSpec(cfg, spec, e), e.pid,
                    if claim.Some? then Some(claim.value.path) else None, e.now);
                && active == old(active)[spec.id := job]
                && queue.files == old(queue.files)[Path(Running, spec.id) := job.spec]
                && card.released == old(card.released)
                && card.own == if claim.Some? then old(card.own)[..|old(card.own)| - 1]
                    + [claim.value.(usagePid := Some(e.pid))]
                               else old(card.own)
      ensures !ok ==>
                && active == old(active)
                && queue.files == Finished(old(queue.files), FailedSpec(spec,
                    if e.checksOut then StartFailed else CheckoutFailed), false)
                && card.released == old(card.released) + (if claim.Some? then [claim.value.path] else [])
                && card.own == if claim.Some? then old(card.own)[..|old(card.own)| - 1] else old(card.own)
    {
      ghost var held := card.own;
      if claim.Some? {
        assert held == held[..|held| - 1] + [claim.value];
        RemoveLast(held[..|held| - 1], claim.value);
      }
      if !e.checksOut {
        ExitClaim(claim);
        FailRunning(spec, CheckoutFailed);
        return false;
      }
      if !e.starts {
        ExitClaim(claim);
        FailRunning(spec, StartFailed);
        return false;
      }
      var running := spec.(pid := Some(e.pid), runnerPid := Some(cfg.runnerPid));
      queue.Update(running, Running);
      active := active[running.id := Job(running, e.pid, if claim.Some? then Some(claim.value.path) else None, e.now)];
      if claim.Some? {
        WrittenLast(held[..|held| - 1], claim.value, claim.value.(usagePid := Some(e.pid)));
        card.SetUsagePid(claim.value, e.pid);
        assert card.own == held[..|held| - 1] + [claim.value.(usagePid := Some(e.pid))];
      }
      return true;
    }

    /** Claim the job and launch it; give the card back if either fails. `w` is
        the world before the card was taken for it. */
    method Begin(spec: Spec, e: Luck, claim: Option<Record>, ghost w: World) returns (ok: bool)
      requires WellNamed(queue.files) && AsListed(queue.files, spec)
      requires claim == ClaimFor(cfg, spec, e) && NotNamed(e.token, w.own)
      requires View() == WithCard(cfg, w, spec, e)
      modifies this`active, queue, card
      ensures ok == Starts(w, spec, e)
      ensures View() == AdmitPass.Begin(cfg, w, spec, e)
    {
      assert claim.Some? ==> card.own[..|card.own| - 1] == w.own;
      assert claim.None? ==> card.own == w.own;
      var claimed := queue.Claim(spec.id);
      if claimed.None? {
        if claim.Some? {
          RemoveLast(w.own, claim.value);
        }
        ExitClaim(claim);
        return false;
      }
      ok := Launch(claimed.value, e, claim);
    }

    method Capacity(lane: Lane) returns (room: int)
      ensures room == AdmitPass.Capacity(cfg, active, lane)
    {
      var inLane := set id | id in active && active[id].spec.lane == lane;
      room := (if lane.Cpu? then cfg.cpuSlots else cfg.gpuMaxJobs) - |inLane|;
    }

    /** The tests of one turn of the loop in `admit`, up to the rename: `go` if
        the job is to be claimed, with the card in hand if it needs one. */
    method HandOut(spec: Spec, e: Luck, lookup: CardState, closed: bool, blocked: bool)
      returns (go: bool, claim: Option<Record>, closedNow: bool, blockedNow: bool)
      modifies queue, card
      ensures var m := AdmitPass.Pass(old(View()), [], closed, blocked);
              var v := Decide(cfg, lookup, gpuidStrikes, true, m, spec, e);
              && (go <==> v.Try?)
              && (!go ==> AdmitPass.Pass(View(), [], closedNow, blockedNow) == Carry(cfg, m, spec, e, v))
      ensures go ==>
                && closedNow == closed && blockedNow == blocked
                && claim == ClaimFor(cfg, spec, e)
                && queue.files == old(queue.files)
                && View() == WithCard(cfg, old(View()), spec, e)
    {
      go, claim, closedNow, blockedNow := false, None, closed, blocked;
      if spec.project !in cfg.projects {
        FailPending(spec.id, UnknownProject);
        return;
      }
      var room := Capacity(spec.lane);
      if room <= 0 {
        return;
      }
      if spec.lane.Gpu? {
        if blocked || closed || lookup.Contended? {
          return;
        }
        if lookup.Unidentified? {
          if gpuidStrikes < GPUID_STRIKES {
            return;
          }
          FailPending(spec.id, NoUsableGpu);
          return;
        }
        var taken := TakeCard(spec, e);
        match taken {
          case CardClosed =>
            closedNow := true;
            return;
          case MutexTimeout =>
            blockedNow := true;
            return;
          case NotThisJob =>
            return;
          case Handed(record) =>
            claim := Some(record);
        }
      }
      go := true;
      assert old(card.own) + [] == old(card.own) && old(card.taken) + [] == old(card.taken);
    }

    /** What happens outside before a turn: other holders come and go, and the
        job may be cancelled. */
    method Outside(spec: Spec, e: Luck)
      requires WellNamed(queue.files) && AsListed(queue.files, spec)
      modifies queue, card
      ensures WellNamed(queue.files) && AsListed(queue.files, spec)
      ensures View() == Moved(Start(old(View())), spec, e).world
    {
      card.others := e.others;
      if e.gone {
        var _ := queue.Cancel(spec.id);
      }
    }

    /** One turn of the loop in `admit`. */
    method Consider(spec: Spec, e: Luck, lookup: CardState, closed: bool, blocked: bool)
      returns (ok: bool, closedNow: bool, blockedNow: bool)
      requires WellNamed(queue.files) && AsListed(queue.files, spec) && NotNamed(e.token, card.own)
      modifies this`active, queue, card
      ensures AdmitPass.Consider(cfg, lookup, gpuidStrikes, true, AdmitPass.Pass(old(View()), [], closed, blocked),
          spec, e)
              == AdmitPass.Pass(View(), if ok then [spec.id] else [], closedNow, blockedNow)
    {
      hide Decide, AdmitPass.Begin, Starts, Cancelling, WithCard, ClaimFor;
      ghost var p := AdmitPass.Pass(View(), [], closed, blocked);
      Outside(spec, e);
      ghost var m := AdmitPass.Pass(View(), [], closed, blocked);
      assert m == Moved(p, spec, e);
      var go, claim;
      go, claim, closedNow, blockedNow := HandOut(spec, e, lookup, closed, blocked);
      ok := false;
      if go {
        ok := Begin(spec, e, claim, m.world);
      }
    }

    /** `list_state("pending")`, sorted by submission time and then by id. */
    method PendingInOrder() returns (pending: seq<Spec>)
      requires WellNamed(queue.files)
      ensures IsListing(queue.files, Pending, pending) && Ordered(ByTime, pending)
    {
      var listed := queue.ListState(Pending);
      ListingTells(queue.files, Pending, listed);
      TimesAreLinear(set spec | spec in listed);
      SortedListing(queue.files, Pending, listed, ByTime);
      pending := Sort(ByTime, listed);
    }

    /** One pass. `answer` is what a look at the card would find, and `luck` how
        things would go for each job. A runner that is stopping admits nothing. */
    method Admit(answer: CardState, luck: string -> Luck) returns (started: seq<string>, ghost pending: seq<Spec>)
      requires Valid()
      requires forall specs: seq<Spec> :: IsListing(queue.files, Pending, specs) ==> Sane(View(), EnvOf(luck, specs))
      modifies this`active, this`gpuidStrikes, queue, card
      ensures Valid()
      ensures stopping ==> started == [] && View() == old(View()) && gpuidStrikes == old(gpuidStrikes)
      ensures !stopping ==>
                && IsListing(old(queue.files), Pending, pending) && Ordered(ByTime, pending)
                && var lookup := LookUp(cfg, old(active), pending, answer);
                && gpuidStrikes == NextStrikes(old(gpuidStrikes), lookup)
                && var env := EnvOf(luck, pending);
                   var end := RunPass(cfg, lookup, gpuidStrikes, true, Start(old(View())), pending, env);
                   View() == end.world && started == end.started
    {
      if stopping {
        return [], [];
      }
      var specs := PendingInOrder();
      pending := specs;
      ListingIsListed(cfg, Start(View()), specs, EnvOf(luck, specs));
      started := Walk(specs, answer, EnvOf(luck, specs));
    }

    /** The walk over the pending jobs, in the order given. */
    method Walk(pending: seq<Spec>, answer: CardState, env: seq<Luck>) returns (started: seq<string>)
      requires |pending| == |env| && Setting(cfg, Start(View()), pending, env)
      modifies this`active, this`gpuidStrikes, queue, card
      ensures Valid()
      ensures var lookup := LookUp(cfg, old(active), pending, answer);
              && gpuidStrikes == NextStrikes(old(gpuidStrikes), lookup)
              && var end := RunPass(cfg, lookup, gpuidStrikes, true, Start(old(View())), pending, env);
                 View() == end.world && started == end.started
    {
      hide Setting, RunPass, AdmitPass.Consider, InOrder, AdmitPass.Capacity;
      ghost var start := Start(View());
      var lookup := NotAsked;
      var room := Capacity(Gpu);
      if (exists i :: 0 <= i < |pending| && pending[i].lane.Gpu?) && room > 0 {
        lookup := answer;
      }
      if lookup.Unidentified? {
        gpuidStrikes := gpuidStrikes + 1;
      } else {
        gpuidStrikes := 0;
      }
      assert lookup == LookUp(cfg, active, pending, answer);
      assert gpuidStrikes == NextStrikes(old(gpuidStrikes), lookup);
      hide LookUp, NextStrikes;
      PassKeepsOrder(cfg, lookup, gpuidStrikes, true, start, pending, env);
      started := [];
      var closed, blocked := false, false;
      assert pending[0..] == pending && env[0..] == env;
      for i := 0 to |pending|
        invariant gpuidStrikes == NextStrikes(old(gpuidStrikes), lookup)
        invariant Setting(cfg, AdmitPass.Pass(View(), started, closed, blocked), pending[i..], env[i..])
        invariant RunPass(cfg, lookup, gpuidStrikes, true, AdmitPass.Pass(View(), started, closed, blocked),
            pending[i..], env[i..])
                  == RunPass(cfg, lookup, gpuidStrikes, true, start, pending, env)
      {
        ghost var p := AdmitPass.Pass(View(), started, closed, blocked);
        TurnIsReady(cfg, p, pending[i..], env[i..]);
        FirstTurn(cfg, lookup, gpuidStrikes, true, p, pending[i..], env[i..]);
        StartedIsCarried(cfg, lookup, gpuidStrikes, p, pending[i], env[i]);
        assert pending[i..][1..] == pending[i + 1..] && env[i..][1..] == env[i + 1..];
        var ok;
        ok, closed, blocked := Consider(pending[i], env[i], lookup, closed, blocked);
        assert p.(started := []) == AdmitPass.Pass(p.world, [], p.closed, p.blocked);
        if ok {
          started := started + [pending[i].id];
        }
        assert AdmitPass.Pass(View(), started, closed, blocked)
               == AdmitPass.Consider(cfg, lookup, gpuidStrikes, true, p, pending[i..][0], env[i..][0]);
      }
      NothingLeft(cfg, lookup, gpuidStrikes, AdmitPass.Pass(View(), started, closed, blocked), pending[|pending|..],
          env[|pending|..]);
    }

    // -------------------------------------------------------------------
    // Settlement
    // -------------------------------------------------------------------

    method ReleaseCard(job: Job)
      modifies card
      ensures card.others == old(card.others) && card.taken == old(card.taken)
      ensures card.own == if job.claim.Some? then RemovePath(old(card.own), job.claim.value) else old(card.own)
      ensures card.released == if job.claim.Some? then old(card.released) + [job.claim.value] else old(card.released)
    {
      if job.claim.Some? {
        card.Release(job.claim.value);
      }
    }

    method HitByConvictedCoTenant(job: Job, r: Result, now: int) returns (hit: bool)
      ensures hit == HitByCoTenant(cfg, Remembers(), job, r, now)
    {
      if job.spec.id in convicted {
        return false;
      }
      if r.timedOut || !r.oom || lastConviction.None? {
        return false;
      }
      if job.spec.attempts >= MAX_ATTEMPTS || lastConviction.value <= job.started {
        return false;
      }
      return now - lastConviction.value <= ConvictionWindow(cfg);
    }

    method DescribeFailure(spec: Spec, r: Result) returns (reason: Reason)
      modifies this`convicted
      ensures reason == Settlement.DescribeFailure(old(Remembers()), spec, r)
      ensures convicted == old(convicted) - {spec.id}
    {
      var guilty := spec.id in convicted;
      convicted := convicted - {spec.id};
      if guilty {
        return Convicted;
      }
      return if r.timedOut then TimedOut else if r.oom then OutOfMemory else ExitCode;
    }

    /** The decisions of `_settle`. */
    method Judge(job: Job, r: Result, now: int) returns (fate: Fate)
      modifies this`convicted
      ensures fate == FateOf(cfg, old(Remembers()), job, r, now)
      ensures convicted == if job.spec.error.None? then old(convicted) - {job.spec.id} else old(convicted)
    {
      var error := job.spec.error;
      var ok := r.exitCode == 0 && !r.timedOut;
      if ok && job.spec.id in convicted {
        ok := false;
      }
      if !ok {
        var hit := HitByConvictedCoTenant(job, r, now);
        if hit {
          return Retry;
        }
      }
      if ok && !r.artifacts {
        ok := false;
        error := Some(ArtifactsFailed);
      }
      if !ok && error.None? {
        var reason := DescribeFailure(job.spec, r);
        error := Some(reason);
      }
      return End(ok, error);
    }

    /** Settle a job whose process has ended; the card goes back first. */
    method Settle(id: string, r: Result, now: int)
      requires Valid() && id in active
      modifies this`active, this`convicted, queue, card
      ensures Valid()
      ensures View() == SettleOne(cfg, old(Remembers()), old(View()), id, r, now)
      ensures convicted == if old(active)[id].spec.error.None? then old(convicted) - {id} else old(convicted)
      ensures Remembers() == Forgets(old(Remembers()), old(active)[id])
    {
      hide FateOf, Linked, Balanced, WithinSlots;
      SettleKeepsOrder(cfg, Remembers(), View(), id, r, now);
      var job := active[id];
      active := active - {id};
      ReleaseCard(job);
      var fate := Judge(job, r, now);
      var spec := job.spec.(pid := None, exitCode := Some(r.exitCode));
      match fate {
        case Retry => queue.Requeue(spec);
        case End(ok, error) => queue.Finish(spec.(error := error), ok);
      }
    }

    /** Settle every active job whose process has ended; `ended` says how, and
        what the clock read when it was that job's turn. */
    method Collect(ended: map<string, Ended>) returns (finished: seq<string>)
      requires Valid()
      modifies this`active, this`convicted, queue, card
      ensures Valid()
      ensures forall id :: id in finished <==> id in old(active) && id in ended
      ensures forall i, j :: 0 <= i < j < |finished| ==> finished[i] != finished[j]
      ensures active == old(active) - (set id | id in finished)
      ensures View() == SettleAll(cfg, old(Remembers()), old(View()), finished, ended)
      // Each as if it were the only one, at its own time.
      ensures forall id :: id in finished ==>
                Agree(SettleOne(cfg, old(Remembers()), old(View()), id, ended[id].r, ended[id].at).files, queue.files,
                      id)
      ensures forall id :: id !in finished ==> (id in convicted <==> id in old(convicted))
    {
      hide InOrder, SettleOne, SettleAll;
      NothingSettled(cfg, Remembers(), View(), ended);
      finished := [];
      var todo := active.Keys;
      while todo != {}
        invariant Valid()
        invariant todo <= active.Keys && active == old(active) - (set id | id in finished)
        invariant forall i, j :: 0 <= i < j < |finished| ==> finished[i] != finished[j]
        invariant forall id :: id in finished <==> id in old(active) && id !in todo && id in ended
        invariant View() == SettleAll(cfg, old(Remembers()), old(View()), finished, ended)
        invariant lastConviction == old(lastConviction)
        invariant forall id :: id !in finished ==> (id in convicted <==> id in old(convicted))
      {
        EmptyOrHas(todo);
        var id :| id in todo;
        todo := todo - {id};
        if id in ended {
          ActiveIsNamed(cfg, View(), id);
          SameMemoryOfThis(cfg, old(Remembers()), Remembers(), View(), id, ended[id].r, ended[id].at);
          OneMoreSettled(cfg, old(Remembers()), old(View()), finished, id, ended);
          Settle(id, ended[id].r, ended[id].at);
          finished := finished + [id];
        }
      }
      forall id | id in finished
        ensures Agree(SettleOne(cfg, old(Remembers()), old(View()), id, ended[id].r, ended[id].at).files, queue.files,
                      id)
      {
        EachIsSettled(cfg, old(Remembers()), old(View()), finished, ended, id);
      }
    }

    // -------------------------------------------------------------------
    // Convictions and shutdown
    // -------------------------------------------------------------------

    /** What `_reap` keeps of a sweep's convictions. A conviction that did not get
        the holder off the card excuses no co-tenant, but still brands the job. */
    method NoteConvictions(convictions: seq<Conviction>, now: int)
      modifies this`convicted, this`lastConviction
      ensures Remembers() == Noted(old(Remembers()), convictions, now)
    {
      for i := 0 to |convictions|
        invariant Remembers() == Noted(old(Remembers()), convictions[..i], now)
      {
        var c := convictions[i];
        OneMoreNoted(old(Remembers()), convictions, i, now);
        if c.killed {
          lastConviction := Some(now);
        }
        if StartsWith(c.owner, JOB_OWNER) {
          convicted := convicted + {c.owner[|JOB_OWNER|..]};
        }
      }
      assert convictions[..|convictions|] == convictions;
    }

    /** The signal handler: no further pass admits anything. */
    method Stop()
      modifies this`stopping
      ensures stopping
    {
      stopping := true;
    }

    /** Stop one job. Its card is given back if `releases`, and its file written
        if `records`; neither failure keeps it, or the next job, from the rest. */
    method StopJob(id: string, releases: bool, records: bool)
      requires id in active && active[id].spec.id == id
      modifies this`active, queue, card
      ensures active == old(active) - {id}
      ensures queue.files == if records then StopOne(old(View()), id).files else old(queue.files)
      ensures card.others == old(card.others) && card.taken == old(card.taken)
      ensures card.own == if releases then LetGo(old(View()), id).own else old(card.own)
      ensures card.released == if releases then LetGo(old(View()), id).released else old(card.released)
    {
      var job := active[id];
      active := active - {id};
      if releases {
        ReleaseCard(job);
      }
      if records {
        queue.Update(job.spec.(pid := None), Running);
      }
    }

    /** Stop everything. `stuck` are the jobs whose claim cannot be given back,
        `unwritten` those whose file cannot be written. Exactly the records of the
        stuck jobs are left behind; every other job is left in running/ without a
        pid, which is what the reaper's retry rule decides on. */
    method Shutdown(stuck: set<string>, unwritten: set<string>)
      requires Valid()
      modifies this`active, queue, card
      ensures active == map[]
      ensures card.own == RemoveAll(old(card.own), ClaimsOf(old(active), old(active).Keys - stuck))
      ensures LeftForTheReaper(old(queue.files), queue.files, old(active), old(active).Keys - unwritten)
      ensures stuck !! old(active).Keys ==>
                && Valid() && card.own == []
                && forall token :: multiset(card.released)[token] == if token in card.taken then 1 else 0
    {
      hide InOrder, StopOne, LeftForTheReaper, LetGo, RemoveAll, ClaimsOf;
      ghost var jobs, own := active, card.own;
      ghost var stopped: set<string> := {};
      NoneLeft(queue.files, jobs);
      NoneRemoved(own, jobs, stuck);
      NamesOfAll(cfg, View());
      assert stopped - unwritten == {};
      var todo := active.Keys;
      while todo != {}
        invariant active.Keys == todo && stopped + todo == jobs.Keys && stopped !! todo
        invariant forall id :: id in todo ==> active[id] == jobs[id] && jobs[id].spec.id == id
        invariant card.own == RemoveAll(own, ClaimsOf(jobs, stopped - stuck))
        invariant LeftForTheReaper(old(queue.files), queue.files, jobs, stopped - unwritten)
        invariant stuck !! jobs.Keys ==> Valid()
      {
        EmptyOrHas(todo);
        var id :| id in todo;
        OneMoreLeft(old(queue.files), queue.files, jobs, stopped - unwritten, id);
        OneMoreRemoved(own, jobs, stopped - stuck, id);
        StopFacts(View(), id);
        if Valid() {
          StopKeepsBooks(cfg, View(), id, id !in unwritten);
        }
        StopJob(id, id !in stuck, id !in unwritten);
        OneMoreBut(stopped, stuck, id);
        OneMoreBut(stopped, unwritten, id);
        todo, stopped := todo - {id}, stopped + {id};
      }
      assert stopped == jobs.Keys;
      if Valid() {
        AllGivenBack(cfg, View());
      }
    }
  }

  lemma OneMoreBut(done: set<string>, but: set<string>, id: string)
    ensures done + {id} - but == if id in but then done - but else done - but + {id}
  {
  }

  lemma OneMoreNoted(m: Memory, convictions: seq<Conviction>, i: nat, now: int)
    requires i < |convictions|
    ensures AnyKilled(convictions[..i + 1]) <==> AnyKilled(convictions[..i]) || convictions[i].killed
    ensures Branded(convictions[..i + 1])
            == Branded(convictions[..i])
               + if StartsWith(convictions[i].owner, JOB_OWNER) then {convictions[i].owner[|JOB_OWNER|..]} else {}
  {
    assert convictions[..i + 1] == convictions[..i] + [convictions[i]];
    forall id
      ensures id in Branded(convictions[..i + 1])
              <==> id in Branded(convictions[..i]) || Brands(convictions[i], id)
    {
      BrandedAreNamed(convictions[..i + 1], id);
      BrandedAreNamed(convictions[..i], id);
    }
    forall id
      ensures Brands(convictions[i], id) <==>
                StartsWith(convictions[i].owner, JOB_OWNER) && id == convictions[i].owner[|JOB_OWNER|..]
    {
      assert (JOB_OWNER + id)[..|JOB_OWNER|] == JOB_OWNER;
    }
  }

  // ---------------------------------------------------------------------
  // Shutdown, job by job
  // ---------------------------------------------------------------------

  /** The claims of some of the jobs. */
  function ClaimsOf(jobs: map<string, Job>, ids: set<string>): set<string> {
    set id | id in ids && id in jobs && jobs[id].claim.Some? :: jobs[id].claim.value
  }

  function RemoveAll(records: seq<Record>, paths: set<string>): seq<Record> {
    if records == [] then []
    else (if records[0].path in paths then [] else [records[0]]) + RemoveAll(records[1..], paths)
  }

  lemma {:induction false} RemoveNone(records: seq<Record>)
    ensures RemoveAll(records, {}) == records
  {
    if records != [] {
      RemoveNone(records[1..]);
    }
  }

  lemma {:induction false} RemoveOneMore(records: seq<Record>, paths: set<string>, path: string)
    ensures RemovePath(RemoveAll(records, paths), path) == RemoveAll(records, paths + {path})
  {
    if records != [] {
      RemoveOneMore(records[1..], paths, path);
      var rest := RemoveAll(records[1..], paths);
      if records[0].path in paths {
        assert RemoveAll(records, paths) == rest;
      } else {
        assert RemoveAll(records, paths) == [records[0]] + rest;
        RemoveFirst(RemoveAll(records, paths), path);
      }
    }
  }

  lemma NoneRemoved(own: seq<Record>, jobs: map<string, Job>, stuck: set<string>)
    ensures RemoveAll(own, ClaimsOf(jobs, {} - stuck)) == own
  {
    RemoveNone(own);
    assert ClaimsOf(jobs, {} - stuck) == {};
  }

  lemma OneMoreRemoved(own: seq<Record>, jobs: map<string, Job>, ids: set<string>, id: string)
    requires id in jobs
    ensures RemoveAll(own, ClaimsOf(jobs, ids + {id}))
            == if jobs[id].claim.Some? then RemovePath(RemoveAll(own, ClaimsOf(jobs, ids)), jobs[id].claim.value)
               else RemoveAll(own, ClaimsOf(jobs, ids))
  {
    if jobs[id].claim.Some? {
      RemoveOneMore(own, ClaimsOf(jobs, ids), jobs[id].claim.value);
      assert ClaimsOf(jobs, ids + {id}) == ClaimsOf(jobs, ids) + {jobs[id].claim.value};
    } else {
      assert ClaimsOf(jobs, ids + {id}) == ClaimsOf(jobs, ids);
    }
  }

  lemma StopFacts(w: World, id: string)
    requires id in w.active
    ensures LetGo(w, id).own == if w.active[id].claim.Some? then RemovePath(w.own, w.active[id].claim.value) else w.own
    ensures StopOne(w, id).files == w.files[Path(Running, id) := w.active[id].spec.(pid := None)]
  {
  }

  /** A stopped job whose claim is given back leaves the books in order, written or not. */
  lemma StopKeepsBooks(cfg: Config, w: World, id: string, records: bool)
    requires InOrder(cfg, w) && id in w.active
    ensures InOrder(cfg, if records then StopOne(w, id) else LetGo(w, id))
    ensures StopOne(w, id) == LetGo(w, id).(files := StopOne(w, id).files)
    ensures LetGo(w, id) == w.(active := w.active - {id}, own := LetGo(w, id).own, released := LetGo(w, id).released)
  {
    if records {
      StopKeepsOrder(cfg, w, id);
    } else {
      GoneJobKeepsTidy(w, LetGo(w, id), id);
      LetGoKeepsLinked(cfg, w, id);
      LetGoKeepsBalance(cfg, w, id);
      LetGoKeepsSlots(cfg, w, id);
    }
  }

  lemma NamesOfAll(cfg: Config, w: World)
    requires InOrder(cfg, w)
    ensures forall id :: id in w.active ==> w.active[id].spec.id == id
  {
  }

  /** The jobs in `stopped` stand in running/ without a pid; nobody else's file has changed. */
  ghost predicate LeftForTheReaper(before: Files, after: Files, jobs: map<string, Job>, stopped: set<string>) {
    && (forall id :: id in stopped && id in jobs ==>
          Path(Running, id) in after && after[Path(Running, id)] == jobs[id].spec.(pid := None))
    && forall p: Path :: p.id !in stopped ==> SameFile(before, after, p)
  }

  lemma NoneLeft(files: Files, jobs: map<string, Job>)
    ensures LeftForTheReaper(files, files, jobs, {})
  {
  }

  lemma OneMoreLeft(before: Files, after: Files, jobs: map<string, Job>, stopped: set<string>, id: string)
    requires LeftForTheReaper(before, after, jobs, stopped) && id in jobs
    ensures LeftForTheReaper(before, after[Path(Running, id) := jobs[id].spec.(pid := None)], jobs, stopped + {id})
  {
  }

  lemma AllGivenBack(cfg: Config, w: World)
    requires InOrder(cfg, w) && w.active == map[]
    ensures w.own == []
    ensures forall token :: multiset(w.released)[token] == if token in w.taken then 1 else 0
  {
    IdleRunnerHoldsNothing(cfg, w, "");
    forall token
      ensures multiset(w.released)[token] == if token in w.taken then 1 else 0
    {
      IdleRunnerHoldsNothing(cfg, w, token);
    }
  }

  lemma ActiveIsNamed(cfg: Config, w: World, id: string)
    requires InOrder(cfg, w) && id in w.active
    ensures w.active[id].spec.id == id
  {
  }

  lemma NothingSettled(cfg: Config, m: Memory, w: World, ended: map<string, Ended>)
    ensures SettleAll(cfg, m, w, [], ended) == w
  {
  }

  lemma OneMoreSettled(cfg: Config, m: Memory, w: World, ids: seq<string>, id: string, ended: map<string, Ended>)
    requires id in SettleAll(cfg, m, w, ids, ended).active && id in ended
    ensures SettleAll(cfg, m, w, ids + [id], ended)
            == SettleOne(cfg, m, SettleAll(cfg, m, w, ids, ended), id, ended[id].r, ended[id].at)
  {
    assert (ids + [id])[..|ids|] == ids;
  }

  /** Settling a job asks only whether that job was convicted. */
  lemma SameMemoryOfThis(cfg: Config, m: Memory, n: Memory, w: World, id: string, r: Result, now: int)
    requires id in w.active && w.active[id].spec.id == id
    requires m.last == n.last && (id in m.convicted <==> id in n.convicted)
    ensures SettleOne(cfg, m, w, id, r, now) == SettleOne(cfg, n, w, id, r, now)
    ensures SettleOne(cfg, m, w, id, r, now).active == w.active - {id}
  {
  }

  lemma NothingLeft(cfg: Config, card: CardState, strikes: nat, p: Pass, pending: seq<Spec>, env: seq<Luck>)
    requires pending == [] && |env| == 0
    ensures RunPass(cfg, card, strikes, true, p, pending, env) == p
  {
  }

  /** How things go for each job of a list. */
  function EnvOf(luck: string -> Luck, specs: seq<Spec>): seq<Luck> {
    seq(|specs|, i requires 0 <= i < |specs| => luck(specs[i].id))
  }

  lemma ListingIsListed(cfg: Config, p: Pass, specs: seq<Spec>, env: seq<Luck>)
    requires InOrder(cfg, p.world) && |specs| == |env| && Sane(p.world, env)
    requires IsListing(p.world.files, Pending, specs)
    ensures Setting(cfg, p, specs, env)
  {
    forall i | 0 <= i < |specs|
      ensures p.world.files[Path(Pending, specs[i].id)] == specs[i]
    {
      assert specs[i] in specs;
    }
  }

  /** What a turn adds to `started` does not depend on what is there. */
  lemma StartedIsCarried(cfg: Config, card: CardState, strikes: nat, p: Pass, spec: Spec, e: Luck)
    ensures var q := AdmitPass.Consider(cfg, card, strikes, true, p.(started := []), spec, e);
            AdmitPass.Consider(cfg, card, strikes, true, p, spec, e) == q.(started := p.started + q.started)
  {
    hide Decide;
    var m := Moved(p, spec, e);
    SameDecision(cfg, card, strikes, m, spec, e);
    CarryStarted(cfg, m, spec, e, Decide(cfg, card, strikes, true, m, spec, e));
  }

  lemma SameDecision(cfg: Config, card: CardState, strikes: nat, m: Pass, spec: Spec, e: Luck)
    ensures Decide(cfg, card, strikes, true, m, spec, e) == Decide(cfg, card, strikes, true, m.(started := []), spec, e)
  {
  }

  lemma CarryStarted(cfg: Config, m: Pass, spec: Spec, e: Luck, v: Verdict)
    ensures var q := Carry(cfg, m.(started := []), spec, e, v);
            Carry(cfg, m, spec, e, v) == q.(started := m.started + q.started)
  {
    assert m.started + [] == m.started;
  }
}
