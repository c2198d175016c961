/**
 One admission pass (src/gpuqueue/runner.py, `admit`) as a function of the
 runner's state, the sorted pending jobs, and everything the pass does not
 control: for each job, what other claimants hold when it is looked at, whether
 it has left pending/ meanwhile, and how each outside call turns out.
 */
module AdmitPass {
  import opened Base
  import opened Ledger
  import opened Queue

  const GPUID_STRIKES := 3

  datatype Config = Config(
    cpuSlots: nat, gpuMaxJobs: nat, projects: set<string>, runnerPid: int,
    sweepInterval: nat, pollInterval: nat)

  /** A running job. `claim` names the ledger record it holds the card by. */
  datatype Job = Job(spec: Spec, pid: int, claim: Option<string>, started: int)

  /** The runner's state and the state it shares: `own` are its records in the
      ledger, `others` the live records of everybody else. `taken` and `released`
      log every claim entered and exited. */
  datatype World = World(
    others: seq<Record>, own: seq<Record>, active: map<string, Job>, files: Files,
    taken: seq<string>, released: seq<string>)

  /** What `_ready_card` found, once per pass: the card can be handed out, a
      stranger is on it (`PreflightFailed`), or it could not be named (`GpuIdError`). */
  datatype CardState = NotAsked | Ready | Contended | Unidentified {
    predicate Refuses() {
      Contended? || Unidentified?
    }
  }

  datatype Luck = Luck(
    others: seq<Record>,          // other holders when this job is looked at
    gone: bool,                   // cancelled between the listing and here
    usable: Option<int>,          // the capacity answer
    mutexTimeout: bool,
    checksOut: bool, starts: bool,
    pid: int, token: string, now: int)

  datatype Pass = Pass(world: World, started: seq<string>, closed: bool, blocked: bool)

  datatype Verdict = Skip | Fail(reason: Reason) | CloseCard | BlockMutex | Try

  /** The card is looked at only if there is a GPU job with room for it; `answer`
      is what a look would find. */
  function LookUp(cfg: Config, active: map<string, Job>, pending: seq<Spec>, answer: CardState): CardState {
    var wanted := exists i :: 0 <= i < |pending| && pending[i].lane.Gpu?;
    if wanted && Capacity(cfg, active, Gpu) > 0 then answer else NotAsked
  }

  function LaneIds(active: map<string, Job>, lane: Lane): set<string> {
    set id | id in active && active[id].spec.lane == lane
  }

  function Capacity(cfg: Config, active: map<string, Job>, lane: Lane): int {
    (if lane.Cpu? then cfg.cpuSlots else cfg.gpuMaxJobs) - |LaneIds(active, lane)|
  }

  function Holders(w: World): seq<Record> {
    w.others + w.own
  }

  function HolderCap(cfg: Config): Option<int> {
    Some(cfg.gpuMaxJobs)
  }

  function Moved(p: Pass, spec: Spec, e: Luck): Pass {
    p.(world := p.world.(others := e.others,
                         files := if e.gone then Cancelling(p.world.files, spec.id) else p.world.files))
  }

  /** `_take_card`: the part of the decision that depends on the job's declaration. */
  function TakeVerdict(cfg: Config, w: World, spec: Spec, e: Luck): Verdict {
    if ExceedsCapacity(spec.vram, e.usable) then Fail(NeverFits)
    else if !ValidDeclaration(spec.vram) then Fail(BadVram)
    else if e.mutexTimeout then BlockMutex
    else if Fits(Holders(w), AsWant(spec.vram), e.usable, HolderCap(cfg)) then Try
    else if CardIsClosed(Holders(w), e.usable, HolderCap(cfg)) then CloseCard
    else Skip
  }

  /** The tests of one turn of the loop, in order. With `shortcut` off every
      GPU job is tried even after the card was found closed. */
  function Decide(cfg: Config, card: CardState, strikes: nat, shortcut: bool, p: Pass, spec: Spec, e: Luck): Verdict {
    if spec.project !in cfg.projects then Fail(UnknownProject)
    else if Capacity(cfg, p.world.active, spec.lane) <= 0 then Skip
    else if spec.lane.Cpu? then Try
    else if p.blocked || (shortcut && p.closed) || card.Contended? then Skip
    else if card.Unidentified? then if strikes < GPUID_STRIKES then Skip else Fail(NoUsableGpu)
    else TakeVerdict(cfg, p.world, spec, e)
  }

  function FailedSpec(spec: Spec, reason: Reason): Spec {
    spec.(error := Some(reason), exitCode := Some(-1), pid := None)
  }

  /** `_fail_pending`: claim, then finish as failed; nothing if the job is gone. */
  function FailPending(files: Files, id: string, reason: Reason): Files {
    if Path(Pending, id) in files then
      Finished(Claimed(files, id), FailedSpec(files[Path(Pending, id)], reason), false)
    else files
  }

  function ClaimRecord(cfg: Config, spec: Spec, e: Luck): Record {
    Record(e.token, cfg.runnerPid, None, AsWant(spec.vram), "gpuq:" + spec.id, None, None)
  }

  predicate Starts(w: World, spec: Spec, e: Luck) {
    Path(Pending, spec.id) in w.files && e.checksOut && e.starts
  }

  function StartedSpec(cfg: Config, spec: Spec, e: Luck): Spec {
    spec.(pid := Some(e.pid), runnerPid := Some(cfg.runnerPid))
  }

  /** The token of the claim a job of this lane is taken under, if it needs one. */
  function Tokens(spec: Spec, e: Luck): seq<string> {
    if spec.lane.Gpu? then [e.token] else []
  }

  function StartedJob(cfg: Config, spec: Spec, e: Luck): Job {
    Job(StartedSpec(cfg, spec, e), e.pid, if spec.lane.Gpu? then Some(e.token) else None, e.now)
  }

  /** The launch succeeds: the job is active and its record is charged to its process. */
  function Launched(cfg: Config, w: World, spec: Spec, e: Luck): World
    requires Path(Pending, spec.id) in w.files
  {
    var job := StartedJob(cfg, w.files[Path(Pending, spec.id)], e);
    World(w.others,
          if spec.lane.Gpu? then w.own + [ClaimRecord(cfg, spec, e).(usagePid := Some(e.pid))] else w.own,
          w.active[spec.id := job],
          Claimed(w.files, spec.id)[Path(Running, spec.id) := job.spec],
          w.taken + Tokens(spec, e), w.released)
  }

  /** The job is gone or does not launch: the card, if taken, is given back. */
  function GivenBack(w: World, spec: Spec, e: Luck): World {
    w.(files := FailPending(w.files, spec.id, if e.checksOut then StartFailed else CheckoutFailed),
       taken := w.taken + Tokens(spec, e), released := w.released + Tokens(spec, e))
  }

  /** The card is held (for a GPU job); claim the job and launch it. */
  function Begin(cfg: Config, w: World, spec: Spec, e: Luck): World {
    if Starts(w, spec, e) then Launched(cfg, w, spec, e) else GivenBack(w, spec, e)
  }

  function Carry(cfg: Config, p: Pass, spec: Spec, e: Luck, v: Verdict): Pass {
    match v
    case Skip => p
    case Fail(reason) => p.(world := p.world.(files := FailPending(p.world.files, spec.id, reason)))
    case CloseCard => p.(closed := true)
    case BlockMutex => p.(blocked := true)
    case Try =>
      p.(world := Begin(cfg, p.world, spec, e),
         started := if Starts(p.world, spec, e) then p.started + [spec.id] else p.started)
  }

  function Consider(cfg: Config, card: CardState, strikes: nat, shortcut: bool, p: Pass, spec: Spec, e: Luck): Pass {
    var q := Moved(p, spec, e);
    Carry(cfg, q, spec, e, Decide(cfg, card, strikes, shortcut, q, spec, e))
  }

  function RunPass(cfg: Config, card: CardState, strikes: nat, shortcut: bool, p: Pass, pending: seq<Spec>,
      env: seq<Luck>): Pass
    requires |pending| == |env|
    decreases |pending|
  {
    if pending == [] then p
    else RunPass(cfg, card, strikes, shortcut, Consider(cfg, card, strikes, shortcut, p, pending[0], env[0]),
        pending[1..], env[1..])
  }

  // ---------------------------------------------------------------------
  // What slots and room are
  // ---------------------------------------------------------------------

  /** As many jobs of this lane are active as the configuration allows. */
  ghost predicate LaneFull(cfg: Config, active: map<string, Job>, lane: Lane) {
    match lane
    case Cpu => |set id | id in active && active[id].spec.lane.Cpu?| >= cfg.cpuSlots
    case Gpu => |set id | id in active && active[id].spec.lane.Gpu?| >= cfg.gpuMaxJobs
  }

  /** No lane has more active jobs than the configuration allows. */
  ghost predicate WithinSlots(cfg: Config, w: World) {
    && |set id | id in w.active && w.active[id].spec.lane.Cpu?| <= cfg.cpuSlots
    && |set id | id in w.active && w.active[id].spec.lane.Gpu?| <= cfg.gpuMaxJobs
  }

  lemma SlotsAreCounted(cfg: Config, active: map<string, Job>)
    ensures Capacity(cfg, active, Cpu) == cfg.cpuSlots - |set id | id in active && active[id].spec.lane.Cpu?|
    ensures Capacity(cfg, active, Gpu) == cfg.gpuMaxJobs - |set id | id in active && active[id].spec.lane.Gpu?|
    ensures forall lane: Lane :: Capacity(cfg, active, lane) <= 0 <==> LaneFull(cfg, active, lane)
  {
    assert LaneIds(active, Cpu) == set id | id in active && active[id].spec.lane.Cpu?;
    assert LaneIds(active, Gpu) == set id | id in active && active[id].spec.lane.Gpu?;
  }

  /** The declaration is a number of MiB above zero, or the whole card. */
  ghost predicate WellDeclared(d: Declared) {
    d.Whole? || (d.Mb? && d.n > 0)
  }

  /** The declaration asks for more than there is on the empty card. */
  ghost predicate TooLarge(d: Declared, usable: Option<int>) {
    d.Mb? && usable.Some? && d.n > usable.value
  }

  /** Beside these holders there is room for one that declares `d`: the card is
      below its limit of jobs, nobody has it to himself, and either nobody is on
      it or the declarations add up to no more than it has. */
  ghost predicate RoomFor(cfg: Config, usable: Option<int>, holders: seq<Record>, d: Declared) {
    && WellDeclared(d) && !TooLarge(d, usable)
    && |holders| < cfg.gpuMaxJobs
    && (holders == []
        || (&& (forall i :: 0 <= i < |holders| ==> holders[i].vramMb.Some?)
            && d.Mb? && usable.Some? && SumMb(holders) + d.n <= usable.value))
  }

  /** Beside these holders there is room for nobody. */
  ghost predicate NoRoomForAny(cfg: Config, usable: Option<int>, holders: seq<Record>) {
    || |holders| >= cfg.gpuMaxJobs
    || (holders != []
        && (|| usable.None? || SumMb(holders) >= usable.value
            || exists i :: 0 <= i < |holders| && holders[i].vramMb.None?))
  }

  lemma RoomIsFit(cfg: Config, usable: Option<int>, holders: seq<Record>, d: Declared)
    requires WellDeclared(d)
    ensures ValidDeclaration(d) && (ExceedsCapacity(d, usable) <==> TooLarge(d, usable))
    ensures RoomFor(cfg, usable, holders, d)
            <==> !TooLarge(d, usable) && Fits(holders, AsWant(d), usable, HolderCap(cfg))
  {
    assert holders == [] ==> SumMb(holders) == 0;
    assert AnyExclusive(holders) <==> !forall i :: 0 <= i < |holders| ==> holders[i].vramMb.Some?;
  }

  lemma NoRoomIsClosed(cfg: Config, usable: Option<int>, holders: seq<Record>)
    ensures NoRoomForAny(cfg, usable, holders) <==> CardIsClosed(holders, usable, HolderCap(cfg))
  {
    assert AnyExclusive(holders) <==> exists i :: 0 <= i < |holders| && holders[i].vramMb.None?;
  }

  // ---------------------------------------------------------------------
  // Assumptions about the surroundings
  // ---------------------------------------------------------------------

  /** The pending jobs are distinct, and each is as listed while it is still pending. */
  ghost predicate Listed(files: Files, pending: seq<Spec>) {
    && (forall i, j :: 0 <= i < j < |pending| ==> pending[i].id != pending[j].id)
    && forall i :: 0 <= i < |pending| && Path(Pending, pending[i].id) in files ==>
         files[Path(Pending, pending[i].id)] == pending[i]
  }

  /** Records are properly named and declared; the tokens of this pass are new and different. */
  ghost predicate Sane(w: World, env: seq<Luck>) {
    && DistinctPaths(w.own) && PositiveDeclarations(w.own)
    && (forall k :: 0 <= k < |env| ==>
          && DistinctPaths(env[k].others) && PositiveDeclarations(env[k].others)
          && Apart(env[k].others, w.own)
          && env[k].token !in w.taken)
    && (forall k, l :: 0 <= k < |env| && 0 <= l < |env| ==> NotNamed(env[k].token, env[l].others))
    && (forall k, l :: 0 <= k < l < |env| ==> env[k].token != env[l].token)
  }

  ghost predicate NotNamed(path: string, records: seq<Record>) {
    forall i :: 0 <= i < |records| ==> records[i].path != path
  }

  ghost predicate Apart(a: seq<Record>, b: seq<Record>) {
    forall i, j :: 0 <= i < |a| && 0 <= j < |b| ==> a[i].path != b[j].path
  }

  /** No outside holder leaves during the pass, and the capacity answer does not change. */
  ghost predicate Stable(w: World, env: seq<Luck>, usable: Option<int>) {
    && (forall k :: 0 <= k < |env| ==> env[k].usable == usable)
    && (env != [] ==> w.others <= env[0].others)
    && forall k :: 0 <= k < |env| - 1 ==> env[k].others <= env[k + 1].others
  }
}
