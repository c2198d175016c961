/**
 Whole runs of the queue: any interleaving of submissions, claims, recorded
 pids, finishes, retries and cancellations. A retry happens only below the
 attempt limit, as both retry paths check (src/gpuqueue/reaper.py:52,
 src/gpuqueue/runner.py:957), whatever runner makes it.
 */
module QueueRuns {
  import opened Base
  import opened Queue

  const MAX_ATTEMPTS := 1

  datatype Step =
    | Submit(spec: Spec)
    | Claim(id: string)
    | Update(spec: Spec)
    | Finish(spec: Spec, ok: bool)
    | Requeue(spec: Spec)
    | Cancel(id: string)

  /** The spec a runner has in hand is the one in running/, up to what a run may change in it. */
  predicate InHand(files: Files, spec: Spec) {
    var p := Path(Running, spec.id);
    p in files && files[p].attempts == spec.attempts && files[p].dedupeKey == spec.dedupeKey
  }

  predicate Accepts(files: Files, spec: Spec) {
    ValidSpec(spec) && !(spec.dedupeKey != "" && KeyActive(files, spec.dedupeKey)) && !IdExists(files, spec.id)
  }

  predicate Enabled(files: Files, s: Step) {
    match s
    case Submit(_) => true
    case Claim(_) => true
    case Cancel(_) => true
    case Update(spec) => InHand(files, spec)
    case Finish(spec, _) => InHand(files, spec)
    case Requeue(spec) => InHand(files, spec) && spec.attempts < MAX_ATTEMPTS
  }

  function Apply(files: Files, s: Step): Files
    requires Enabled(files, s)
  {
    match s
    case Submit(spec) => if Accepts(files, spec) then Submitted(files, spec) else files
    case Claim(id) => Claimed(files, id)
    case Cancel(id) => Cancelling(files, id)
    case Update(spec) => files[Path(Running, spec.id) := spec]
    case Finish(spec, ok) => Finished(files, spec, ok)
    case Requeue(spec) => Requeued(files, spec)
  }

  predicate IsRun(files: Files, steps: seq<Step>)
    decreases |steps|
  {
    steps == [] || (Enabled(files, steps[0]) && IsRun(Apply(files, steps[0]), steps[1..]))
  }

  function RunFrom(files: Files, steps: seq<Step>): Files
    requires IsRun(files, steps)
    decreases |steps|
  {
    if steps == [] then files else RunFrom(Apply(files, steps[0]), steps[1..])
  }

  ghost predicate Good(files: Files) {
    WellNamed(files) && OneState(files)
  }

  ghost predicate SameFile(f: Files, g: Files, p: Path) {
    (p in f <==> p in g) && (p in f ==> f[p] == g[p])
  }

  /** The files of this job are the same. */
  ghost predicate Agree(f: Files, g: Files, id: string) {
    forall state: State :: SameFile(f, g, Path(state, id))
  }

  /** Only the files of this job may differ. */
  ghost predicate OnlyFilesOf(f: Files, g: Files, id: string) {
    forall p: Path :: p.id != id ==> SameFile(f, g, p)
  }

  /** One file is gone, one is there with this spec, and every other is as it was. */
  ghost predicate MovesFile(before: Files, after: Files, a: Path, b: Path, spec: Spec) {
    && a != b && a !in after && b in after && after[b] == spec
    && forall p: Path :: p != a && p != b ==> SameFile(before, after, p)
  }

  /** One file is there with this spec, and every other is as it was. */
  ghost predicate PutsFile(before: Files, after: Files, b: Path, spec: Spec) {
    b in after && after[b] == spec && forall p: Path :: p != b ==> SameFile(before, after, p)
  }

  /** A submission that breaks no rule: its key is free or empty, its id new. */
  ghost predicate IsFree(files: Files, spec: Spec) {
    && (forall p: Path :: p in files ==> p.id != spec.id)
    && (spec.dedupeKey == ""
        || forall p: Path :: p in files && (p.state.Pending? || p.state.Running?) ==>
             files[p].dedupeKey != spec.dedupeKey)
  }

  /** What each step does to the files, and which retries there can be. */
  lemma StepExactly(files: Files, s: Step)
    requires Enabled(files, s)
    ensures var after := Apply(files, s);
            match s
            case Submit(spec) =>
              if ValidSpec(spec) && IsFree(files, spec) then PutsFile(files, after, Path(Pending, spec.id), spec)
              else after == files
            case Claim(id) =>
              if Path(Pending, id) in files then
                MovesFile(files, after, Path(Pending, id), Path(Running, id), files[Path(Pending, id)])
              else after == files
            case Update(spec) => PutsFile(files, after, Path(Running, spec.id), spec)
            case Finish(spec, ok) =>
              MovesFile(files, after, Path(Running, spec.id), if ok then Path(Done, spec.id) else Path(Failed, spec.id),
                        spec)
            case Requeue(spec) =>
              && spec.attempts < 1
              && MovesFile(files, after, Path(Running, spec.id), Path(Pending, spec.id),
                           spec.(attempts := spec.attempts + 1, pid := None))
            case Cancel(id) =>
              if Path(Pending, id) in files then
                MovesFile(files, after, Path(Pending, id), Path(Failed, id),
                          files[Path(Pending, id)].(error := Some(Cancelled)))
              else after == files
  {
    if s.Submit? {
      FreeIsAccepted(files, s.spec);
    }
  }

  lemma FreeIsAccepted(files: Files, spec: Spec)
    ensures Accepts(files, spec) <==> ValidSpec(spec) && IsFree(files, spec)
  {
    assert IdExists(files, spec.id) <==> exists p: Path :: p in files && p.id == spec.id;
    assert KeyActive(files, spec.dedupeKey)
           <==> exists p: Path :: p in files && (p.state.Pending? || p.state.Running?)
                                  && files[p].dedupeKey == spec.dedupeKey;
  }

  // ---------------------------------------------------------------------
  // One job's history
  // ---------------------------------------------------------------------

  /** Where a job is, and after how many attempts. */
  datatype Place = Absent | At(state: State, attempts: int)

  function PlaceOf(files: Files, id: string): Place {
    if Path(Pending, id) in files then At(Pending, files[Path(Pending, id)].attempts)
    else if Path(Running, id) in files then At(Running, files[Path(Running, id)].attempts)
    else if Path(Done, id) in files then At(Done, files[Path(Done, id)].attempts)
    else if Path(Failed, id) in files then At(Failed, files[Path(Failed, id)].attempts)
    else Absent
  }

  /** What a step does to the job `id`. */
  datatype Event = NoEvent | Entered | Taken | Ended(ok: bool) | SentBack | Withdrawn

  function EventOf(files: Files, s: Step, id: string): Event {
    match s
    case Submit(spec) => if spec.id == id && Accepts(files, spec) then Entered else NoEvent
    case Claim(i) => if i == id && Path(Pending, id) in files then Taken else NoEvent
    case Cancel(i) => if i == id && Path(Pending, id) in files then Withdrawn else NoEvent
    case Update(_) => NoEvent
    case Finish(spec, ok) => if spec.id == id then Ended(ok) else NoEvent
    case Requeue(spec) => if spec.id == id then SentBack else NoEvent
  }

  function NextPlace(p: Place, e: Event, entering: int): Place {
    match e
    case NoEvent => p
    case Entered => At(Pending, entering)
    case Taken => if p.At? then At(Running, p.attempts) else p
    case Ended(ok) => if p.At? then At(if ok then Done else Failed, p.attempts) else p
    case SentBack => if p.At? then At(Pending, p.attempts + 1) else p
    case Withdrawn => if p.At? then At(Failed, p.attempts) else p
  }

  lemma PlaceIsAPath(files: Files, id: string)
    ensures PlaceOf(files, id).Absent? <==> !IdExists(files, id)
  {
    forall p | p in files && p.id == id
      ensures PlaceOf(files, id).At?
    {
      assert p == Path(p.state, id);
      match p.state {
        case Pending =>
        case Running =>
        case Done =>
        case Failed =>
      }
    }
  }

  /** With each job in one directory, the file found is the place. */
  lemma PlaceOfFile(files: Files, p: Path)
    requires OneState(files) && p in files
    ensures PlaceOf(files, p.id) == At(p.state, files[p].attempts)
  {
    assert forall state :: Path(state, p.id) in files ==> Path(state, p.id) == p;
    match p.state {
      case Pending =>
      case Running =>
      case Done =>
      case Failed =>
    }
  }

  lemma PlaceOfOthers(files: Files, after: Files, id: string)
    requires forall p: Path :: p.id == id ==> (p in files <==> p in after) && (p in files ==> files[p] == after[p])
    ensures PlaceOf(after, id) == PlaceOf(files, id)
  {
  }

  /** Rewriting a file and renaming it within its job. */
  lemma MoveKeepsGood(files: Files, a: Path, b: Path, spec: Spec, id: string)
    requires Good(files) && a in files && a.id == b.id == spec.id
    ensures var after := Rename(files[a := spec], a, b);
            && Good(after)
            && PlaceOf(after, id) == if id == spec.id then At(b.state, spec.attempts) else PlaceOf(files, id)
  {
    var after := Rename(files[a := spec], a, b);
    assert after == (files - {a})[b := spec];
    if id == spec.id {
      PlaceOfFile(after, b);
    } else {
      PlaceOfOthers(files, after, id);
    }
  }

  lemma EntryKeepsGood(files: Files, spec: Spec, id: string)
    requires Good(files) && !IdExists(files, spec.id)
    ensures var after := Submitted(files, spec);
            && Good(after)
            && PlaceOf(after, id) == if id == spec.id then At(Pending, spec.attempts) else PlaceOf(files, id)
  {
    var after := Submitted(files, spec);
    if id == spec.id {
      PlaceOfFile(after, Path(Pending, spec.id));
    } else {
      PlaceOfOthers(files, after, id);
    }
  }

  /** Every step keeps each job in one directory, and moves one job along its path. */
  lemma StepMovesOneJob(files: Files, s: Step, id: string)
    requires Good(files) && Enabled(files, s)
    ensures Good(Apply(files, s))
    ensures PlaceOf(Apply(files, s), id)
            == NextPlace(PlaceOf(files, id), EventOf(files, s, id), if s.Submit? then s.spec.attempts else 0)
    ensures EventOf(files, s, id).Entered? ==> PlaceOf(files, id).Absent?
    ensures EventOf(files, s, id).Taken? || EventOf(files, s, id).Withdrawn? ==>
              PlaceOf(files, id).At? && PlaceOf(files, id).state.Pending?
    ensures EventOf(files, s, id).Ended? || EventOf(files, s, id).SentBack? ==>
              PlaceOf(files, id).At? && PlaceOf(files, id).state.Running?
    ensures EventOf(files, s, id).SentBack? ==> PlaceOf(files, id).attempts < 1
  {
    match s {
      case Submit(spec) =>
        if Accepts(files, spec) {
          EntryKeepsGood(files, spec, id);
          PlaceIsAPath(files, id);
        }
      case Claim(i) =>
        var src := Path(Pending, i);
        if src in files {
          PlaceOfFile(files, src);
          assert files[src := files[src]] == files;
          MoveKeepsGood(files, src, Path(Running, i), files[src], id);
        }
      case Cancel(i) =>
        var src := Path(Pending, i);
        if src in files {
          PlaceOfFile(files, src);
          MoveKeepsGood(files, src, Path(Failed, i), files[src].(error := Some(Cancelled)), id);
        }
      case Update(spec) =>
        var src := Path(Running, spec.id);
        PlaceOfFile(files, src);
        PlaceOfFile(Apply(files, s), src);
        if id != spec.id {
          PlaceOfOthers(files, Apply(files, s), id);
        }
      case Finish(spec, ok) =>
        PlaceOfFile(files, Path(Running, spec.id));
        MoveKeepsGood(files, Path(Running, spec.id), Path(if ok then Done else Failed, spec.id), spec, id);
      case Requeue(spec) =>
        PlaceOfFile(files, Path(Running, spec.id));
        MoveKeepsGood(files, Path(Running, spec.id), Path(Pending, spec.id), Retried(spec), id);
    }
  }

  // ---------------------------------------------------------------------
  // Conservation
  // ---------------------------------------------------------------------

  predicate AcceptedIn(files: Files, steps: seq<Step>, id: string)
    requires IsRun(files, steps)
    decreases |steps|
  {
    steps != [] && (EventOf(files, steps[0], id).Entered? || AcceptedIn(Apply(files, steps[0]), steps[1..], id))
  }

  /** No job is lost and none appears from nowhere: after any run each id
      there was, or was accepted, is in exactly one directory, and no other. */
  lemma {:induction false} JobsAreConserved(files: Files, steps: seq<Step>, id: string)
    requires Good(files) && IsRun(files, steps)
    ensures Good(RunFrom(files, steps))
    ensures IdExists(RunFrom(files, steps), id) <==> IdExists(files, id) || AcceptedIn(files, steps, id)
    decreases |steps|
  {
    if steps != [] {
      StepMovesOneJob(files, steps[0], id);
      PlaceIsAPath(files, id);
      PlaceIsAPath(Apply(files, steps[0]), id);
      JobsAreConserved(Apply(files, steps[0]), steps[1..], id);
    }
  }

  // ---------------------------------------------------------------------
  // Counting
  // ---------------------------------------------------------------------

  function Bit(b: bool): nat {
    if b then 1 else 0
  }

  datatype Tally = Tally(entered: nat, taken: nat, ended: nat, sentBack: nat, withdrawn: nat)

  function Count(files: Files, steps: seq<Step>, id: string): Tally
    requires IsRun(files, steps)
    decreases |steps|
  {
    if steps == [] then Tally(0, 0, 0, 0, 0)
    else
      var e := EventOf(files, steps[0], id);
      var t := Count(Apply(files, steps[0]), steps[1..], id);
      Tally(t.entered + Bit(e.Entered?), t.taken + Bit(e.Taken?), t.ended + Bit(e.Ended?),
            t.sentBack + Bit(e.SentBack?), t.withdrawn + Bit(e.Withdrawn?))
  }

  function InState(files: Files, id: string, state: State): nat {
    Bit(PlaceOf(files, id).At? && PlaceOf(files, id).state == state)
  }

  function Left(p: Place): nat {
    if p.At? && p.attempts < MAX_ATTEMPTS then MAX_ATTEMPTS - p.attempts else 0
  }

  /** An upper bound on the moves a job has left. */
  function Measure(p: Place): nat {
    if p.Absent? then 0
    else match p.state
      case Pending => 2 * Left(p) + 2
      case Running => 2 * Left(p) + 1
      case _ => 0
  }

  lemma StepBalance(files: Files, s: Step, id: string)
    requires Good(files) && Enabled(files, s)
    ensures var e := EventOf(files, s, id);
            var after := Apply(files, s);
            && Good(after)
            && InState(files, id, Pending) + Bit(e.Entered?) + Bit(e.SentBack?)
               == Bit(e.Taken?) + Bit(e.Withdrawn?) + InState(after, id, Pending)
            && InState(files, id, Running) + Bit(e.Taken?)
               == Bit(e.Ended?) + Bit(e.SentBack?) + InState(after, id, Running)
            && (IdExists(files, id) ==>
                  !e.Entered? && IdExists(after, id)
                  && Bit(e.SentBack?) + Left(PlaceOf(after, id)) == Left(PlaceOf(files, id)))
  {
    StepMovesOneJob(files, s, id);
    PlaceIsAPath(files, id);
    PlaceIsAPath(Apply(files, s), id);
  }

  /** The balance of pending/ and of running/: what went in came out or is
      still there. And each retry spends one of the attempts left. */
  lemma {:induction false} VisitsBalance(files: Files, steps: seq<Step>, id: string)
    requires Good(files) && IsRun(files, steps)
    ensures var t := Count(files, steps, id);
            var end := RunFrom(files, steps);
            && InState(files, id, Pending) + t.entered + t.sentBack == t.taken + t.withdrawn + InState(end, id, Pending)
            && InState(files, id, Running) + t.taken == t.ended + t.sentBack + InState(end, id, Running)
            && (IdExists(files, id) ==>
                  t.entered == 0 && t.sentBack + Left(PlaceOf(end, id)) == Left(PlaceOf(files, id)))
    decreases |steps|
  {
    if steps != [] {
      StepBalance(files, steps[0], id);
      VisitsBalance(Apply(files, steps[0]), steps[1..], id);
    }
  }

  /** Of any number of claimers and cancellers of one pending visit exactly one gets the job. */
  lemma ExactlyOneWinner(files: Files, steps: seq<Step>, id: string)
    requires Good(files) && IsRun(files, steps)
    requires Path(Pending, id) in files
    requires Claim(id) in steps || Cancel(id) in steps
    requires Count(files, steps, id).sentBack == 0
    ensures Count(files, steps, id).taken + Count(files, steps, id).withdrawn == 1
  {
    VisitsBalance(files, steps, id);
    PlaceIsAPath(files, id);
    SomebodyWins(files, steps, id);
  }

  lemma InPending(files: Files, id: string)
    requires OneState(files)
    ensures Path(Pending, id) in files <==> InState(files, id, Pending) == 1
  {
  }

  lemma {:induction false} SomebodyWins(files: Files, steps: seq<Step>, id: string)
    requires Good(files) && IsRun(files, steps)
    requires Path(Pending, id) in files
    requires Claim(id) in steps || Cancel(id) in steps
    ensures Count(files, steps, id).taken + Count(files, steps, id).withdrawn >= 1
    decreases |steps|
  {
    var e := EventOf(files, steps[0], id);
    if !e.Taken? && !e.Withdrawn? {
      assert steps[0] != Claim(id) && steps[0] != Cancel(id);
      assert steps == [steps[0]] + steps[1..];
      StepBalance(files, steps[0], id);
      InPending(files, id);
      InPending(Apply(files, steps[0]), id);
      SomebodyWins(Apply(files, steps[0]), steps[1..], id);
    }
  }

  /** A job submitted with `a` attempts is retried at most max(0, 1 - a)
      times and enters running/ at most once more than that. */
  lemma RetriesAreBounded(files: Files, spec: Spec, steps: seq<Step>)
    requires Good(files) && Accepts(files, spec) && IsRun(Submitted(files, spec), steps)
    ensures var t := Count(Submitted(files, spec), steps, spec.id);
            var most := if spec.attempts < 1 then 1 - spec.attempts else 0;
            t.sentBack <= most && t.taken <= most + 1
  {
    assert Apply(files, Submit(spec)) == Submitted(files, spec);
    StepMovesOneJob(files, Submit(spec), spec.id);
    PlaceIsAPath(Submitted(files, spec), spec.id);
    VisitsBalance(Submitted(files, spec), steps, spec.id);
  }

  // ---------------------------------------------------------------------
  // Termination
  // ---------------------------------------------------------------------

  ghost predicate Moves(files: Files, s: Step, id: string) {
    var e := EventOf(files, s, id);
    !e.NoEvent? && !e.Entered?
  }

  function Total(files: Files, ids: seq<string>): nat {
    if ids == [] then 0 else Measure(PlaceOf(files, ids[0])) + Total(files, ids[1..])
  }

  lemma {:induction false} TotalNeverRises(files: Files, s: Step, ids: seq<string>)
    requires Good(files) && Enabled(files, s)
    requires forall id :: id in ids ==> IdExists(files, id)
    ensures Total(Apply(files, s), ids) <= Total(files, ids)
  {
    if ids != [] {
      StepMovesOneJob(files, s, ids[0]);
      PlaceIsAPath(files, ids[0]);
      TotalNeverRises(files, s, ids[1..]);
    }
  }

  /** Every move of a job lowers the total over any list of known jobs that names it. */
  lemma {:induction false} EveryMoveLowersTheTotal(files: Files, s: Step, ids: seq<string>, id: string)
    requires Good(files) && Enabled(files, s)
    requires forall i :: i in ids ==> IdExists(files, i)
    requires id in ids && Moves(files, s, id)
    ensures Total(Apply(files, s), ids) < Total(files, ids)
  {
    StepMovesOneJob(files, s, ids[0]);
    PlaceIsAPath(files, ids[0]);
    if ids[0] == id {
      TotalNeverRises(files, s, ids[1..]);
    } else {
      EveryMoveLowersTheTotal(files, s, ids[1..], id);
    }
  }
}
