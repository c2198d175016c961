/**
 `submit` against everybody else (src/gpuqueue/queue.py, `submit`).

 Submitters are serialised by the submit lock; claims, finishes, cancellations
 and retries take no lock, and land between any two reads of the scan. The
 scan lists pending/, reads it file by file, then does the same with running/.
 */
module SubmitRace {
  import opened Base
  import opened Queue
  import opened QueueRuns

  datatype Phase =
    | Locked
    | ReadingPending(ids: seq<string>)
    | PendingRead
    | ReadingRunning(ids: seq<string>)
    | Clear                                  // neither scan met the key

  /** `submitter` is the job of whoever holds the lock. */
  datatype World = World(files: Files, submitter: Option<Spec>, phase: Phase)

  datatype Act =
    | TakeLock(spec: Spec)
    | ListPending(ids: seq<string>)
    | ReadPending
    | ListRunning(ids: seq<string>)
    | ReadRunning
    | Publish
    | Other(step: Step)                      // anybody else; a submission without a key reads nothing

  ghost predicate Ids(files: Files, state: State, ids: seq<string>) {
    forall id :: Path(state, id) in files ==> id in ids
  }

  ghost predicate CanAct(w: World, a: Act) {
    match a
    case TakeLock(spec) => w.submitter.None? && ValidSpec(spec) && spec.dedupeKey != ""
    case ListPending(ids) => w.submitter.Some? && w.phase.Locked? && Ids(w.files, Pending, ids)
    case ReadPending => w.submitter.Some? && w.phase.ReadingPending?
    case ListRunning(ids) => w.submitter.Some? && w.phase.PendingRead? && Ids(w.files, Running, ids)
    case ReadRunning => w.submitter.Some? && w.phase.ReadingRunning?
    case Publish => w.submitter.Some? && w.phase.Clear?
    case Other(s) => Enabled(w.files, s) && (s.Submit? ==> s.spec.dedupeKey == "" && w.submitter.None?)
  }

  /** The key of the file read, if it is still there. */
  predicate Meets(w: World, p: Path)
    requires w.submitter.Some?
  {
    p in w.files && w.files[p].dedupeKey == w.submitter.value.dedupeKey
  }

  ghost function Next(w: World, a: Act): World
    requires CanAct(w, a)
  {
    match a
    case TakeLock(spec) => World(w.files, Some(spec), Locked)
    case ListPending(ids) => w.(phase := ReadingPending(ids))
    case ReadPending =>
      var ids := w.phase.ids;
      if ids == [] then w.(phase := PendingRead)
      else if Meets(w, Path(Pending, ids[0])) then w.(submitter := None)
      else w.(phase := ReadingPending(ids[1..]))
    case ListRunning(ids) => w.(phase := ReadingRunning(ids))
    case ReadRunning =>
      var ids := w.phase.ids;
      if ids == [] then w.(phase := Clear)
      else if Meets(w, Path(Running, ids[0])) then w.(submitter := None)
      else w.(phase := ReadingRunning(ids[1..]))
    case Publish =>
      var spec := w.submitter.value;
      w.(submitter := None,
         files := if IdExists(w.files, spec.id) then w.files else Submitted(w.files, spec))
    case Other(s) => w.(files := Apply(w.files, s))
  }

  predicate SameKey(a: Spec, b: Spec) {
    a.dedupeKey != "" && a.dedupeKey == b.dedupeKey
  }

  /** At most one active job carries a given key. */
  ghost predicate UniqueKeys(files: Files) {
    forall p, q :: p in files && q in files && Active(p) && Active(q) && SameKey(files[p], files[q]) ==> p == q
  }

  /** What the scan has established so far about the active jobs with the key. */
  ghost predicate ScanOk(w: World)
    requires w.submitter.Some?
  {
    match w.phase
    case Locked => true
    case ReadingPending(ids) => forall id :: Meets(w, Path(Pending, id)) ==> id in ids
    case PendingRead => forall id :: !Meets(w, Path(Pending, id))
    case ReadingRunning(ids) =>
      forall id :: !Meets(w, Path(Pending, id)) && (Meets(w, Path(Running, id)) ==> id in ids)
    case Clear => forall id :: !Meets(w, Path(Pending, id)) && !Meets(w, Path(Running, id))
  }

  ghost predicate Sound(w: World) {
    Good(w.files) && (w.submitter.Some? ==> ScanOk(w) && w.submitter.value.dedupeKey != "")
  }

  // ---------------------------------------------------------------------
  // What one step does to the keys
  // ---------------------------------------------------------------------

  /** Where an active job with a key was before the step: it stayed, or it was
      claimed, or it was sent back. */
  lemma Before(files: Files, s: Step, p: Path) returns (q: Path)
    requires Good(files) && Enabled(files, s) && (s.Submit? ==> s.spec.dedupeKey == "")
    requires p in Apply(files, s) && Active(p) && Apply(files, s)[p].dedupeKey != ""
    ensures q in files && Active(q) && q.id == p.id && files[q].dedupeKey == Apply(files, s)[p].dedupeKey
    ensures q == p || (p.state.Running? && q.state.Pending?)
            || (s.Requeue? && s.spec.id == p.id && s.spec.dedupeKey == files[q].dedupeKey)
    ensures q == p || s.Requeue? || files[q].attempts == Apply(files, s)[p].attempts
    ensures q == p ==> files[q].attempts == Apply(files, s)[p].attempts
  {
    var after := Apply(files, s);
    q := if p in files && after[p].dedupeKey == files[p].dedupeKey then p
         else Path(if p.state.Running? then Pending else Running, p.id);
  }

  lemma OtherKeepsUnique(files: Files, s: Step)
    requires Good(files) && Enabled(files, s) && (s.Submit? ==> s.spec.dedupeKey == "")
    requires UniqueKeys(files)
    ensures UniqueKeys(Apply(files, s))
  {
    var after := Apply(files, s);
    StepMovesOneJob(files, s, "");
    forall p, q | p in after && q in after && Active(p) && Active(q) && SameKey(after[p], after[q])
      ensures p == q
    {
      var p0 := Before(files, s, p);
      var q0 := Before(files, s, q);
      assert p0 == q0;
    }
  }

  /** Between the listing of pending/ and the last read of running/. */
  predicate InTheGap(p: Phase) {
    p.ReadingPending? || p.PendingRead? || p.ReadingRunning?
  }

  /** A retry that the scan may miss: of a job with the key, while the scan is under way. */
  predicate RetriesInTheGap(w: World, a: Act) {
    && w.submitter.Some? && InTheGap(w.phase)
    && a.Other? && a.step.Requeue? && a.step.spec.dedupeKey == w.submitter.value.dedupeKey
  }

  lemma OtherKeepsSound(w: World, s: Step)
    requires Sound(w) && CanAct(w, Other(s)) && !RetriesInTheGap(w, Other(s))
    ensures Sound(Next(w, Other(s)))
    ensures UniqueKeys(w.files) ==> UniqueKeys(Apply(w.files, s))
  {
    StepMovesOneJob(w.files, s, "");
    if UniqueKeys(w.files) {
      OtherKeepsUnique(w.files, s);
    }
    if w.submitter.Some? {
      var v := Next(w, Other(s));
      forall p | Meets(v, p) && Active(p)
        ensures w.phase.Locked? || Meets(w, p) || (p.state.Running? && Meets(w, Path(Pending, p.id)))
                || (w.phase.Clear? && Meets(w, Path(Running, p.id)))
      {
        var q := Before(w.files, s, p);
        assert q == Path(q.state, p.id);
      }
      OtherKeepsScan(w, v);
    }
  }

  lemma OtherKeepsScan(w: World, v: World)
    requires w.submitter.Some? && ScanOk(w)
    requires v.submitter == w.submitter && v.phase == w.phase
    requires forall p :: Meets(v, p) && Active(p) ==>
               w.phase.Locked? || Meets(w, p) || (p.state.Running? && Meets(w, Path(Pending, p.id)))
               || (w.phase.Clear? && Meets(w, Path(Running, p.id)))
    ensures ScanOk(v)
  {
    forall id
      ensures Meets(v, Path(Pending, id)) ==> w.phase.Locked? || Meets(w, Path(Pending, id)) || w.phase.Clear?
      ensures Meets(v, Path(Running, id)) ==>
                w.phase.Locked? || Meets(w, Path(Running, id)) || Meets(w, Path(Pending, id))
      ensures w.phase.Clear? ==> !Meets(v, Path(Pending, id)) && !Meets(v, Path(Running, id))
    {
      assert Active(Path(Pending, id)) && Active(Path(Running, id));
    }
  }

  lemma ScanKeepsSound(w: World, a: Act)
    requires Sound(w) && CanAct(w, a) && !a.Other? && !a.Publish?
    ensures Sound(Next(w, a)) && Next(w, a).files == w.files
  {
    if a.ReadPending? || a.ReadRunning? {
      var ids := w.phase.ids;
      if ids != [] {
        assert ids == [ids[0]] + ids[1..];
      }
    }
  }

  /** A scan that met nobody, and missed nobody, publishes a key that is not in use. */
  lemma PublishKeepsUnique(w: World)
    requires Sound(w) && CanAct(w, Publish) && UniqueKeys(w.files)
    ensures Sound(Next(w, Publish)) && UniqueKeys(Next(w, Publish).files)
  {
    var spec := w.submitter.value;
    if !IdExists(w.files, spec.id) {
      EntryKeepsGood(w.files, spec, spec.id);
      forall p | p in w.files && Active(p)
        ensures !SameKey(w.files[p], spec) && !SameKey(spec, w.files[p])
      {
        assert p == Path(p.state, p.id);
        assert !Meets(w, Path(Pending, p.id)) && !Meets(w, Path(Running, p.id));
      }
    }
  }

  // ---------------------------------------------------------------------
  // Runs
  // ---------------------------------------------------------------------

  ghost predicate IsRace(w: World, acts: seq<Act>)
    decreases |acts|
  {
    acts == [] || (CanAct(w, acts[0]) && IsRace(Next(w, acts[0]), acts[1..]))
  }

  ghost function After(w: World, acts: seq<Act>): World
    requires IsRace(w, acts)
    decreases |acts|
  {
    if acts == [] then w else After(Next(w, acts[0]), acts[1..])
  }

  /** No retry of a job with the key lands while a submitter scans for it. */
  ghost predicate NoRetryInTheGap(w: World, acts: seq<Act>)
    requires IsRace(w, acts)
    decreases |acts|
  {
    acts == [] || (!RetriesInTheGap(w, acts[0]) && NoRetryInTheGap(Next(w, acts[0]), acts[1..]))
  }

  lemma ActKeepsSound(w: World, a: Act)
    requires Sound(w) && UniqueKeys(w.files) && CanAct(w, a) && !RetriesInTheGap(w, a)
    ensures Sound(Next(w, a)) && UniqueKeys(Next(w, a).files)
  {
    match a {
      case Other(s) => OtherKeepsSound(w, s);
      case Publish => PublishKeepsUnique(w);
      case _ => ScanKeepsSound(w, a);
    }
  }

  /** Dedupe over whole runs: with no retry of the key in the gap, at most one
      pending or running job ever carries a given key. */
  lemma {:induction false} KeysStayUnique(w: World, acts: seq<Act>)
    requires Sound(w) && UniqueKeys(w.files)
    requires IsRace(w, acts) && NoRetryInTheGap(w, acts)
    ensures UniqueKeys(After(w, acts).files)
    decreases |acts|
  {
    if acts != [] {
      ActKeepsSound(w, acts[0]);
      KeysStayUnique(Next(w, acts[0]), acts[1..]);
    }
  }

  // ---------------------------------------------------------------------
  // When one submission is safe whatever happens beside it
  // ---------------------------------------------------------------------

  /** No active job with this key has an attempt left. */
  ghost predicate Spent(files: Files, key: string) {
    forall p :: p in files && Active(p) && files[p].dedupeKey == key ==> files[p].attempts >= MAX_ATTEMPTS
  }

  /** Nobody else takes the lock: the acts of one submission and of everybody else. */
  ghost predicate OneSubmission(acts: seq<Act>) {
    forall a :: a in acts ==> !a.TakeLock?
  }

  /** However the steps of others fall, this submission duplicates no key. */
  ghost predicate NeverDuplicates(w: World, spec: Spec)
    requires CanAct(w, TakeLock(spec))
  {
    forall acts ::
      IsRace(Next(w, TakeLock(spec)), acts) && OneSubmission(acts) ==>
        UniqueKeys(After(Next(w, TakeLock(spec)), acts).files)
  }

  lemma OtherKeepsSpent(files: Files, s: Step, key: string)
    requires Good(files) && Enabled(files, s) && (s.Submit? ==> s.spec.dedupeKey == "") && key != ""
    requires Spent(files, key)
    ensures Spent(Apply(files, s), key)
    ensures s.Requeue? ==> s.spec.dedupeKey != key
  {
    var after := Apply(files, s);
    if s.Requeue? {
      assert Active(Path(Running, s.spec.id));
    }
    forall p | p in after && Active(p) && after[p].dedupeKey == key
      ensures after[p].attempts >= MAX_ATTEMPTS
    {
      var q := Before(files, s, p);
    }
  }

  lemma OtherKeepsIds(files: Files, s: Step, id: string)
    requires Good(files) && Enabled(files, s) && IdExists(files, id)
    ensures IdExists(Apply(files, s), id)
  {
    StepMovesOneJob(files, s, id);
    PlaceIsAPath(files, id);
    PlaceIsAPath(Apply(files, s), id);
  }

  /** What makes the submission under way harmless: no retry of its key can come any more. */
  ghost predicate SpentIfSubmitting(w: World) {
    w.submitter.Some? ==> Spent(w.files, w.submitter.value.dedupeKey)
  }

  lemma {:induction false} SpentIsSafe(w: World, acts: seq<Act>)
    requires Sound(w) && UniqueKeys(w.files) && SpentIfSubmitting(w)
    requires IsRace(w, acts) && OneSubmission(acts)
    ensures UniqueKeys(After(w, acts).files)
    decreases |acts|
  {
    if acts != [] {
      var a := acts[0];
      assert a in acts;
      if a.Other? && w.submitter.Some? {
        OtherKeepsSpent(w.files, a.step, w.submitter.value.dedupeKey);
      }
      ActKeepsSound(w, a);
      SpentIsSafe(Next(w, a), acts[1..]);
    }
  }

  /** An id that is taken stays taken, and nothing is published. */
  lemma {:induction false} TakenIsSafe(w: World, acts: seq<Act>)
    requires Good(w.files) && UniqueKeys(w.files)
    requires w.submitter.Some? ==> IdExists(w.files, w.submitter.value.id)
    requires IsRace(w, acts) && OneSubmission(acts)
    ensures UniqueKeys(After(w, acts).files)
    decreases |acts|
  {
    if acts != [] {
      var a := acts[0];
      assert a in acts;
      if a.Other? {
        StepMovesOneJob(w.files, a.step, "");
        OtherKeepsUnique(w.files, a.step);
        if w.submitter.Some? {
          OtherKeepsIds(w.files, a.step, w.submitter.value.id);
        }
      }
      TakenIsSafe(Next(w, a), acts[1..]);
    }
  }

  // ---------------------------------------------------------------------
  // The run that duplicates
  // ---------------------------------------------------------------------

  /** One submission's acts lead from `w` to a duplicate. */
  ghost predicate Duplicates(w: World, acts: seq<Act>) {
    IsRace(w, acts) && OneSubmission(acts) && !UniqueKeys(After(w, acts).files)
  }

  lemma Prepend(w: World, a: Act, rest: seq<Act>)
    requires CanAct(w, a) && !a.TakeLock? && Duplicates(Next(w, a), rest)
    ensures Duplicates(w, [a] + rest)
  {
    assert ([a] + rest)[1..] == rest;
  }

  lemma {:induction false} ListOf(ids: set<string>) returns (list: seq<string>)
    ensures forall id :: id in list <==> id in ids
    decreases ids
  {
    EmptyOrHas(ids);
    if ids == {} {
      list := [];
    } else {
      var id :| id in ids;
      var rest := ListOf(ids - {id});
      list := [id] + rest;
    }
  }

  /** A scan of files none of which carries the key goes through. */
  lemma {:induction false} PendingScanPasses(w: World, ids: seq<string>, rest: seq<Act>) returns (acts: seq<Act>)
    requires w.submitter.Some? && w.phase == ReadingPending(ids)
    requires forall id :: id in ids ==> !Meets(w, Path(Pending, id))
    requires Duplicates(w.(phase := PendingRead), rest)
    ensures Duplicates(w, acts)
    decreases |ids|
  {
    if ids == [] {
      acts := rest;
    } else {
      acts := PendingScanPasses(w.(phase := ReadingPending(ids[1..])), ids[1..], rest);
    }
    Prepend(w, ReadPending, acts);
    acts := [ReadPending] + acts;
  }

  lemma {:induction false} RunningScanPasses(w: World, ids: seq<string>, rest: seq<Act>) returns (acts: seq<Act>)
    requires w.submitter.Some? && w.phase == ReadingRunning(ids)
    requires forall id :: id in ids ==> !Meets(w, Path(Running, id))
    requires Duplicates(w.(phase := Clear), rest)
    ensures Duplicates(w, acts)
    decreases |ids|
  {
    if ids == [] {
      acts := rest;
    } else {
      acts := RunningScanPasses(w.(phase := ReadingRunning(ids[1..])), ids[1..], rest);
    }
    Prepend(w, ReadRunning, acts);
    acts := [ReadRunning] + acts;
  }

  /** The only active job with the key. */
  ghost predicate OnlyHolder(files: Files, key: string, p: Path) {
    && p in files && Active(p) && files[p].dedupeKey == key
    && forall q :: q in files && Active(q) && files[q].dedupeKey == key ==> q == p
  }

  /** The job is pending again and running/ has been passed: the write duplicates its key. */
  lemma PublishDuplicates(w: World, p: Path)
    requires w.submitter.Some? && w.phase.Clear? && w.submitter.value.dedupeKey != ""
    requires OnlyHolder(w.files, w.submitter.value.dedupeKey, p) && !IdExists(w.files, w.submitter.value.id)
    ensures Duplicates(w, [Publish])
  {
    var spec := w.submitter.value;
    var dest := Path(Pending, spec.id);
    var after := Submitted(w.files, spec);
    assert [Publish][1..] == [];
    assert After(w, [Publish]).files == after;
    assert dest in after && p in after && p != dest && SameKey(after[p], after[dest]);
  }

  lemma RunningPassedDuplicates(w: World, p: Path) returns (acts: seq<Act>)
    requires w.submitter.Some? && w.phase.PendingRead? && w.submitter.value.dedupeKey != ""
    requires OnlyHolder(w.files, w.submitter.value.dedupeKey, p) && p.state.Pending?
    requires !IdExists(w.files, w.submitter.value.id)
    ensures Duplicates(w, acts)
  {
    var ids := ListOf(set q | q in w.files && q.state.Running? :: q.id);
    RunningIds(w.files, ids);
    PublishDuplicates(w.(phase := Clear), p);
    forall id | id in ids
      ensures !Meets(w, Path(Running, id))
    {
      assert Path(Running, id) != p && Active(Path(Running, id));
    }
    acts := RunningScanPasses(w.(phase := ReadingRunning(ids)), ids, [Publish]);
    Prepend(w, ListRunning(ids), acts);
    acts := [ListRunning(ids)] + acts;
  }

  lemma RunningIds(files: Files, ids: seq<string>)
    requires forall id :: id in ids <==> id in set q | q in files && q.state.Running? :: q.id
    ensures Ids(files, Running, ids)
  {
    forall id | Path(Running, id) in files
      ensures id in ids
    {
      assert Path(Running, id).state.Running?;
    }
  }

  lemma PendingIds(files: Files, ids: seq<string>)
    requires forall id :: id in ids <==> id in set q | q in files && q.state.Pending? :: q.id
    ensures Ids(files, Pending, ids)
  {
    forall id | Path(Pending, id) in files
      ensures id in ids
    {
      assert Path(Pending, id).state.Pending?;
    }
  }

  lemma RetryMovesTheHolder(files: Files, key: string, p: Path, id: string)
    requires Good(files) && OnlyHolder(files, key, p) && key != ""
    requires p.state.Running? && files[p].attempts < MAX_ATTEMPTS
    requires !IdExists(files, id)
    ensures Enabled(files, Requeue(files[p]))
    ensures var after := Apply(files, Requeue(files[p]));
            OnlyHolder(after, key, Path(Pending, p.id)) && !IdExists(after, id)
  {
    var s := Requeue(files[p]);
    assert p == Path(Running, p.id);
    var after := Apply(files, s);
    StepMovesOneJob(files, s, id);
    PlaceIsAPath(files, id);
    PlaceIsAPath(after, id);
    forall q | q in after && Active(q) && after[q].dedupeKey == key
      ensures q == Path(Pending, p.id)
    {
      var q0 := Before(files, s, q);
      assert q0 == p;
    }
  }

  /** Pending/ is about to be read and the job is running: it is sent back behind the scan. */
  lemma SentBackDuplicates(w: World, p: Path) returns (acts: seq<Act>)
    requires Good(w.files) && w.submitter.Some? && w.phase.Locked? && w.submitter.value.dedupeKey != ""
    requires OnlyHolder(w.files, w.submitter.value.dedupeKey, p)
    requires p.state.Running? && w.files[p].attempts < MAX_ATTEMPTS
    requires !IdExists(w.files, w.submitter.value.id)
    ensures Duplicates(w, acts)
  {
    var retry := Requeue(w.files[p]);
    RetryMovesTheHolder(w.files, w.submitter.value.dedupeKey, p, w.submitter.value.id);
    var read := w.(phase := PendingRead);
    acts := RunningPassedDuplicates(read.(files := Apply(w.files, retry)), Path(Pending, p.id));
    Prepend(read, Other(retry), acts);
    acts := [Other(retry)] + acts;
    var ids := ListOf(set q | q in w.files && q.state.Pending? :: q.id);
    PendingIds(w.files, ids);
    forall id | id in ids
      ensures !Meets(w, Path(Pending, id))
    {
      assert Path(Pending, id) != p && Active(Path(Pending, id));
    }
    acts := PendingScanPasses(w.(phase := ReadingPending(ids)), ids, acts);
    Prepend(w, ListPending(ids), acts);
    acts := [ListPending(ids)] + acts;
  }

  lemma ClaimMovesTheHolder(files: Files, key: string, p: Path, id: string)
    requires Good(files) && OnlyHolder(files, key, p) && p.state.Pending? && key != "" && !IdExists(files, id)
    ensures var after := Apply(files, Claim(p.id));
            && Good(after) && OnlyHolder(after, key, Path(Running, p.id)) && !IdExists(after, id)
            && after[Path(Running, p.id)] == files[p]
  {
    var s := Claim(p.id);
    assert p == Path(Pending, p.id);
    var after := Apply(files, s);
    StepMovesOneJob(files, s, id);
    PlaceIsAPath(files, id);
    PlaceIsAPath(after, id);
    forall q | q in after && Active(q) && after[q].dedupeKey == key
      ensures q == Path(Running, p.id)
    {
      var q0 := Before(files, s, q);
      assert q0 == p;
    }
  }

  /** With an attempt left the job can always be brought behind the scan. */
  lemma AttemptLeftDuplicates(w: World, p: Path) returns (acts: seq<Act>)
    requires Good(w.files) && w.submitter.Some? && w.phase.Locked? && w.submitter.value.dedupeKey != ""
    requires OnlyHolder(w.files, w.submitter.value.dedupeKey, p) && w.files[p].attempts < MAX_ATTEMPTS
    requires !IdExists(w.files, w.submitter.value.id)
    ensures Duplicates(w, acts)
  {
    if p.state.Running? {
      acts := SentBackDuplicates(w, p);
    } else {
      ClaimMovesTheHolder(w.files, w.submitter.value.dedupeKey, p, w.submitter.value.id);
      acts := SentBackDuplicates(w.(files := Apply(w.files, Claim(p.id))), Path(Running, p.id));
      Prepend(w, Other(Claim(p.id)), acts);
      acts := [Other(Claim(p.id))] + acts;
    }
  }

  /** When the lock is taken it is decided: the submission is safe against
      everything others may do until it is over exactly when its id is taken, so
      that it writes nothing, or no active job with its key has an attempt left. */
  lemma SubmissionIsSafeExactly(w: World, spec: Spec)
    requires Good(w.files) && UniqueKeys(w.files) && CanAct(w, TakeLock(spec))
    ensures NeverDuplicates(w, spec) <==> IdExists(w.files, spec.id) || Spent(w.files, spec.dedupeKey)
  {
    var v := Next(w, TakeLock(spec));
    if IdExists(w.files, spec.id) || Spent(w.files, spec.dedupeKey) {
      forall acts | IsRace(v, acts) && OneSubmission(acts)
        ensures UniqueKeys(After(v, acts).files)
      {
        if IdExists(w.files, spec.id) {
          TakenIsSafe(v, acts);
        } else {
          SpentIsSafe(v, acts);
        }
      }
    } else {
      var p :| p in w.files && Active(p) && w.files[p].dedupeKey == spec.dedupeKey
          && w.files[p].attempts < MAX_ATTEMPTS;
      assert forall q :: q in w.files && Active(q) && w.files[q].dedupeKey == spec.dedupeKey ==> SameKey(w.files[p],
          w.files[q]);
      assert OnlyHolder(w.files, spec.dedupeKey, p);
      var acts := AttemptLeftDuplicates(v, p);
    }
  }

  /** With a retry in the gap the promise fails: a queue with one running job, whose key is submitted again. */
  lemma RetryInTheGapDuplicates(job: Spec, again: Spec)
    requires ValidSpec(again) && job.attempts == 0 && SameKey(job, again) && job.id != again.id
    ensures exists w ::
              && Sound(w) && UniqueKeys(w.files) && w.submitter.None?
              && !NeverDuplicates(w, again)
  {
    var w := World(map[Path(Running, job.id) := job], None, Locked);
    assert !Spent(w.files, again.dedupeKey) by {
      assert Active(Path(Running, job.id));
    }
    SubmissionIsSafeExactly(w, again);
  }
}
