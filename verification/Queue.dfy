/**
 The queue (src/gpuqueue/queue.py, src/gpuqueue/spec.py): a directory tree
 whose states are directories and whose transitions are renames.
 */
module Queue {
  import opened Base
  import opened Ledger
  import opened Sorting
  import opened Text

  datatype State = Pending | Running | Done | Failed

  datatype Lane = Cpu | Gpu

  /** Why a job stands in `failed/`. */
  datatype Reason =
    | Cancelled | Abandoned
    | UnknownProject | NeverFits | BadVram | NoUsableGpu
    | CheckoutFailed | StartFailed | ArtifactsFailed
    | Convicted | TimedOut | OutOfMemory | ExitCode

  /** What the submitter asks to be run; nothing here but its validation looks inside. */
  datatype Request = Request(commit: string, cmd: seq<string>, timeoutS: int, artifacts: seq<string>)

  datatype Spec = Spec(
    id: string, lane: Lane, project: string, request: Request, vram: Declared, attempts: int,
    dedupeKey: string,            // "" for none
    submittedAt: string,
    pid: Option<int>, runnerPid: Option<int>, exitCode: Option<int>, error: Option<Reason>)

  /** `<root>/<state>/<id>.json` */
  datatype Path = Path(state: State, id: string)

  type Files = map<Path, Spec>

  datatype Submission = Rejected | Duplicate(id: string) | IdTaken | Accepted

  predicate IsAlnum(c: char) {
    'A' <= c <= 'Z' || 'a' <= c <= 'z' || '0' <= c <= '9'
  }

  /** `^[A-Za-z0-9][A-Za-z0-9...]*$`, with the further characters given; `$`
      also matches before a final newline. */
  predicate Matches(s: string, further: string) {
    MatchesWhole(if s != "" && s[|s| - 1] == '\n' then s[..|s| - 1] else s, further)
  }

  predicate MatchesWhole(t: string, further: string) {
    t != "" && IsAlnum(t[0]) && forall i :: 0 < i < |t| ==> IsAlnum(t[i]) || t[i] in further
  }

  /** Relative, and without a step up. */
  predicate Contained(artifact: string) {
    !StartsWith(artifact, "/") && ".." !in Split(artifact, '/')
  }

  predicate ValidRequest(r: Request) {
    && Matches(r.commit, "._/~^{}-")
    && r.cmd != [] && r.timeoutS > 0
    && forall i :: 0 <= i < |r.artifacts| ==> Contained(r.artifacts[i])
  }

  /** `JobSpec.validate` */
  predicate ValidSpec(spec: Spec) {
    && Matches(spec.id, "._-") && spec.project != "" && ValidRequest(spec.request)
    && ValidDeclaration(spec.vram)
    && (spec.lane.Cpu? ==> spec.vram.Whole?)
    && spec.attempts >= 0
  }

  /** What may stand in an id or a commit: letters and digits, and after the
      first place also the further characters; a final newline is let through. */
  lemma MatchesExactly(s: string, further: string)
    ensures Matches(s, further) <==> exists t: string :: (s == t || s == t + "\n") && IsPlain(t, further)
  {
    forall t: string
      ensures IsPlain(t, further) <==> MatchesWhole(t, further)
    {
    }
    if s != "" && s[|s| - 1] == '\n' {
      var t := s[..|s| - 1];
      assert s == t + "\n";
      forall u: string
        ensures s == u + "\n" ==> u == t
      {
        assert (u + "\n")[..|u|] == u;
      }
      if IsPlain(s, further) {
        assert |s| > 1;
        assert forall i :: 0 <= i < |t| ==> t[i] == s[i];
      }
    }
  }

  ghost predicate IsPlain(t: string, further: string) {
    t != ""
    && forall i :: 0 <= i < |t| ==>
         || 'A' <= t[i] <= 'Z' || 'a' <= t[i] <= 'z' || '0' <= t[i] <= '9'
         || (i > 0 && t[i] in further)
  }

  /** A spec is refused exactly for one of these causes. */
  lemma RefusedForCause(spec: Spec)
    ensures !ValidSpec(spec) <==>
              || (forall t: string :: IsPlain(t, "-._") ==> spec.id != t && spec.id != t + "\n")
              || spec.project == ""
              || (forall t: string :: IsPlain(t, "-./^_{}~") ==>
                    spec.request.commit != t && spec.request.commit != t + "\n")
              || spec.request.cmd == [] || spec.request.timeoutS <= 0
              || spec.vram.Malformed? || (spec.vram.Mb? && (spec.vram.n <= 0 || spec.lane.Cpu?))
              || spec.attempts < 0
              || (exists i :: 0 <= i < |spec.request.artifacts| && !Contained(spec.request.artifacts[i]))
  {
    SameFurther(spec.id, "._-", "-._");
    SameFurther(spec.request.commit, "._/~^{}-", "-./^_{}~");
    MatchesExactly(spec.id, "-._");
    MatchesExactly(spec.request.commit, "-./^_{}~");
    hide Matches, IsPlain, Contained;
  }

  lemma SameFurther(s: string, a: string, b: string)
    requires forall c :: c in a <==> c in b
    ensures Matches(s, a) == Matches(s, b)
  {
  }

  /** An artifact path is let through exactly if it is not absolute and none of
      its components steps up. */
  lemma ContainedExactly(parts: seq<string>)
    requires |parts| >= 1 && forall i :: 0 <= i < |parts| ==> '/' !in parts[i]
    ensures Contained(Join(parts, '/')) <==> ".." !in parts && (|parts| == 1 || parts[0] != "")
  {
    SplitOfJoin(parts, '/');
    SplitEachOfOnes(parts, '/');
    var path := Join(parts, '/');
    if |parts| == 1 {
      assert path == parts[0];
    } else if parts[0] == "" {
      assert path[0] == '/';
    } else {
      assert path[0] == parts[0][0] && parts[0][0] in parts[0];
    }
  }

  // ---------------------------------------------------------------------
  // Order
  // ---------------------------------------------------------------------

  const SUFFIX := ".json"

  /** The order of a directory listing, by file name. */
  predicate ByName(a: Spec, b: Spec) {
    Less(a.id + SUFFIX, b.id + SUFFIX)
  }

  /** The order in which pending jobs are considered. */
  predicate ByTime(a: Spec, b: Spec) {
    Less(a.submittedAt, b.submittedAt) || (a.submittedAt == b.submittedAt && Less(a.id, b.id))
  }

  ghost predicate IdsTell(specs: set<Spec>) {
    forall a, b :: a in specs && b in specs && a.id == b.id ==> a == b
  }

  lemma SuffixTells(a: string, b: string)
    requires a + SUFFIX == b + SUFFIX
    ensures a == b
  {
    assert (a + SUFFIX)[..|a|] == a && (b + SUFFIX)[..|b|] == b;
  }

  lemma NamesAreLinear(specs: set<Spec>)
    requires IdsTell(specs)
    ensures Linear(ByName, specs)
  {
    forall a, b | a in specs && b in specs
      ensures if a == b then !ByName(a, b) else ByName(a, b) != ByName(b, a)
    {
      LessIsTotal(a.id + SUFFIX, b.id + SUFFIX);
      if a.id + SUFFIX == b.id + SUFFIX {
        SuffixTells(a.id, b.id);
      }
    }
    forall a, b, c | a in specs && b in specs && c in specs && ByName(a, b) && ByName(b, c)
      ensures ByName(a, c)
    {
      LessIsTransitive(a.id + SUFFIX, b.id + SUFFIX, c.id + SUFFIX);
    }
  }

  lemma TimesAreLinear(specs: set<Spec>)
    requires IdsTell(specs)
    ensures Linear(ByTime, specs)
  {
    forall a, b | a in specs && b in specs
      ensures if a == b then !ByTime(a, b) else ByTime(a, b) != ByTime(b, a)
    {
      LessIsTotal(a.submittedAt, b.submittedAt);
      LessIsTotal(a.id, b.id);
    }
    forall a, b, c | a in specs && b in specs && c in specs && ByTime(a, b) && ByTime(b, c)
      ensures ByTime(a, c)
    {
      if Less(a.submittedAt, b.submittedAt) && Less(b.submittedAt, c.submittedAt) {
        LessIsTransitive(a.submittedAt, b.submittedAt, c.submittedAt);
      } else if a.submittedAt == b.submittedAt && b.submittedAt == c.submittedAt {
        LessIsTransitive(a.id, b.id, c.id);
      }
    }
  }

  /** The specs of one state, each once. */
  ghost predicate IsListing(files: Files, state: State, specs: seq<Spec>) {
    && (forall spec :: spec in specs <==> Path(state, spec.id) in files && files[Path(state, spec.id)] == spec)
    && forall i, j :: 0 <= i < j < |specs| ==> specs[i].id != specs[j].id
  }

  lemma ListingTells(files: Files, state: State, specs: seq<Spec>)
    requires IsListing(files, state, specs)
    ensures IdsTell(set spec | spec in specs)
    ensures forall i, j :: 0 <= i < j < |specs| ==> specs[i] != specs[j]
  {
  }

  /** Sorting a listing one way or the other keeps it a listing. */
  lemma SortedListing(files: Files, state: State, specs: seq<Spec>, before: (Spec, Spec) -> bool)
    requires IsListing(files, state, specs) && Linear(before, set spec | spec in specs)
    ensures IsListing(files, state, Sort(before, specs)) && Ordered(before, Sort(before, specs))
  {
    var all := set spec | spec in specs;
    var sorted := Sort(before, specs);
    ListingTells(files, state, specs);
    SortOrders(before, specs, all);
    forall i, j | 0 <= i < j < |sorted|
      ensures sorted[i].id != sorted[j].id
    {
      assert sorted[i] in sorted && sorted[j] in sorted && before(sorted[i], sorted[j]);
    }
  }

  ghost predicate NoneWith(files: Files, state: State, key: string) {
    forall id :: Path(state, id) in files ==> files[Path(state, id)].dedupeKey != key
  }

  /** The job with this key that comes first in a listing of one state. */
  ghost predicate FirstWith(files: Files, state: State, key: string, id: string) {
    && Path(state, id) in files && files[Path(state, id)].dedupeKey == key
    && forall other :: Path(state, other) in files && files[Path(state, other)].dedupeKey == key && other != id ==>
         Less(id + ".json", other + ".json")
  }

  predicate Active(p: Path) {
    p.state.Pending? || p.state.Running?
  }

  /** rename(2): the target is replaced. */
  function Rename(files: Files, a: Path, b: Path): Files
    requires a in files
  {
    (files - {a})[b := files[a]]
  }

  predicate KeyActive(files: Files, key: string) {
    exists p :: p in files && Active(p) && files[p].dedupeKey == key
  }

  predicate IdExists(files: Files, id: string) {
    exists p :: p in files && p.id == id
  }

  function Submitted(files: Files, spec: Spec): Files {
    files[Path(Pending, spec.id) := spec]
  }

  function Claimed(files: Files, id: string): Files {
    if Path(Pending, id) in files then Rename(files, Path(Pending, id), Path(Running, id)) else files
  }

  function Finished(files: Files, spec: Spec, ok: bool): Files {
    var running := Path(Running, spec.id);
    Rename(files[running := spec], running, Path(if ok then Done else Failed, spec.id))
  }

  function Retried(spec: Spec): Spec {
    spec.(attempts := spec.attempts + 1, pid := None)
  }

  function Requeued(files: Files, spec: Spec): Files {
    var running := Path(Running, spec.id);
    Rename(files[running := Retried(spec)], running, Path(Pending, spec.id))
  }

  function Cancelling(files: Files, id: string): Files {
    var src := Path(Pending, id);
    if src in files then Rename(files[src := files[src].(error := Some(Cancelled))], src, Path(Failed, id)) else files
  }

  // ---------------------------------------------------------------------

  class QueueRoot {
    var files: Files

    constructor ()
      ensures files == map[]
    {
      files := map[];
    }

    /** Every spec of one state, by file name. */
    method ListState(state: State) returns (specs: seq<Spec>)
      requires WellNamed(files)
      ensures IsListing(files, state, specs) && Ordered(ByName, specs)
    {
      var todo := set p | p in files && p.state == state;
      specs := [];
      while todo != {}
        invariant forall p :: p in todo ==> p in files && p.state == state
        invariant forall spec :: spec in specs ==> Path(state, spec.id) in files && files[Path(state, spec.id)] == spec
        invariant forall spec :: spec in specs ==> Path(state, spec.id) !in todo
        invariant forall p :: p in files && p.state == state && p !in todo ==> files[p] in specs
        invariant forall i, j :: 0 <= i < j < |specs| ==> specs[i].id != specs[j].id
        decreases todo
      {
        EmptyOrHas(todo);
        var p :| p in todo;
        assert files[p].id == p.id;
        ghost var before := specs;
        specs := specs + [files[p]];
        forall i | 0 <= i < |before|
          ensures before[i].id != files[p].id
        {
          assert before[i] in before;
        }
        todo := todo - {p};
      }
      ListingTells(files, state, specs);
      NamesAreLinear(set spec | spec in specs);
      SortedListing(files, state, specs, ByName);
      specs := Sort(ByName, specs);
    }

    /** The first job of one state with this key. */
    method Scan(state: State, key: string) returns (id: Option<string>)
      requires WellNamed(files)
      ensures id.Some? ==> FirstWith(files, state, key, id.value)
      ensures id.None? ==> NoneWith(files, state, key)
    {
      var specs := ListState(state);
      for i := 0 to |specs|
        invariant forall k :: 0 <= k < i ==> specs[k].dedupeKey != key
      {
        assert specs[i] in specs;
        if specs[i].dedupeKey == key {
          forall other | Path(state, other) in files && files[Path(state,
              other)].dedupeKey == key && other != specs[i].id
            ensures Less(specs[i].id + SUFFIX, other + SUFFIX)
          {
            assert files[Path(state, other)] in specs;
            var k :| 0 <= k < |specs| && specs[k] == files[Path(state, other)];
            assert ByName(specs[i], specs[k]);
          }
          return Some(specs[i].id);
        }
      }
      forall other | Path(state, other) in files
        ensures files[Path(state, other)].dedupeKey != key
      {
        assert files[Path(state, other)] in specs;
      }
      return None;
    }

    method Submit(spec: Spec) returns (r: Submission)
      requires WellNamed(files)
      modifies this
      ensures r.Rejected? <==> !ValidSpec(spec)
      ensures r.Duplicate? ==>
                && spec.dedupeKey != ""
                && (FirstWith(files, Pending, spec.dedupeKey, r.id)
                    || (FirstWith(files, Running, spec.dedupeKey, r.id) && NoneWith(files, Pending, spec.dedupeKey)))
      ensures ValidSpec(spec) ==> (r.Duplicate? <==> spec.dedupeKey != "" && KeyActive(old(files), spec.dedupeKey))
      ensures r.IdTaken? <==> ValidSpec(spec) && !r.Duplicate? && IdExists(old(files), spec.id)
      ensures files == if r.Accepted? then Submitted(old(files), spec) else old(files)
    {
      if !ValidSpec(spec) {
        return Rejected;
      }
      if spec.dedupeKey != "" {
        var found := Scan(Pending, spec.dedupeKey);
        if found.Some? {
          assert Active(Path(Pending, found.value));
          return Duplicate(found.value);
        }
        found := Scan(Running, spec.dedupeKey);
        if found.Some? {
          assert Active(Path(Running, found.value));
          return Duplicate(found.value);
        }
        forall p | p in files && Active(p)
          ensures files[p].dedupeKey != spec.dedupeKey
        {
          assert p == Path(p.state, p.id);
        }
      }
      if Path(Pending, spec.id) in files || Path(Running, spec.id) in files
         || Path(Done, spec.id) in files || Path(Failed, spec.id) in files {
        return IdTaken;
      }
      forall p | p in files
        ensures p.id != spec.id
      {
        assert p == Path(p.state, p.id);
        assert p.state == Pending || p.state == Running || p.state == Done || p.state == Failed;
      }
      files := files[Path(Pending, spec.id) := spec];
      return Accepted;
    }

    /** pending -> running; None if the file is no longer there. */
    method Claim(id: string) returns (spec: Option<Spec>)
      modifies this
      ensures files == Claimed(old(files), id)
      ensures spec == if Path(Pending, id) in old(files) then Some(old(files)[Path(Pending, id)]) else None
    {
      if Path(Pending, id) !in files {
        return None;
      }
      spec := Some(files[Path(Pending, id)]);
      files := Rename(files, Path(Pending, id), Path(Running, id));
    }

    method Update(spec: Spec, state: State)
      modifies this
      ensures files == old(files)[Path(state, spec.id) := spec]
    {
      files := files[Path(state, spec.id) := spec];
    }

    method Finish(spec: Spec, ok: bool)
      modifies this
      ensures files == Finished(old(files), spec, ok)
    {
      var state := if ok then Done else Failed;
      files := files[Path(Running, spec.id) := spec];
      files := Rename(files, Path(Running, spec.id), Path(state, spec.id));
    }

    method Requeue(spec: Spec)
      modifies this
      ensures files == Requeued(old(files), spec)
    {
      var retry := spec.(attempts := spec.attempts + 1, pid := None);
      files := files[Path(Running, spec.id) := retry];
      files := Rename(files, Path(Running, spec.id), Path(Pending, spec.id));
    }

    method Cancel(id: string) returns (cancelled: bool)
      modifies this
      ensures files == Cancelling(old(files), id)
      ensures cancelled <==> Path(Pending, id) in old(files)
    {
      var src := Path(Pending, id);
      if src !in files {
        return false;
      }
      files := files[src := files[src].(error := Some(Cancelled))];
      files := Rename(files, src, Path(Failed, id));
      return true;
    }
  }

  /** A file is named after the id of the spec in it. */
  ghost predicate WellNamed(files: Files) {
    forall p :: p in files ==> files[p].id == p.id
  }

  /** No job is in two directories. */
  ghost predicate OneState(files: Files) {
    forall p, q :: p in files && q in files && p.id == q.id ==> p == q
  }
}
