/**
 A record removed by hand and written again (src/gpuqueue/ledger.py,
 `set_usage_pid` through `write_record`): what it costs, exactly when it is
 harmless, and that a writer without the mutex cannot tell.
 */
module LedgerRevives {
  import opened Base
  import opened Ledger
  import opened LedgerProtocol

  /** No continuation, its own revives guarded, ever oversteps the card. */
  ghost predicate NeverOversteps(policy: Policy, c: Card) {
    forall steps ::
      IsRun(policy, c, steps) && GuardsRevives(policy, c, steps) ==> Safe(policy, RunFrom(policy, c, steps))
  }

  lemma {:induction false} LongerThanAll(names: set<string>) returns (n: nat)
    ensures forall name :: name in names ==> |name| < n
    decreases names
  {
    EmptyOrHas(names);
    if names == {} {
      n := 0;
    } else {
      var name :| name in names;
      var m := LongerThanAll(names - {name});
      n := if m > |name| then m else |name| + 1;
    }
  }

  /** There is always a file name nobody uses. */
  lemma FreshName(names: set<string>) returns (name: string)
    ensures name !in names
  {
    var n := LongerThanAll(names);
    name := seq(n, _ => 'x');
  }

  lemma PrependStep(policy: Policy, c: Card, s: Step, rest: seq<Step>)
    requires Enabled(policy, c, s) && IsRun(policy, Apply(policy, c, s), rest)
    ensures IsRun(policy, c, [s] + rest)
    ensures RunFrom(policy, c, [s] + rest) == RunFrom(policy, Apply(policy, c, s), rest)
  {
    assert ([s] + rest)[1..] == rest;
  }

  lemma OverstepsNow(policy: Policy, c: Card)
    requires !Safe(policy, c)
    ensures !NeverOversteps(policy, c)
  {
    var none: seq<Step> := [];
    assert IsRun(policy, c, none) && GuardsRevives(policy, c, none) && RunFrom(policy, c, none) == c;
  }

  lemma OverstepsNext(policy: Policy, c: Card, s: Step)
    requires Enabled(policy, c, s) && !Revives(c, s) && !Safe(policy, Apply(policy, c, s))
    ensures !NeverOversteps(policy, c)
  {
    PrependStep(policy, c, s, []);
    var steps := [s] + [];
    assert steps[1..] == [];
    assert GuardsRevives(policy, Apply(policy, c, s), []);
    assert GuardsRevives(policy, c, steps);
  }

  /** An admitted claim that is not borne oversteps when it is written. */
  lemma AdmittedUnborneOversteps(policy: Policy, c: Card, live: seq<Record>)
    requires DirectoryOk(c) && c.mutex.Some? && c.mutex.value.phase.Admitted?
    requires c.mutex.value.pid in c.alive && ValidWant(c.mutex.value.want)
    requires AllLive(c, live) && PositiveDeclarations(live) && !Bears(policy, live, c.mutex.value.want)
    ensures !NeverOversteps(policy, c)
  {
    var a := c.mutex.value;
    var name := FreshName(c.dir.Keys + c.held.Keys);
    var w := Record(name, a.pid, None, a.want, "", None, None);
    var d := Apply(policy, c, Write(w));
    BearsExactly(policy, live, w);
    assert LiveList(d, live + [w]);
    assert !Safe(policy, d);
    OverstepsNext(policy, c, Write(w));
  }

  /** A revive is harmless for ever exactly when the card bears it and, if an
      acquire has decided but not yet written, bears both. This decides every
      moment at which no acquire is between its listing and its decision; a
      writer that holds the mutex itself needs only the first test. */
  lemma ReviveIsHarmlessExactly(policy: Policy, c: Card, path: string, usagePid: Option<int>, live: seq<Record>)
    requires Inv(policy, c) && Enabled(policy, c, SetUsagePid(path, usagePid))
    requires path !in c.dir && AllLive(c, live)
    requires c.mutex.Some? ==> !c.mutex.value.phase.Reading? && !c.mutex.value.phase.Filtering?
    ensures NeverOversteps(policy, Apply(policy, c, SetUsagePid(path, usagePid)))
            <==> && Bears(policy, live, c.held[path].vramMb)
                 && (c.mutex.Some? && c.mutex.value.phase.Admitted? ==>
                       Bears(policy, live + [Revived(c, path, usagePid)], c.mutex.value.want))
  {
    hide Bears, ViewOk, NeverOversteps;
    var r := Revived(c, path, usagePid);
    var d := Apply(policy, c, SetUsagePid(path, usagePid));
    ReviveKeepsInvExactly(policy, c, path, usagePid, live);
    ReviveAddsOne(policy, c, path, usagePid, live);
    StepKeepsDirectory(policy, c, SetUsagePid(path, usagePid));
    SafeByAllLive(policy, d, live + [r]);
    BearsExactly(policy, live, r);
    if Inv(policy, d) {
      InvNeverOversteps(policy, d);
    } else if !Bears(policy, live, r.vramMb) {
      OverstepsNow(policy, d);
    } else {
      ClaimantIsAlive(policy, c);
      AdmittedUnborneOversteps(policy, d, live + [r]);
    }
  }

  lemma ClaimantIsAlive(policy: Policy, c: Card)
    requires Inv(policy, c) && c.mutex.Some?
    ensures c.mutex.value.pid in c.alive && ValidWant(c.mutex.value.want)
  {
  }

  lemma InvNeverOversteps(policy: Policy, c: Card)
    requires Inv(policy, c)
    ensures NeverOversteps(policy, c)
  {
    forall steps | IsRun(policy, c, steps) && GuardsRevives(policy, c, steps)
      ensures Safe(policy, RunFrom(policy, c, steps))
    {
      RunKeepsInv(policy, c, steps);
    }
  }

  /** A step that an `acquire` makes by itself. */
  predicate OfAcquire(s: Step) {
    s.Lock? || s.List? || s.Read? || s.TestOwner? || s.Decide? || s.Write? || s.Unlock?
  }

  ghost predicate AcquireOnly(steps: seq<Step>) {
    forall s :: s in steps ==> OfAcquire(s)
  }

  /** `steps` lead from `c` to `d`. */
  ghost predicate Leads(policy: Policy, c: Card, steps: seq<Step>, d: Card) {
    IsRun(policy, c, steps) && RunFrom(policy, c, steps) == d
  }

  lemma LeadsFirst(policy: Policy, c: Card, s: Step, rest: seq<Step>, d: Card)
    requires Enabled(policy, c, s) && OfAcquire(s)
    requires Leads(policy, Apply(policy, c, s), rest, d) && AcquireOnly(rest)
    ensures Leads(policy, c, [s] + rest, d) && AcquireOnly([s] + rest)
  {
    PrependStep(policy, c, s, rest);
  }

  function Recorded(dir: map<string, Record>, names: seq<string>): seq<Record>
    requires forall i :: 0 <= i < |names| ==> names[i] in dir
  {
    seq(|names|, i requires 0 <= i < |names| => dir[names[i]])
  }

  function Owned(alive: set<int>, records: seq<Record>): seq<Record> {
    if records == [] then []
    else (if records[0].pid in alive then [records[0]] else []) + Owned(alive, records[1..])
  }

  lemma {:induction false} OwnedAreThose(alive: set<int>, records: seq<Record>)
    requires DistinctPaths(records)
    ensures DistinctPaths(Owned(alive, records))
    ensures forall r :: r in Owned(alive, records) <==> r in records && r.pid in alive
  {
    if records != [] {
      OwnedAreThose(alive, records[1..]);
      assert records == [records[0]] + records[1..];
      var rest := Owned(alive, records[1..]);
      forall i | 0 <= i < |rest|
        ensures rest[i].path != records[0].path
      {
        assert rest[i] in records[1..];
        var j :| 0 <= j < |records[1..]| && records[1..][j] == rest[i];
        assert records[j + 1] == rest[i];
      }
    }
  }

  /** Undisturbed, the reads collect every file named. */
  lemma {:induction false} ReadsLead(policy: Policy, c: Card, names: seq<string>, got: seq<Record>, rest: seq<Step>,
      d: Card)
    returns (steps: seq<Step>)
    requires names != [] && forall i :: 0 <= i < |names| ==> names[i] in c.dir
    requires c.mutex.Some? && c.mutex.value.phase == Reading(names, got)
    requires Leads(policy, WithPhase(c, Filtering(got + Recorded(c.dir, names), [])), rest, d) && AcquireOnly(rest)
    ensures Leads(policy, c, steps, d) && AcquireOnly(steps)
    decreases |names|
  {
    var more := got + [c.dir[names[0]]];
    if |names| == 1 {
      assert got + Recorded(c.dir, names) == more;
      steps := rest;
    } else {
      assert more + Recorded(c.dir, names[1..]) == got + Recorded(c.dir, names);
      steps := ReadsLead(policy, WithPhase(c, Reading(names[1..], more)), names[1..], more, rest, d);
    }
    LeadsFirst(policy, c, Read, steps, d);
    steps := [Read] + steps;
  }

  /** Undisturbed, the tests keep every record whose owner is alive. */
  lemma {:induction false} TestsLead(policy: Policy, c: Card, todo: seq<Record>, live: seq<Record>, rest: seq<Step>,
      d: Card)
    returns (steps: seq<Step>)
    requires c.mutex.Some? && c.mutex.value.phase == Filtering(todo, live)
    requires Leads(policy, WithPhase(c, Filtering([], live + Owned(c.alive, todo))), rest, d) && AcquireOnly(rest)
    ensures Leads(policy, c, steps, d) && AcquireOnly(steps)
    decreases |todo|
  {
    if todo == [] {
      assert live + [] == live;
      steps := rest;
    } else {
      var more := if todo[0].pid in c.alive then live + [todo[0]] else live;
      assert more + Owned(c.alive, todo[1..]) == live + Owned(c.alive, todo);
      steps := TestsLead(policy, WithPhase(c, Filtering(todo[1..], more)), todo[1..], more, rest, d);
      LeadsFirst(policy, c, TestOwner, steps, d);
      steps := [TestOwner] + steps;
    }
  }

  lemma {:induction false} NamesOf(names: set<string>) returns (list: seq<string>)
    ensures forall name :: name in list <==> name in names
    ensures forall i, j :: 0 <= i < j < |list| ==> list[i] != list[j]
    decreases names
  {
    EmptyOrHas(names);
    if names == {} {
      list := [];
    } else {
      var name :| name in names;
      var rest := NamesOf(names - {name});
      list := [name] + rest;
    }
  }

  ghost function Admitting(c: Card, pid: int, want: Option<int>, usable: Option<int>, live: seq<Record>): Card {
    c.(mutex := Some(Acquirer(pid, want, usable, Admitted(live))))
  }

  /** The live records of a directory, listed. */
  lemma ListLive(c: Card) returns (names: seq<string>, live: seq<Record>)
    requires DirectoryOk(c)
    ensures forall name :: name in names <==> name in c.dir
    ensures live == Owned(c.alive, Recorded(c.dir, names))
    ensures AllLive(c, live) && PositiveDeclarations(live)
  {
    names := NamesOf(c.dir.Keys);
    var records := Recorded(c.dir, names);
    live := Owned(c.alive, records);
    OwnedAreThose(c.alive, records);
    forall i | 0 <= i < |live|
      ensures live[i].path in c.dir && c.dir[live[i].path] == live[i] && live[i].pid in c.alive
    {
      assert live[i] in records;
      var k :| 0 <= k < |records| && records[k] == live[i];
      assert records[k] == c.dir[names[k]];
    }
    forall path | Live(c, path)
      ensures c.dir[path] in live
    {
      var k :| 0 <= k < |names| && names[k] == path;
      assert records[k] == c.dir[path];
    }
  }

  /** An undisturbed `acquire` of what fits gets as far as being admitted, and one
      of what does not leaves the card as it was. */
  lemma AcquireIsAdmitted(policy: Policy, c: Card, pid: int, want: Option<int>, names: seq<string>, live: seq<Record>)
    returns (steps: seq<Step>)
    requires c.mutex.None? && pid in c.alive && ValidWant(want)
    requires forall name :: name in names <==> name in c.dir
    requires live == Owned(c.alive, Recorded(c.dir, names))
    ensures AcquireOnly(steps)
    ensures Leads(policy, c, steps, if Fits(live, want, policy.capacity, policy.maxHolders) then
                                      Admitting(c, pid, want, policy.capacity, live)
                                    else c)
  {
    var d := if Fits(live, want, policy.capacity, policy.maxHolders) then
      Admitting(c, pid, want, policy.capacity, live) else c;
    var locked := Apply(policy, c, Lock(pid, want, policy.capacity));
    var tested := WithPhase(locked, Filtering([], live));
    var read := WithPhase(locked, Filtering(Recorded(c.dir, names), []));
    assert Apply(policy, tested, Decide) == d;
    LeadsFirst(policy, tested, Decide, [], d);
    assert [] + live == live;
    steps := TestsLead(policy, read, Recorded(c.dir, names), [], [Decide] + [], d);
    if names != [] {
      assert [] + Recorded(c.dir, names) == Recorded(c.dir, names);
      steps := ReadsLead(policy, WithPhase(locked, Reading(names, [])), names, [], steps, d);
    }
    LeadsFirst(policy, locked, List(names), steps, d);
    LeadsFirst(policy, c, Lock(pid, want, policy.capacity), [List(names)] + steps, d);
    steps := [Lock(pid, want, policy.capacity)] + ([List(names)] + steps);
  }

  /** Undisturbed, a claim is taken exactly if the card's live records leave room
      for it; then it stands on disk and in memory beside what was there, with the
      mutex free, and releasing it leads back to the very card there was before. */
  lemma ClaimAndReleaseCancelOut(policy: Policy, c: Card, r: Record)
    returns (live: seq<Record>, steps: seq<Step>)
    requires DirectoryOk(c) && c.mutex.None? && r.pid in c.alive && ValidWant(r.vramMb)
    requires r.path !in c.dir && r.path !in c.held
    ensures AllLive(c, live) && AcquireOnly(steps)
    ensures Fits(live, r.vramMb, policy.capacity, policy.maxHolders) ==>
              var taken := Card(c.dir[r.path := r], c.alive, c.held[r.path := r], None);
              Leads(policy, c, steps, taken) && Leads(policy, taken, [Release(r.path)], c)
    ensures !Fits(live, r.vramMb, policy.capacity, policy.maxHolders) ==> Leads(policy, c, steps, c)
  {
    var names, seen := ListLive(c);
    live := seen;
    steps := AcquireIsAdmitted(policy, c, r.pid, r.vramMb, names, live);
    if Fits(live, r.vramMb, policy.capacity, policy.maxHolders) {
      var admitted := Admitting(c, r.pid, r.vramMb, policy.capacity, live);
      var taken := Card(c.dir[r.path := r], c.alive, c.held[r.path := r], None);
      WriteAndUnlock(policy, admitted, r);
      RunsJoin(policy, c, steps, [Write(r), Unlock]);
      steps := steps + [Write(r), Unlock];
      ReleaseUndoesWrite(policy, c, r);
    }
  }

  lemma WriteAndUnlock(policy: Policy, c: Card, r: Record)
    requires Enabled(policy, c, Write(r))
    ensures Leads(policy, c, [Write(r), Unlock], Card(c.dir[r.path := r], c.alive, c.held[r.path := r], None))
  {
    var written := Apply(policy, c, Write(r));
    assert [Write(r), Unlock][1..] == [Unlock] && [Unlock][1..] == [];
    assert IsRun(policy, Apply(policy, written, Unlock), []);
    assert IsRun(policy, written, [Unlock]);
  }

  lemma ReleaseUndoesWrite(policy: Policy, c: Card, r: Record)
    requires c.mutex.None? && r.pid in c.alive && r.path !in c.dir && r.path !in c.held
    ensures Leads(policy, Card(c.dir[r.path := r], c.alive, c.held[r.path := r], None), [Release(r.path)], c)
  {
    var taken := Card(c.dir[r.path := r], c.alive, c.held[r.path := r], None);
    assert taken.dir - {r.path} == c.dir && taken.held - {r.path} == c.held;
    assert [Release(r.path)][1..] == [];
    assert IsRun(policy, Apply(policy, taken, Release(r.path)), []);
  }

  lemma {:induction false} RunsJoin(policy: Policy, c: Card, a: seq<Step>, b: seq<Step>)
    requires IsRun(policy, c, a) && IsRun(policy, RunFrom(policy, c, a), b)
    ensures IsRun(policy, c, a + b)
    ensures RunFrom(policy, c, a + b) == RunFrom(policy, RunFrom(policy, c, a), b)
    decreases |a|
  {
    if a == [] {
      assert a + b == b;
    } else {
      assert (a + b)[1..] == a[1..] + b;
      RunsJoin(policy, Apply(policy, c, a[0]), a[1..], b);
    }
  }

  /** Only the mutex has changed. */
  predicate LooksLike(c: Card, d: Card) {
    c.dir == d.dir && c.alive == d.alive && c.held == d.held
  }

  ghost predicate OverstepsUnderWay(policy: Policy, c: Card, revive: Step, before: seq<Step>, mid: Card,
      after: seq<Step>, end: Card) {
    && AcquireOnly(before) && AcquireOnly(after)
    && Leads(policy, c, before, mid) && LooksLike(mid, c)
    && Leads(policy, mid, [revive] + after, end)
    && !Safe(policy, end)
  }

  /** The largest claim that a card with these holders still admits leaves no room for another. */
  lemma LastClaim(policy: Policy, live: seq<Record>, r: Record) returns (want: Option<int>)
    requires PositiveDeclarations(live) && ValidWant(r.vramMb) && Bears(policy, live, r.vramMb)
    ensures ValidWant(want) && Fits(live, want, policy.capacity, policy.maxHolders)
    ensures !Bears(policy, live + [r], want)
  {
    SumNonNegative(live);
    SumConcat(live, [r]);
    want := if live == [] then None else Some(policy.capacity.value - SumMb(live));
  }

  /** Without the mutex no test of the directory will do: whatever it holds and
      whoever is alive, an `acquire` can be under way in which writing the record
      now ends with the card overbooked, by the write itself or by the claim that
      has been admitted. */
  lemma OnlyTheMutexHelps(policy: Policy, c: Card, path: string, usagePid: Option<int>, pid: int)
    requires Inv(policy, c) && c.mutex.None? && pid in c.alive
    requires Enabled(policy, c, SetUsagePid(path, usagePid)) && path !in c.dir
    ensures exists before, mid, after, end ::
              OverstepsUnderWay(policy, c, SetUsagePid(path, usagePid), before, mid, after, end)
  {
    var r := Revived(c, path, usagePid);
    var names, live := ListLive(c);
    if Bears(policy, live, r.vramMb) {
      OverstepsThroughAnother(policy, c, path, usagePid, pid, names, live);
    } else {
      OverstepsByItself(policy, c, path, usagePid, live);
    }
  }

  lemma OverstepsThroughAnother(policy: Policy, c: Card, path: string, usagePid: Option<int>, pid: int,
      names: seq<string>, live: seq<Record>)
    requires DirectoryOk(c) && c.mutex.None? && pid in c.alive
    requires Enabled(policy, c, SetUsagePid(path, usagePid)) && path !in c.dir
    requires forall name :: name in names <==> name in c.dir
    requires live == Owned(c.alive, Recorded(c.dir, names)) && AllLive(c, live) && PositiveDeclarations(live)
    requires Bears(policy, live, c.held[path].vramMb)
    ensures exists before, mid, after, end ::
              OverstepsUnderWay(policy, c, SetUsagePid(path, usagePid), before, mid, after, end)
  {
    hide Leads, Bears, Safe, AllLive, Live, Fits;
    var want := LastClaim(policy, live, Revived(c, path, usagePid));
    var before := AcquireIsAdmitted(policy, c, pid, want, names, live);
    var mid := Admitting(c, pid, want, policy.capacity, live);
    AdmittingLooksLike(c, pid, want, policy.capacity, live);
    var w, end := ReviveUnderAdmission(policy, mid, path, usagePid, live);
    assert OverstepsUnderWay(policy, c, SetUsagePid(path, usagePid), before, mid, [Write(w)] + [], end);
  }

  lemma AdmittingLooksLike(c: Card, pid: int, want: Option<int>, usable: Option<int>, live: seq<Record>)
    ensures var d := Admitting(c, pid, want, usable, live);
            && LooksLike(d, c) && (AllLive(c, live) ==> AllLive(d, live)) && (DirectoryOk(c) ==> DirectoryOk(d))
  {
    forall path | Live(Admitting(c, pid, want, usable, live), path)
      ensures Live(c, path)
    {
    }
  }

  lemma OverstepsByItself(policy: Policy, c: Card, path: string, usagePid: Option<int>, live: seq<Record>)
    requires Inv(policy, c) && Enabled(policy, c, SetUsagePid(path, usagePid)) && path !in c.dir
    requires AllLive(c, live) && PositiveDeclarations(live) && !Bears(policy, live, c.held[path].vramMb)
    ensures exists before, mid, after, end ::
              OverstepsUnderWay(policy, c, SetUsagePid(path, usagePid), before, mid, after, end)
  {
    var revive := SetUsagePid(path, usagePid);
    var r := Revived(c, path, usagePid);
    var d := Apply(policy, c, revive);
    BearsExactly(policy, live, r);
    ReviveAddsOne(policy, c, path, usagePid, live);
    SafeByAllLive(policy, d, live + [r]);
    PrependStep(policy, c, revive, []);
    assert OverstepsUnderWay(policy, c, revive, [], c, [], d);
  }

  lemma ReviveUnderAdmission(policy: Policy, c: Card, path: string, usagePid: Option<int>, live: seq<Record>)
    returns (w: Record, end: Card)
    requires DirectoryOk(c) && c.mutex.Some? && c.mutex.value.phase.Admitted?
    requires c.mutex.value.pid in c.alive && ValidWant(c.mutex.value.want)
    requires Enabled(policy, c, SetUsagePid(path, usagePid)) && path !in c.dir && AllLive(c, live)
    requires !Bears(policy, live + [Revived(c, path, usagePid)], c.mutex.value.want)
    ensures Leads(policy, c, [SetUsagePid(path, usagePid)] + ([Write(w)] + []), end) && !Safe(policy, end)
  {
    var a := c.mutex.value;
    var r := Revived(c, path, usagePid);
    var d := Apply(policy, c, SetUsagePid(path, usagePid));
    ReviveAddsOne(policy, c, path, usagePid, live);
    var name := FreshName(d.dir.Keys + d.held.Keys);
    w := Record(name, a.pid, None, a.want, "", None, None);
    end := Apply(policy, d, Write(w));
    BearsExactly(policy, live + [r], w);
    assert LiveList(end, live + [r] + [w]);
    PrependStep(policy, d, Write(w), []);
    PrependStep(policy, c, SetUsagePid(path, usagePid), [Write(w)] + []);
  }

  /** One claimant on an empty ledger runs the whole of `acquire`. */
  ghost function TakeEmptyCard(pid: int, want: int, usable: int, r: Record): seq<Step> {
    [Lock(pid, Some(want), Some(usable))] + ([List([])] + ([Decide] + ([Write(r)] + ([Unlock] + []))))
  }

  lemma TakeEmptyCardRuns(policy: Policy, c: Card, pid: int, want: int, r: Record, rest: seq<Step>)
    requires policy.capacity.Some? && policy.maxHolders.None? && 0 < want <= policy.capacity.value
    requires c.dir == map[] && c.mutex.None? && pid in c.alive
    requires r.pid == pid && r.vramMb == Some(want) && r.path !in c.held
    requires IsRun(policy, c.(dir := map[r.path := r], held := c.held[r.path := r]), rest)
    ensures IsRun(policy, c, TakeEmptyCard(pid, want, policy.capacity.value, r) + rest)
    ensures RunFrom(policy, c, TakeEmptyCard(pid, want, policy.capacity.value, r) + rest)
            == RunFrom(policy, c.(dir := map[r.path := r], held := c.held[r.path := r]), rest)
  {
    var usable := policy.capacity.value;
    var c1 := Apply(policy, c, Lock(pid, Some(want), Some(usable)));
    var c2 := Apply(policy, c1, List([]));
    assert Fits([], Some(want), Some(usable), policy.maxHolders);
    var c3 := Apply(policy, c2, Decide);
    var c4 := Apply(policy, c3, Write(r));
    PrependStep(policy, c4, Unlock, rest);
    PrependStep(policy, c3, Write(r), [Unlock] + rest);
    PrependStep(policy, c2, Decide, [Write(r)] + ([Unlock] + rest));
    PrependStep(policy, c1, List([]), [Decide] + ([Write(r)] + ([Unlock] + rest)));
    PrependStep(policy, c, Lock(pid, Some(want), Some(usable)),
        [List([])] + ([Decide] + ([Write(r)] + ([Unlock] + rest))));
    assert TakeEmptyCard(pid, want, usable, r) + rest
        == [Lock(pid, Some(want), Some(usable))] + ([List([])] + ([Decide] + ([Write(r)] + ([Unlock] + rest))));
  }

  /** Without that condition the promise fails: a holder of the whole of a
      10 MiB card is cleared by hand, a second takes the card, and the first
      then records its usage pid. Both are on disk and alive. */
  lemma RevivedRecordOverbooksTheCard()
    ensures exists policy, alive, steps ::
              IsRun(policy, Empty(alive), steps) && !Safe(policy, RunFrom(policy, Empty(alive), steps))
  {
    var policy := Policy(Some(10), None);
    var c := Empty({1, 2});
    var a := Record("1.aa.json", 1, None, Some(10), "a", None, None);
    var b := Record("2.bb.json", 2, None, Some(10), "b", None, None);
    var withA := c.(dir := map[a.path := a], held := map[a.path := a]);
    var cleared := withA.(dir := map[]);
    var withB := cleared.(dir := map[b.path := b], held := cleared.held[b.path := b]);
    var write := SetUsagePid(a.path, Some(3));
    var after := Apply(policy, withB, write);

    PrependStep(policy, withB, write, []);
    TakeEmptyCardRuns(policy, cleared, 2, 10, b, [write] + []);
    var tail := TakeEmptyCard(2, 10, 10, b) + ([write] + []);
    assert Apply(policy, withA, RemoveByHand(a.path)) == cleared;
    PrependStep(policy, withA, RemoveByHand(a.path), tail);
    TakeEmptyCardRuns(policy, c, 1, 10, a, [RemoveByHand(a.path)] + tail);

    var both := [a.(usagePid := Some(3)), b];
    assert a.path[0] != b.path[0];
    assert LiveList(after, both);
    SumOfTwo(both);
    assert !CapacityOk(both, policy.capacity, policy.maxHolders);
  }

  /** Passing the test does not help a writer without the mutex: here it finds
      the card empty, and somebody has just been admitted to it. */
  lemma TheTestAloneIsNotEnough()
    ensures exists policy, alive, first, c, path, before, mid, after, end ::
              PassesAndOversteps(policy, alive, first, c, path, before, mid, after, end)
  {
    var policy := Policy(Some(10), None);
    var start := Empty({1, 2});
    var a := Record("1.aa.json", 1, None, Some(10), "a", None, None);
    var withA := start.(dir := map[a.path := a], held := map[a.path := a]);
    var clear := RemoveByHand(a.path);
    var c := withA.(dir := map[]);
    assert Apply(policy, withA, clear) == c;
    PrependStep(policy, withA, clear, []);
    TakeEmptyCardRuns(policy, start, 1, 10, a, [clear] + []);
    var first := TakeEmptyCard(1, 10, 10, a) + ([clear] + []);
    EmptyLedgerIsSafe(policy, {1, 2});
    RunKeepsInvWithoutRevives(policy, start, first);
    OnlyTheMutexHelps(policy, c, a.path, Some(3), 2);
    var before, mid, after, end :| OverstepsUnderWay(policy, c, SetUsagePid(a.path, Some(3)), before, mid, after, end);
    assert AllLive(mid, []);
    assert PassesAndOversteps(policy, {1, 2}, first, c, a.path, before, mid, after, end);
  }

  /** The card reads as empty when the record is written again, and ends overbooked. */
  ghost predicate PassesAndOversteps(policy: Policy, alive: set<int>, first: seq<Step>, c: Card, path: string,
                                     before: seq<Step>, mid: Card, after: seq<Step>, end: Card) {
    && Leads(policy, Empty(alive), first, c)
    && AllLive(mid, []) && path in mid.held && Bears(policy, [], mid.held[path].vramMb)
    && OverstepsUnderWay(policy, c, SetUsagePid(path, Some(3)), before, mid, after, end)
  }

  lemma {:induction false} RunKeepsInvWithoutRevives(policy: Policy, c: Card, steps: seq<Step>)
    requires Inv(policy, c) && IsRun(policy, c, steps) && forall s :: s in steps ==> !s.SetUsagePid?
    ensures Inv(policy, RunFrom(policy, c, steps))
    decreases |steps|
  {
    if steps != [] {
      StepKeepsInv(policy, c, steps[0]);
      RunKeepsInvWithoutRevives(policy, Apply(policy, c, steps[0]), steps[1..]);
    }
  }

  lemma SumOfTwo(records: seq<Record>)
    requires |records| == 2
    ensures SumMb(records) == records[0].vramMb.GetOr(0) + records[1].vramMb.GetOr(0)
  {
    assert records == [records[0]] + [records[1]];
    SumConcat([records[0]], [records[1]]);
  }
}
