/**
 The claim ledger of one card under concurrency (src/gpuqueue/ledger.py,
 src/gpuqueue/claim.py).

 Only `acquire` takes the mutex, and it is broken here into the steps other
 processes can interleave with: take the mutex, list the directory, read one
 file at a time, test one owner at a time for liveness, decide, write, drop the
 mutex. Releases, deaths, sweeps, removals by hand and `set_usage_pid` happen
 at any moment without it.
 */
module LedgerProtocol {
  import opened Base
  import opened Ledger

  datatype Phase =
    | Locked
    | Reading(names: seq<string>, got: seq<Record>)
    | Filtering(todo: seq<Record>, live: seq<Record>)
    | Admitted(live: seq<Record>)
    | Written

  datatype Acquirer = Acquirer(pid: int, want: Option<int>, usable: Option<int>, phase: Phase)

  /** What all claimants of the card agree on. */
  datatype Policy = Policy(capacity: Option<int>, maxHolders: Option<int>)

  datatype Card = Card(
    dir: map<string, Record>,     // <key>.lock.d, file name to contents
    alive: set<int>,
    held: map<string, Record>,    // records their claimants still have in memory
    mutex: Option<Acquirer>)

  datatype Step =
    | Lock(pid: int, want: Option<int>, usable: Option<int>)
    | List(names: seq<string>)
    | Read
    | TestOwner
    | Decide
    | Write(record: Record)
    | Unlock
    | Release(path: string)
    | Sweep(path: string)
    | RemoveByHand(path: string)
    | SetUsagePid(path: string, usagePid: Option<int>)
    | Die(pid: int)
    | Spawn(pid: int)

  ghost predicate InPhase(c: Card, p: Phase -> bool) {
    c.mutex.Some? && p(c.mutex.value.phase)
  }

  ghost predicate Enabled(policy: Policy, c: Card, s: Step) {
    match s
    case Lock(pid, want, usable) =>
      && c.mutex.None? && pid in c.alive && ValidWant(want)
      && (usable.Some? ==> usable == policy.capacity)  // or the card would not answer
    case List(names) =>
      // A file unlinked during the listing may or may not be named.
      InPhase(c, (p: Phase) => p.Locked?) && forall path :: path in c.dir ==> path in names
    case Read => InPhase(c, (p: Phase) => p.Reading? && p.names != [])
    case TestOwner => InPhase(c, (p: Phase) => p.Filtering? && p.todo != [])
    case Decide => InPhase(c, (p: Phase) => p.Filtering? && p.todo == [])
    case Write(r) =>
      && InPhase(c, (p: Phase) => p.Admitted?)
      && r.pid == c.mutex.value.pid && r.vramMb == c.mutex.value.want
      && r.path !in c.dir && r.path !in c.held  // the token in the name is new
    case Unlock => InPhase(c, (p: Phase) => p.Written?)
    case Release(path) => path in c.held && c.held[path].pid in c.alive
    case Sweep(path) => path in c.dir && c.dir[path].pid !in c.alive
    case RemoveByHand(path) => true
    case SetUsagePid(path, _) => path in c.held && c.held[path].pid in c.alive
    case Die(pid) => pid in c.alive
    case Spawn(pid) =>
      // A pid is not reused while a record naming it is on disk.
      && pid !in c.alive
      && forall path :: path in c.dir ==> c.dir[path].pid != pid
  }

  function WithPhase(c: Card, p: Phase): Card
    requires c.mutex.Some?
  {
    c.(mutex := Some(c.mutex.value.(phase := p)))
  }

  ghost function Apply(policy: Policy, c: Card, s: Step): Card
    requires Enabled(policy, c, s)
  {
    match s
    case Lock(pid, want, usable) => c.(mutex := Some(Acquirer(pid, want, usable, Locked)))
    case List(names) => WithPhase(c, if names == [] then Filtering([], []) else Reading(names, []))
    case Read =>
      var Reading(names, got) := c.mutex.value.phase;
      var got' := if names[0] in c.dir then got + [c.dir[names[0]]] else got;
      WithPhase(c, if |names| == 1 then Filtering(got', []) else Reading(names[1..], got'))
    case TestOwner =>
      var Filtering(todo, live) := c.mutex.value.phase;
      WithPhase(c, Filtering(todo[1..], if todo[0].pid in c.alive then live + [todo[0]] else live))
    case Decide =>
      var a := c.mutex.value;
      if Fits(a.phase.live, a.want, a.usable, policy.maxHolders) then WithPhase(c, Admitted(a.phase.live))
      else c.(mutex := None)
    case Write(r) => WithPhase(c, Written).(dir := c.dir[r.path := r], held := c.held[r.path := r])
    case Unlock => c.(mutex := None)
    case Release(path) => c.(dir := c.dir - {path}, held := c.held - {path})
    case Sweep(path) => c.(dir := c.dir - {path})
    case RemoveByHand(path) => c.(dir := c.dir - {path})
    case SetUsagePid(path, usagePid) =>
      // write_record replaces or creates: it does not look whether the file is still there.
      var r := c.held[path].(usagePid := usagePid);
      c.(dir := c.dir[path := r], held := c.held[path := r])
    case Die(pid) =>
      // What it had in memory is gone, and the kernel drops its flock.
      c.(alive := c.alive - {pid},
         held := map path | path in c.held && c.held[path].pid != pid :: c.held[path],
         mutex := if c.mutex.Some? && c.mutex.value.pid == pid then None else c.mutex)
    case Spawn(pid) => c.(alive := c.alive + {pid})
  }

  ghost predicate IsRun(policy: Policy, c: Card, steps: seq<Step>)
    decreases |steps|
  {
    steps == [] || (Enabled(policy, c, steps[0]) && IsRun(policy, Apply(policy, c, steps[0]), steps[1..]))
  }

  ghost function RunFrom(policy: Policy, c: Card, steps: seq<Step>): Card
    requires IsRun(policy, c, steps)
    decreases |steps|
  {
    if steps == [] then c else RunFrom(policy, Apply(policy, c, steps[0]), steps[1..])
  }

  ghost function Empty(alive: set<int>): Card {
    Card(map[], alive, map[], None)
  }

  // ---------------------------------------------------------------------
  // Safety
  // ---------------------------------------------------------------------

  /** Any list of different records on disk whose owners are alive. */
  ghost predicate LiveList(c: Card, records: seq<Record>) {
    && DistinctPaths(records)
    && forall i :: 0 <= i < |records| ==>
         records[i].path in c.dir && c.dir[records[i].path] == records[i] && records[i].pid in c.alive
  }

  ghost predicate Safe(policy: Policy, c: Card) {
    forall records :: LiveList(c, records) ==> CapacityOk(records, policy.capacity, policy.maxHolders)
  }

  /** The card with these holders bears one more: it is empty, or the ledger
      would admit the claim to it. */
  predicate Bears(policy: Policy, live: seq<Record>, want: Option<int>) {
    || (live == [] && !AtHolderCap([], policy.maxHolders))
    || Fits(live, want, policy.capacity, policy.maxHolders)
  }

  lemma BearsExactly(policy: Policy, live: seq<Record>, r: Record)
    requires PositiveDeclarations(live) && ValidWant(r.vramMb)
    ensures Bears(policy, live, r.vramMb) <==> CapacityOk(live + [r], policy.capacity, policy.maxHolders)
  {
    SumConcat(live, [r]);
    SumNonNegative(live);
    assert (live + [r])[|live|] == r;
    forall i | 0 <= i < |live|
      ensures (live + [r])[i] == live[i]
    {
    }
    if Bears(policy, live, r.vramMb) && live != [] {
      AdmissionKeepsCapacity(live, r, policy.capacity, policy.capacity, policy.maxHolders);
    }
  }

  lemma BearsAntitone(policy: Policy, small: seq<Record>, big: seq<Record>, want: Option<int>)
    requires DistinctPaths(small) && AllChargedIn(small, big) && PositiveDeclarations(big)
    requires Bears(policy, big, want)
    ensures Bears(policy, small, want)
  {
    SubLedgerIsLighter(small, big);
    if Fits(big, want, policy.capacity, policy.maxHolders) {
      FitsAntitone(small, big, want, policy.capacity, policy.maxHolders);
    }
  }

  /** What a claimant that could not learn the capacity was admitted to, the
      card bears all the more. */
  lemma AdmittedIsBorne(policy: Policy, live: seq<Record>, want: Option<int>, usable: Option<int>)
    requires Fits(live, want, usable, policy.maxHolders) && (usable.Some? ==> usable == policy.capacity)
    ensures Bears(policy, live, want)
  {
  }

  ghost predicate SameClaim(r: Record, q: Record) {
    r.path == q.path && r.pid == q.pid && r.vramMb == q.vramMb
  }

  ghost predicate SeenIn(r: Record, records: seq<Record>) {
    exists j :: 0 <= j < |records| && SameClaim(r, records[j])
  }

  ghost predicate Live(c: Card, path: string) {
    path in c.dir && c.dir[path].pid in c.alive
  }

  ghost predicate DirectoryOk(c: Card) {
    && (forall path :: path in c.dir ==> c.dir[path].path == path && ValidWant(c.dir[path].vramMb))
    && (forall path :: path in c.held ==> c.held[path].path == path && ValidWant(c.held[path].vramMb))
    && (forall path :: path in c.held && path in c.dir ==> SameClaim(c.held[path], c.dir[path]))
  }

  /** What the holder of the mutex has learnt covers every live record, however many left meanwhile. */
  ghost predicate ViewOk(policy: Policy, c: Card, a: Acquirer) {
    && a.pid in c.alive && ValidWant(a.want) && (a.usable.Some? ==> a.usable == policy.capacity)
    && match a.phase
       case Locked => true
       case Reading(names, got) =>
         && PositiveDeclarations(got)
         && forall path :: Live(c, path) ==> path in names || SeenIn(c.dir[path], got)
       case Filtering(todo, live) =>
         && PositiveDeclarations(todo) && PositiveDeclarations(live)
         && forall path :: Live(c, path) ==> SeenIn(c.dir[path], todo) || SeenIn(c.dir[path], live)
       case Admitted(_) =>
         forall records: seq<Record> :: LiveList(c, records) ==> Bears(policy, records, a.want)
       case Written => true
  }

  ghost predicate Inv(policy: Policy, c: Card) {
    DirectoryOk(c) && Safe(policy, c) && (c.mutex.Some? ==> ViewOk(policy, c, c.mutex.value))
  }

  /** Nothing live in `d` was not live, with the same claim, in `c`. */
  ghost predicate NoNewHolder(c: Card, d: Card) {
    forall path :: Live(d, path) ==> Live(c, path) && SameClaim(d.dir[path], c.dir[path])
  }

  /** A live list after some holders left is charged in a live list from before. */
  lemma ListBefore(c: Card, d: Card, records: seq<Record>) returns (before: seq<Record>)
    requires DirectoryOk(c) && NoNewHolder(c, d) && LiveList(d, records)
    ensures LiveList(c, before) && AllChargedIn(records, before) && PositiveDeclarations(before)
  {
    forall i | 0 <= i < |records|
      ensures Live(d, records[i].path)
    {
    }
    before := seq(|records|, i requires 0 <= i < |records| => c.dir[records[i].path]);
    forall i | 0 <= i < |records|
      ensures ChargedIn(records[i], before)
    {
      assert before[i].path == records[i].path && before[i].vramMb == records[i].vramMb;
    }
  }

  lemma LeavingKeepsSafe(policy: Policy, c: Card, d: Card)
    requires DirectoryOk(c) && Safe(policy, c) && NoNewHolder(c, d)
    ensures Safe(policy, d)
  {
    forall records: seq<Record> | LiveList(d, records)
      ensures CapacityOk(records, policy.capacity, policy.maxHolders)
    {
      var before := ListBefore(c, d, records);
      CapacityAntitone(records, before, policy.capacity, policy.maxHolders);
    }
  }

  lemma LeavingKeepsRoom(policy: Policy, c: Card, d: Card, want: Option<int>)
    requires DirectoryOk(c) && NoNewHolder(c, d)
    requires forall records: seq<Record> :: LiveList(c, records) ==> Bears(policy, records, want)
    ensures forall records: seq<Record> :: LiveList(d, records) ==> Bears(policy, records, want)
  {
    forall records: seq<Record> | LiveList(d, records)
      ensures Bears(policy, records, want)
    {
      var before := ListBefore(c, d, records);
      BearsAntitone(policy, records, before, want);
    }
  }

  lemma LeavingKeepsView(policy: Policy, c: Card, d: Card)
    requires c.mutex.Some? && d.mutex == c.mutex && c.mutex.value.pid in d.alive
    requires DirectoryOk(c) && ViewOk(policy, c, c.mutex.value) && NoNewHolder(c, d)
    ensures ViewOk(policy, d, d.mutex.value)
  {
    if c.mutex.value.phase.Admitted? {
      LeavingKeepsRoom(policy, c, d, c.mutex.value.want);
    }
    forall path, records | Live(d, path) && SeenIn(c.dir[path], records)
      ensures SeenIn(d.dir[path], records)
    {
      var j :| 0 <= j < |records| && SameClaim(c.dir[path], records[j]);
      assert SameClaim(d.dir[path], records[j]);
    }
  }

  lemma SeenInConcat(r: Record, a: seq<Record>, b: seq<Record>)
    ensures SeenIn(r, a) ==> SeenIn(r, a + b)
    ensures SeenIn(r, b) ==> SeenIn(r, a + b)
  {
    if SeenIn(r, a) {
      var j :| 0 <= j < |a| && SameClaim(r, a[j]);
      assert (a + b)[j] == a[j];
    }
    if SeenIn(r, b) {
      var j :| 0 <= j < |b| && SameClaim(r, b[j]);
      assert (a + b)[|a| + j] == b[j];
    }
  }

  lemma ReadKeepsView(policy: Policy, c: Card)
    requires Inv(policy, c) && Enabled(policy, c, Read)
    ensures ViewOk(policy, Apply(policy, c, Read), Apply(policy, c, Read).mutex.value)
  {
    var d := Apply(policy, c, Read);
    var Reading(names, got) := c.mutex.value.phase;
    var got' := if names[0] in c.dir then got + [c.dir[names[0]]] else got;
    assert PositiveDeclarations(got');
    forall path | Live(d, path)
      ensures path in names[1..] || SeenIn(d.dir[path], got')
    {
      assert Live(c, path);
      assert SameClaim(c.dir[path], [c.dir[path]][0]);
      SeenInConcat(c.dir[path], got, [c.dir[path]]);
      if path == names[0] {
      } else if SeenIn(c.dir[path], got) {
        if names[0] in c.dir {
          SeenInConcat(c.dir[path], got, [c.dir[names[0]]]);
        }
      } else {
        var k :| 0 <= k < |names| && names[k] == path;
        assert names[1..][k - 1] == path;
      }
    }
  }

  lemma TestOwnerKeepsView(policy: Policy, c: Card)
    requires Inv(policy, c) && Enabled(policy, c, TestOwner)
    ensures ViewOk(policy, Apply(policy, c, TestOwner), Apply(policy, c, TestOwner).mutex.value)
  {
    var d := Apply(policy, c, TestOwner);
    var Filtering(todo, live) := c.mutex.value.phase;
    var live' := if todo[0].pid in c.alive then live + [todo[0]] else live;
    assert PositiveDeclarations(live') && PositiveDeclarations(todo[1..]);
    forall path | Live(d, path)
      ensures SeenIn(d.dir[path], todo[1..]) || SeenIn(d.dir[path], live')
    {
      assert Live(c, path);
      var r := c.dir[path];
      SeenInConcat(r, live, [todo[0]]);
      if SeenIn(r, todo) && !SeenIn(r, live) {
        var j :| 0 <= j < |todo| && SameClaim(r, todo[j]);
        if j == 0 {
          assert SameClaim(r, [todo[0]][0]);
        } else {
          assert SameClaim(r, todo[1..][j - 1]);
        }
      }
    }
  }

  /** The decision is sound for whoever is still there when it is made, though
      it was made on files read one by one. */
  lemma DecideKeepsView(policy: Policy, c: Card)
    requires Inv(policy, c) && Enabled(policy, c, Decide)
    ensures var d := Apply(policy, c, Decide);
            d.mutex.Some? ==> ViewOk(policy, d, d.mutex.value)
  {
    var d := Apply(policy, c, Decide);
    var a := c.mutex.value;
    if d.mutex.Some? {
      var live := a.phase.live;
      forall records: seq<Record> | LiveList(d, records)
        ensures Bears(policy, records, a.want)
      {
        forall i | 0 <= i < |records|
          ensures ChargedIn(records[i], live)
        {
          assert Live(c, records[i].path);
          var j :| 0 <= j < |live| && SameClaim(records[i], live[j]);
          assert live[j].path == records[i].path && live[j].vramMb == records[i].vramMb;
        }
        AdmittedIsBorne(policy, live, a.want, a.usable);
        BearsAntitone(policy, records, live, a.want);
      }
    }
  }

  /** Lists of live records that may also name `r` are safe if what else is live bears it. */
  lemma OneMoreIsSafe(policy: Policy, c: Card, r: Record, records: seq<Record>)
    requires DirectoryOk(c) && r.path !in c.dir && ValidWant(r.vramMb)
    requires Safe(policy, c) && forall live: seq<Record> :: LiveList(c, live) ==> Bears(policy, live, r.vramMb)
    requires LiveList(c.(dir := c.dir[r.path := r]), records)
    ensures CapacityOk(records, policy.capacity, policy.maxHolders)
  {
    if j :| 0 <= j < |records| && records[j].path == r.path {
      var rest := Without(records, j);
      RestIsLive(c, r, records, j);
      BearsExactly(policy, rest, r);
      AllChargedInLastMoved(records, j);
      CapacityAntitone(records, rest + [r], policy.capacity, policy.maxHolders);
    } else {
      assert LiveList(c, records);
    }
  }

  lemma RestIsLive(c: Card, r: Record, records: seq<Record>, j: nat)
    requires DirectoryOk(c) && r.path !in c.dir && j < |records| && records[j].path == r.path
    requires LiveList(c.(dir := c.dir[r.path := r]), records)
    ensures LiveList(c, Without(records, j)) && PositiveDeclarations(Without(records, j))
    ensures records[j] == r
  {
    var rest := Without(records, j);
    forall i | 0 <= i < |rest|
      ensures rest[i] == records[if i < j then i else i + 1]
    {
    }
  }

  lemma AllChargedInLastMoved(records: seq<Record>, j: nat)
    requires j < |records|
    ensures AllChargedIn(records, Without(records, j) + [records[j]])
  {
    forall i | 0 <= i < |records|
      ensures ChargedIn(records[i], Without(records, j) + [records[j]])
    {
      var k := if i < j then i else if i == j then |records| - 1 else i - 1;
      assert (Without(records, j) + [records[j]])[k] == records[i];
    }
  }

  lemma WriteKeepsSafe(policy: Policy, c: Card, r: Record)
    requires Inv(policy, c) && Enabled(policy, c, Write(r))
    ensures Safe(policy, Apply(policy, c, Write(r)))
  {
    var d := Apply(policy, c, Write(r));
    forall records: seq<Record> | LiveList(d, records)
      ensures CapacityOk(records, policy.capacity, policy.maxHolders)
    {
      assert LiveList(c.(dir := c.dir[r.path := r]), records);
      OneMoreIsSafe(policy, c, r, records);
    }
  }

  lemma StepKeepsDirectory(policy: Policy, c: Card, s: Step)
    requires Inv(policy, c) && Enabled(policy, c, s)
    ensures DirectoryOk(Apply(policy, c, s))
  {
  }

  /** `set_usage_pid` writes a record that is no longer in the directory. */
  predicate Revives(c: Card, s: Step) {
    s.SetUsagePid? && s.path !in c.dir
  }

  lemma OnlyAWriteAddsAHolder(policy: Policy, c: Card, s: Step)
    requires Inv(policy, c) && Enabled(policy, c, s) && !Revives(c, s) && !s.Write?
    ensures NoNewHolder(c, Apply(policy, c, s))
  {
  }

  /** Who counts after a holder leaves, one way or another: a file that goes is
      gone, a process that dies counts no more wherever it is recorded and leaves
      the mutex free, and everybody else counts as before. */
  lemma LeavingExactly(policy: Policy, c: Card, s: Step, path: string)
    requires Enabled(policy, c, s) && (s.Release? || s.Sweep? || s.RemoveByHand? || s.Die?)
    ensures var d := Apply(policy, c, s);
            && (path in d.dir <==> path in c.dir && (s.Die? || path != s.path))
            && (path in d.dir ==> d.dir[path] == c.dir[path])
            && (Live(d, path) <==> Live(c, path) && if s.Die? then c.dir[path].pid != s.pid else path != s.path)
            && (path in d.held <==>
                  path in c.held && (s.Release? ==> path != s.path) && (s.Die? ==> c.held[path].pid != s.pid))
            && (d.mutex.None? <==> c.mutex.None? || (s.Die? && c.mutex.value.pid == s.pid))
  {
  }

  lemma StepKeepsView(policy: Policy, c: Card, s: Step)
    requires Inv(policy, c) && Enabled(policy, c, s) && !Revives(c, s)
    ensures var d := Apply(policy, c, s);
            d.mutex.Some? ==> ViewOk(policy, d, d.mutex.value)
  {
    var d := Apply(policy, c, s);
    match s {
      case Write(r) =>
      case Read => ReadKeepsView(policy, c);
      case TestOwner => TestOwnerKeepsView(policy, c);
      case Decide => DecideKeepsView(policy, c);
      case List(names) =>
      case Lock(_, _, _) =>
      case Unlock =>
      case _ =>
        if d.mutex.Some? {
          OnlyAWriteAddsAHolder(policy, c, s);
          LeavingKeepsView(policy, c, d);
        }
    }
  }

  lemma StepKeepsInv(policy: Policy, c: Card, s: Step)
    requires Inv(policy, c) && Enabled(policy, c, s) && !Revives(c, s)
    ensures Inv(policy, Apply(policy, c, s))
  {
    hide Apply, ViewOk, Safe, DirectoryOk, Enabled, NoNewHolder;
    StepKeepsDirectory(policy, c, s);
    StepKeepsView(policy, c, s);
    if s.Write? {
      WriteKeepsSafe(policy, c, s.record);
    } else {
      OnlyAWriteAddsAHolder(policy, c, s);
      LeavingKeepsSafe(policy, c, Apply(policy, c, s));
    }
  }

  lemma ListedIsLive(c: Card, records: seq<Record>, i: nat)
    requires LiveList(c, records) && i < |records|
    ensures Live(c, records[i].path)
  {
  }

  lemma EmptyLedgerIsSafe(policy: Policy, alive: set<int>)
    ensures Inv(policy, Empty(alive))
  {
    forall records: seq<Record> | LiveList(Empty(alive), records)
      ensures records == []
    {
      if 0 < |records| {
        ListedIsLive(Empty(alive), records, 0);
        assert false;
      }
    }
  }

  // ---------------------------------------------------------------------
  // A record removed by hand and written again
  // ---------------------------------------------------------------------

  ghost predicate AllLive(c: Card, records: seq<Record>) {
    LiveList(c, records) && forall path :: Live(c, path) ==> c.dir[path] in records
  }

  /** An acquire under way has not learnt too much to take one more record into
      account: it has yet to list, or counts the record already, or is past
      deciding and would be admitted beside it, or is done. */
  ghost predicate Accommodates(policy: Policy, c: Card, r: Record, live: seq<Record>) {
    c.mutex.Some? ==>
      var a := c.mutex.value;
      match a.phase
      case Locked => true
      case Reading(names, got) => r.path in names || SeenIn(r, got)
      case Filtering(todo, seen) => SeenIn(r, todo) || SeenIn(r, seen)
      case Admitted(_) => Bears(policy, live + [r], a.want)
      case Written => true
  }

  lemma AllChargedInAllLive(c: Card, records: seq<Record>, live: seq<Record>)
    requires LiveList(c, records) && AllLive(c, live)
    ensures AllChargedIn(records, live)
  {
    forall i | 0 <= i < |records|
      ensures ChargedIn(records[i], live)
    {
      assert Live(c, records[i].path);
      var j :| 0 <= j < |live| && live[j] == records[i];
    }
  }

  ghost function Revived(c: Card, path: string, usagePid: Option<int>): Record
    requires path in c.held
  {
    c.held[path].(usagePid := usagePid)
  }

  lemma ReviveAddsOne(policy: Policy, c: Card, path: string, usagePid: Option<int>, live: seq<Record>)
    requires DirectoryOk(c) && Enabled(policy, c, SetUsagePid(path, usagePid))
    requires path !in c.dir && AllLive(c, live)
    ensures AllLive(Apply(policy, c, SetUsagePid(path, usagePid)), live + [Revived(c, path, usagePid)])
    ensures PositiveDeclarations(live + [Revived(c, path, usagePid)])
  {
    var r := Revived(c, path, usagePid);
    var d := Apply(policy, c, SetUsagePid(path, usagePid));
    forall p | Live(d, p)
      ensures d.dir[p] in live + [r]
    {
      if p != path {
        assert Live(c, p);
      }
    }
  }

  lemma SafeByAllLive(policy: Policy, c: Card, live: seq<Record>)
    requires AllLive(c, live) && PositiveDeclarations(live)
    ensures Safe(policy, c) <==> CapacityOk(live, policy.capacity, policy.maxHolders)
  {
    if CapacityOk(live, policy.capacity, policy.maxHolders) {
      forall records: seq<Record> | LiveList(c, records)
        ensures CapacityOk(records, policy.capacity, policy.maxHolders)
      {
        AllChargedInAllLive(c, records, live);
        CapacityAntitone(records, live, policy.capacity, policy.maxHolders);
      }
    }
  }

  lemma RoomByAllLive(policy: Policy, c: Card, live: seq<Record>, want: Option<int>)
    requires AllLive(c, live) && PositiveDeclarations(live)
    ensures (forall records: seq<Record> :: LiveList(c, records) ==> Bears(policy, records, want))
            <==> Bears(policy, live, want)
  {
    if Bears(policy, live, want) {
      forall records: seq<Record> | LiveList(c, records)
        ensures Bears(policy, records, want)
      {
        AllChargedInAllLive(c, records, live);
        BearsAntitone(policy, records, live, want);
      }
    }
  }

  lemma ReviveKeepsViewExactly(policy: Policy, c: Card, path: string, usagePid: Option<int>, live: seq<Record>)
    requires Inv(policy, c) && Enabled(policy, c, SetUsagePid(path, usagePid)) && c.mutex.Some?
    requires path !in c.dir && AllLive(c, live)
    ensures var d := Apply(policy, c, SetUsagePid(path, usagePid));
            ViewOk(policy, d, d.mutex.value) <==> Accommodates(policy, c, Revived(c, path, usagePid), live)
  {
    var r := Revived(c, path, usagePid);
    var d := Apply(policy, c, SetUsagePid(path, usagePid));
    ReviveAddsOne(policy, c, path, usagePid, live);
    RoomByAllLive(policy, d, live + [r], c.mutex.value.want);
    assert Live(d, path) && d.dir[path] == r;
    forall p | p != path
      ensures Live(d, p) <==> Live(c, p)
    {
    }
  }

  /** Writing a removed record again keeps the card in order, for now and for
      what is under way, exactly when the card bears it and the acquire in
      progress, if any, accommodates it. */
  lemma ReviveKeepsInvExactly(policy: Policy, c: Card, path: string, usagePid: Option<int>, live: seq<Record>)
    requires Inv(policy, c) && Enabled(policy, c, SetUsagePid(path, usagePid))
    requires path !in c.dir && AllLive(c, live)
    ensures Inv(policy, Apply(policy, c, SetUsagePid(path, usagePid)))
            <==> && Bears(policy, live, c.held[path].vramMb)
                 && Accommodates(policy, c, Revived(c, path, usagePid), live)
  {
    hide ViewOk, Accommodates, Bears;
    var r := Revived(c, path, usagePid);
    StepKeepsDirectory(policy, c, SetUsagePid(path, usagePid));
    ReviveAddsOne(policy, c, path, usagePid, live);
    SafeByAllLive(policy, Apply(policy, c, SetUsagePid(path, usagePid)), live + [r]);
    BearsExactly(policy, live, r);
    if c.mutex.Some? {
      ReviveKeepsViewExactly(policy, c, path, usagePid, live);
    } else {
      NobodyToAccommodate(policy, c, r, live);
    }
  }

  lemma NobodyToAccommodate(policy: Policy, c: Card, r: Record, live: seq<Record>)
    requires c.mutex.None?
    ensures Accommodates(policy, c, r, live)
  {
  }

  /** A revive that passes both tests. */
  ghost predicate Guarded(policy: Policy, c: Card, s: Step)
    requires Enabled(policy, c, s)
  {
    Revives(c, s) ==>
      exists live ::
        && AllLive(c, live) && Bears(policy, live, c.held[s.path].vramMb)
        && Accommodates(policy, c, Revived(c, s.path, s.usagePid), live)
  }

  ghost predicate GuardsRevives(policy: Policy, c: Card, steps: seq<Step>)
    requires IsRun(policy, c, steps)
    decreases |steps|
  {
    steps == [] || (Guarded(policy, c, steps[0]) && GuardsRevives(policy, Apply(policy, c, steps[0]), steps[1..]))
  }

  lemma {:induction false} RunKeepsInv(policy: Policy, c: Card, steps: seq<Step>)
    requires Inv(policy, c) && IsRun(policy, c, steps) && GuardsRevives(policy, c, steps)
    ensures Inv(policy, RunFrom(policy, c, steps))
    decreases |steps|
  {
    if steps != [] {
      var s := steps[0];
      if Revives(c, s) {
        var live :| && AllLive(c, live) && Bears(policy, live, c.held[s.path].vramMb)
                    && Accommodates(policy, c, Revived(c, s.path, s.usagePid), live);
        ReviveKeepsInvExactly(policy, c, s.path, s.usagePid, live);
      } else {
        StepKeepsInv(policy, c, s);
      }
      RunKeepsInv(policy, Apply(policy, c, s), steps[1..]);
    }
  }

  /** Capacity safety over whole runs. In every state reached from an empty
      ledger, under any interleaving in which each revive passes its tests, the
      live records are one record or all declared with a total within the card,
      and never more than the cap. */
  lemma CapacityIsNeverExceeded(policy: Policy, alive: set<int>, steps: seq<Step>, records: seq<Record>)
    requires IsRun(policy, Empty(alive), steps) && GuardsRevives(policy, Empty(alive), steps)
    requires LiveList(RunFrom(policy, Empty(alive), steps), records)
    ensures CapacityOk(records, policy.capacity, policy.maxHolders)
  {
    EmptyLedgerIsSafe(policy, alive);
    RunKeepsInv(policy, Empty(alive), steps);
  }
}
