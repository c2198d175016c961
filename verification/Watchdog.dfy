/**
 The VRAM watchdog (src/gpuqueue/reaper.py, `check_vram`, and the blind-sweep
 rule in `reap`): a holder is convicted after consecutive sweeps over its
 declaration.
 */
module Watchdog {
  import opened Base
  import opened Ledger
  import opened Attribution

  const WATCHDOG_STRIKES := 2

  /** What one timer-gated sweep saw; `Blind` when the process list could not be read. */
  datatype Sweep = Blind | Seen(box: Box, records: seq<Record>, apps: seq<App>)

  datatype Conviction = Conviction(record: Record, used: int, pids: set<int>)

  ghost predicate ValidSweep(s: Sweep) {
    s.Seen? ==> s.box.procs.Valid() && DistinctPaths(s.records)
  }

  ghost function ChargedTo(s: Sweep, path: string): seq<App>
    requires s.Seen? && ValidSweep(s)
  {
    OwnedBy(Owners(s.box, s.records), s.apps, Some(path))
  }

  /** Nothing visible can be attributed although records claim to own trees. */
  ghost predicate Broken(s: Sweep)
    requires s.Seen? && ValidSweep(s)
  {
    && OwnedBy(Owners(s.box, s.records), s.apps, None) != []
    && (forall path :: ChargedTo(s, path) == [])
    && exists i :: 0 <= i < |s.records| && s.records[i].usagePid.Some? && s.records[i].usagePid.value != 0
  }

  predicate OwnsTree(r: Record) {
    r.usagePid.Some? && r.usagePid.value != 0
  }

  ghost predicate IsOver(s: Sweep, r: Record)
    requires s.Seen? && ValidSweep(s)
  {
    r.vramMb.Some? && UsedMb(ChargedTo(s, r.path)) > r.vramMb.value
  }

  /** The paths a sweep found over their declaration, on a usable measurement. */
  ghost function Overs(s: Sweep): set<string>
    requires ValidSweep(s)
  {
    if s.Blind? || Broken(s) then {} else set r | r in s.records && IsOver(s, r) :: r.path
  }

  /** The length of the unbroken run of sweeps over the declaration that ends
      with the last one; a sweep is given by the paths it found over. */
  ghost function RunLength(history: seq<set<string>>, path: string): nat {
    if history == [] || path !in history[|history| - 1] then 0
    else 1 + RunLength(history[..|history| - 1], path)
  }

  class Watchdog {
    var strikes: map<string, int>
    ghost var history: seq<set<string>>

    /** The banked strikes are the run length modulo the conviction threshold. */
    ghost predicate Valid()
      reads this
    {
      && Banked(strikes, history)
      && AllPositive(strikes)
    }

    constructor ()
      ensures Valid() && history == []
    {
      strikes := map[];
      history := [];
    }

    /** A sweep that could not see the process list forgets every strike. */
    method BlindSweep()
      requires Valid()
      modifies this
      ensures Valid() && history == old(history) + [Overs(Blind)] && strikes == map[]
    {
      ghost var past := history;
      strikes := map[];
      history := past + [{}];
      RunAfter(past, {});
    }

    /** Strike or clear one declared record; at the threshold its strikes go and it is due. */
    method Judge(path: string, declared: int, used: int) returns (due: bool)
      requires AllPositive(strikes)
      modifies this`strikes
      ensures AllPositive(strikes)
      ensures forall p :: p != path ==> CountIn(strikes, p) == CountIn(old(strikes), p)
      ensures CountIn(strikes, path) == Struck(old(strikes), used > declared, path)
      ensures due <==> used > declared && CountIn(old(strikes), path) + 1 >= WATCHDOG_STRIKES
    {
      if used <= declared {
        strikes := strikes - {path};
        return false;
      }
      strikes := strikes[path := CountIn(strikes, path) + 1];
      due := strikes[path] >= WATCHDOG_STRIKES;
      if due {
        strikes := strikes - {path};
      }
    }

    /** The loop over records, which also drops the strikes of records that are gone. */
    method Tally(records: seq<Record>, owned: map<string, seq<App>>) returns (convicted: seq<Conviction>)
      requires DistinctPaths(records)
      requires AllPositive(strikes)
      modifies this`strikes
      ensures forall path :: CountIn(strikes, path) == Struck(old(strikes), path in Exceeding(owned, records), path)
      ensures AllPositive(strikes)
      ensures IsVerdict(convicted, old(strikes), owned, records)
    {
      convicted := [];
      var seen: set<string> := {};
      ghost var before := strikes;
      ghost var over: set<string> := {};
      for i := 0 to |records|
        invariant seen == DeclaredPaths(records[..i]) && over == Exceeding(owned, records[..i])
        invariant forall path :: CountIn(strikes, path) == if path in seen then Struck(before, path in over,
            path) else CountIn(before, path)
        invariant AllPositive(strikes)
        invariant IsVerdict(convicted, before, owned, records[..i])
      {
        var r := records[i];
        OneMoreRecord(records, i, owned);
        VerdictGrows(convicted, before, owned, records, i);
        if r.vramMb.Some? {
          seen := seen + {r.path};
          var used := UsedMb(Get(owned, r.path));
          var due := Judge(r.path, r.vramMb.value, used);
          if due {
            convicted := convicted + [Conviction(r, used, PidsOf(Get(owned, r.path)))];
          }
          if used > r.vramMb.value {
            over := over + {r.path};
          }
        }
        assert convicted + [] == convicted;
      }
      assert records[..|records|] == records;
      ExceedingIsDeclared(owned, records);
      strikes := map path | path in strikes && path in seen :: strikes[path];
    }

    method CheckVram(box: Box, records: seq<Record>, apps: seq<App>) returns (convicted: seq<Conviction>)
      requires Valid() && ValidSweep(Seen(box, records, apps))
      modifies this
      ensures Valid() && history == old(history) + [Overs(Seen(box, records, apps))]
      // Exactly the records whose unbroken run has reached a multiple of two, once each.
      ensures forall r :: r in records ==>
                (r in Convicts(convicted)
                 <==> RunLength(history, r.path) > 0 && RunLength(history, r.path) % 2 == 0)
      ensures forall j, k :: 0 <= j < k < |convicted| ==> convicted[j].record != convicted[k].record
      ensures forall c :: c in convicted ==> IsJust(Seen(box, records, apps), c)
    {
      ghost var s := Seen(box, records, apps);
      ghost var before := strikes;
      ghost var past := history;
      var owned, unledgered := Attribute(box, apps, records);
      var someTree := exists i :: 0 <= i < |records| && OwnsTree(records[i]);
      BrokenIsSeen(s, owned, unledgered);
      history := past + [Overs(s)];
      if unledgered != [] && owned == map[] && someTree {
        strikes := map[];
        RunAfter(past, {});
        return [];
      }
      convicted := Tally(records, owned);
      OversAreExceeding(s, owned);
      NextSweep(past, Overs(s), before, strikes);
      VerdictIsExact(convicted, before, owned, s, past);
    }
  }

  ghost predicate Banked(strikes: map<string, int>, history: seq<set<string>>) {
    forall path :: CountIn(strikes, path) == RunLength(history, path) % WATCHDOG_STRIKES
  }

  lemma RunAfter(past: seq<set<string>>, over: set<string>)
    ensures forall path :: RunLength(past + [over], path) == if path in over then RunLength(past, path) + 1 else 0
  {
    assert (past + [over])[..|past|] == past;
  }

  lemma NextSweep(past: seq<set<string>>, over: set<string>, before: map<string, int>, after: map<string, int>)
    requires Banked(before, past)
    requires forall path :: CountIn(after, path) == Struck(before, path in over, path)
    ensures Banked(after, past + [over])
  {
    RunAfter(past, over);
    forall path
      ensures CountIn(after, path) == RunLength(past + [over], path) % WATCHDOG_STRIKES
    {
      assert CountIn(before, path) == RunLength(past, path) % WATCHDOG_STRIKES;
    }
  }

  /** Due at this sweep is the same as having reached a multiple of the threshold. */
  lemma DueIsMultiple(past: seq<set<string>>, over: set<string>, before: map<string, int>, path: string)
    requires Banked(before, past)
    ensures path in over && CountIn(before, path) + 1 >= WATCHDOG_STRIKES
            <==> RunLength(past + [over], path) > 0 && RunLength(past + [over], path) % WATCHDOG_STRIKES == 0
  {
    RunAfter(past, over);
    assert CountIn(before, path) == RunLength(past, path) % WATCHDOG_STRIKES;
  }

  lemma VerdictIsExact(convicted: seq<Conviction>, before: map<string, int>, owned: map<string, seq<App>>, s: Sweep,
      past: seq<set<string>>)
    requires s.Seen? && ValidSweep(s) && !Broken(s) && IsOwned(s, owned)
    requires Banked(before, past) && IsVerdict(convicted, before, owned, s.records)
    ensures forall r :: r in s.records ==>
              (r in Convicts(convicted)
               <==> RunLength(past + [Overs(s)], r.path) > 0 && RunLength(past + [Overs(s)],
                   r.path) % WATCHDOG_STRIKES == 0)
    ensures forall c :: c in convicted ==> IsJust(s, c)
  {
    OversAreExceeding(s, owned);
    forall r | r in s.records
      ensures r in Convicts(convicted)
              <==> RunLength(past + [Overs(s)], r.path) > 0 && RunLength(past + [Overs(s)],
                  r.path) % WATCHDOG_STRIKES == 0
    {
      ExceedingMember(owned, s.records, r);
      DueIsMultiple(past, Overs(s), before, r.path);
    }
    forall c | c in convicted
      ensures IsJust(s, c)
    {
      assert c.record in Convicts(convicted);
    }
  }

  ghost predicate AllPositive(strikes: map<string, int>) {
    forall path :: path in strikes ==> strikes[path] > 0
  }

  function PidsOf(apps: seq<App>): set<int> {
    set a | a in apps :: a.pid
  }

  function CountIn(strikes: map<string, int>, path: string): int {
    if path in strikes then strikes[path] else 0
  }

  function DeclaredPaths(records: seq<Record>): set<string> {
    set r | r in records && r.vramMb.Some? :: r.path
  }

  predicate Exceeds(owned: map<string, seq<App>>, r: Record) {
    r.vramMb.Some? && UsedMb(Get(owned, r.path)) > r.vramMb.value
  }

  function Exceeding(owned: map<string, seq<App>>, records: seq<Record>): set<string> {
    set r | r in records && Exceeds(owned, r) :: r.path
  }

  /** The strikes a path has after a sweep that did or did not find it exceeding. */
  function Struck(before: map<string, int>, over: bool, path: string): int {
    if over && CountIn(before, path) + 1 < WATCHDOG_STRIKES then CountIn(before, path) + 1 else 0
  }

  predicate IsDue(before: map<string, int>, owned: map<string, seq<App>>, r: Record) {
    Exceeds(owned, r) && CountIn(before, r.path) + 1 >= WATCHDOG_STRIKES
  }

  function Convicts(convicted: seq<Conviction>): set<Record> {
    set c | c in convicted :: c.record
  }

  ghost predicate IsVerdict(convicted: seq<Conviction>, before: map<string, int>, owned: map<string, seq<App>>,
      records: seq<Record>) {
    && Convicts(convicted) == (set r | r in records && IsDue(before, owned, r))
    && (forall j, k :: 0 <= j < k < |convicted| ==> convicted[j].record != convicted[k].record)
    && forall c :: c in convicted ==>
         c.used == UsedMb(Get(owned, c.record.path)) && c.pids == PidsOf(Get(owned, c.record.path))
  }

  /** A conviction reports what the record was charged with, and it is over the declaration. */
  ghost predicate IsJust(s: Sweep, c: Conviction)
    requires s.Seen? && ValidSweep(s)
  {
    && c.record in s.records && IsOver(s, c.record)
    && c.used == UsedMb(ChargedTo(s, c.record.path))
    && c.pids == set a | a in ChargedTo(s, c.record.path) :: a.pid
  }

  ghost predicate IsOwned(s: Sweep, owned: map<string, seq<App>>)
    requires s.Seen? && ValidSweep(s)
  {
    forall path :: Get(owned, path) == ChargedTo(s, path)
  }

  lemma OneMoreRecord(records: seq<Record>, i: nat, owned: map<string, seq<App>>)
    requires DistinctPaths(records) && i < |records|
    ensures var r := records[i];
            && r.path !in DeclaredPaths(records[..i]) && r.path !in Exceeding(owned, records[..i])
            && DeclaredPaths(records[..i + 1]) == DeclaredPaths(records[..i])
                + (if r.vramMb.Some? then {r.path} else {})
            && Exceeding(owned, records[..i + 1])
               == Exceeding(owned, records[..i]) + if Exceeds(owned, r) then {r.path} else {}
  {
    assert records[..i + 1] == records[..i] + [records[i]];
  }

  lemma VerdictGrows(convicted: seq<Conviction>, before: map<string, int>, owned: map<string, seq<App>>,
      records: seq<Record>, i: nat)
    requires DistinctPaths(records) && i < |records| && IsVerdict(convicted, before, owned, records[..i])
    ensures var r := records[i];
            var charged := Get(owned, r.path);
            var more := if IsDue(before, owned, r) then [Conviction(r, UsedMb(charged), PidsOf(charged))] else [];
            IsVerdict(convicted + more, before, owned, records[..i + 1])
  {
    var r := records[i];
    assert records[..i + 1] == records[..i] + [r];
    assert r !in records[..i];
    if IsDue(before, owned, r) {
      var c := Conviction(r, UsedMb(Get(owned, r.path)), PidsOf(Get(owned, r.path)));
      assert r !in Convicts(convicted);
      forall j | 0 <= j < |convicted|
        ensures convicted[j].record != r
      {
        assert convicted[j] in convicted;
      }
      assert Convicts(convicted + [c]) == Convicts(convicted) + {r};
    } else {
      assert convicted + [] == convicted;
    }
  }

  lemma ExceedingIsDeclared(owned: map<string, seq<App>>, records: seq<Record>)
    ensures Exceeding(owned, records) <= DeclaredPaths(records)
  {
  }

  lemma ExceedingMember(owned: map<string, seq<App>>, records: seq<Record>, r: Record)
    requires DistinctPaths(records) && r in records
    ensures r.path in Exceeding(owned, records) <==> Exceeds(owned, r)
  {
  }

  lemma OversAreExceeding(s: Sweep, owned: map<string, seq<App>>)
    requires s.Seen? && ValidSweep(s) && !Broken(s) && IsOwned(s, owned)
    ensures Overs(s) == Exceeding(owned, s.records)
    ensures forall r :: r in s.records ==> (Exceeds(owned, r) <==> IsOver(s, r))
  {
  }

  lemma BrokenIsSeen(s: Sweep, owned: map<string, seq<App>>, unledgered: seq<App>)
    requires s.Seen? && ValidSweep(s)
    requires IsAttribution(Lists(Owners(s.box, s.records), s.apps), owned, unledgered)
    ensures IsOwned(s, owned)
    ensures Broken(s)
            <==> unledgered != [] && owned == map[] && exists i :: 0 <= i < |s.records| && OwnsTree(s.records[i])
  {
    assert forall path :: Get(owned, path) == ChargedTo(s, path);
    EmptyOrHasKey(owned);
    if path :| path in owned {
      assert ChargedTo(s, path) == Get(owned, path);
    }
  }

  lemma EmptyOrHasKey(owned: map<string, seq<App>>)
    ensures owned == map[] || exists path :: path in owned
  {
    if forall path :: path !in owned {
      assert owned == map[];
    }
  }
}
