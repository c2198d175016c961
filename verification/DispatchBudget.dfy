/**
 The rolling dispatch budget (src/gpuqueue/bugfiler.py): `record_dispatch`,
 `refund_dispatch`, `dispatches_in_last_day`, `may_dispatch` and the
 debit/create/refund part of `file_bug`. Times are in any fixed unit; `DAY` is
 24 hours of it. What is read back from the state file is what was last saved.
 */
module DispatchBudget {
  import opened Base

  const DAY := 24 * 60 * 60 * 1_000_000   // microseconds, the resolution of a stamp
  const PRUNE_AFTER := 2 * DAY

  datatype Outcome = Filed | FiledThrottled | CreateFailed

  /** How many stamps lie in the half-open window (from, to]. */
  function InWindow(stamps: seq<int>, from: int, to: int): nat {
    if stamps == [] then 0
    else InWindow(stamps[..|stamps| - 1], from, to) + (if from < stamps[|stamps| - 1] <= to then 1 else 0)
  }

  /** A window is counted by position, so that equal stamps count each. */
  lemma {:induction false} InWindowCounts(stamps: seq<int>, from: int, to: int)
    ensures InWindow(stamps, from, to) == |set i | 0 <= i < |stamps| && from < stamps[i] <= to|
  {
    if stamps != [] {
      var front := stamps[..|stamps| - 1];
      var here := set i | 0 <= i < |stamps| && from < stamps[i] <= to;
      var there := set i | 0 <= i < |front| && from < front[i] <= to;
      InWindowCounts(front, from, to);
      assert here == there + if from < stamps[|front|] <= to then {|front|} else {};
    }
  }

  function After(stamps: seq<int>, cutoff: int): seq<int> {
    if stamps == [] then []
    else After(stamps[..|stamps| - 1], cutoff)
         + (if stamps[|stamps| - 1] > cutoff then [stamps[|stamps| - 1]] else [])
  }

  /** `stamps.remove(x)`: the first occurrence goes. */
  function RemoveFirst(stamps: seq<int>, x: int): seq<int> {
    if stamps == [] then []
    else if stamps[0] == x then stamps[1..]
    else [stamps[0]] + RemoveFirst(stamps[1..], x)
  }

  function AtMost(cap: int): nat {
    if cap > 0 then cap else 0
  }

  ghost predicate NoneAfter(stamps: seq<int>, now: int) {
    forall i :: 0 <= i < |stamps| ==> stamps[i] <= now
  }

  /** The window of a day that ends at `to`. */
  ghost predicate DayWithin(filed: seq<int>, to: int, cap: int) {
    InWindow(filed, to - DAY, to) <= AtMost(cap)
  }

  /** On every window that starts at `start` or later, `a` holds no more than `b`. */
  ghost predicate RecordedSince(a: seq<int>, b: seq<int>, start: int) {
    forall from, to :: from >= start ==> InWindow(a, from, to) <= InWindow(b, from, to)
  }

  lemma {:induction false} InWindowConcat(a: seq<int>, b: seq<int>, from: int, to: int)
    ensures InWindow(a + b, from, to) == InWindow(a, from, to) + InWindow(b, from, to)
  {
    if b == [] {
      assert a + b == a;
    } else {
      assert (a + b)[..|a + b| - 1] == a + b[..|b| - 1];
      InWindowConcat(a, b[..|b| - 1], from, to);
    }
  }

  lemma InWindowSnoc(a: seq<int>, x: int, from: int, to: int)
    ensures InWindow(a + [x], from, to) == InWindow(a, from, to) + (if from < x <= to then 1 else 0)
  {
    assert (a + [x])[..|a|] == a;
  }

  /** Taking one stamp out lowers exactly the windows it lies in. */
  lemma {:induction false} RemoveFirstInWindow(stamps: seq<int>, x: int, from: int, to: int)
    requires x in stamps
    ensures InWindow(RemoveFirst(stamps, x), from, to) == InWindow(stamps, from, to) - (if from < x <= to then 1 else 0)
  {
    assert stamps == [stamps[0]] + stamps[1..];
    InWindowConcat([stamps[0]], stamps[1..], from, to);
    if stamps[0] != x {
      RemoveFirstInWindow(stamps[1..], x, from, to);
      InWindowConcat([stamps[0]], RemoveFirst(stamps[1..], x), from, to);
    }
  }

  lemma {:induction false} RemoveFirstNoneAfter(stamps: seq<int>, x: int, now: int)
    requires NoneAfter(stamps, now)
    ensures NoneAfter(RemoveFirst(stamps, x), now)
  {
    if stamps != [] && stamps[0] != x {
      RemoveFirstNoneAfter(stamps[1..], x, now);
    }
  }

  /** Pruning touches no window that starts at the cutoff or later. */
  lemma {:induction false} PruneKeepsRecent(stamps: seq<int>, cutoff: int, from: int, to: int)
    requires from >= cutoff
    ensures InWindow(After(stamps, cutoff), from, to) == InWindow(stamps, from, to)
  {
    if stamps != [] {
      PruneKeepsRecent(stamps[..|stamps| - 1], cutoff, from, to);
      InWindowSnoc(After(stamps[..|stamps| - 1], cutoff), stamps[|stamps| - 1], from, to);
      assert After(stamps[..|stamps| - 1], cutoff) + [] == After(stamps[..|stamps| - 1], cutoff);
    }
  }

  lemma {:induction false} PruneNoneAfter(stamps: seq<int>, cutoff: int, now: int)
    requires NoneAfter(stamps, now)
    ensures NoneAfter(After(stamps, cutoff), now)
  {
    if stamps != [] {
      PruneNoneAfter(stamps[..|stamps| - 1], cutoff, now);
    }
  }

  lemma {:induction false} RecentIsWindow(stamps: seq<int>, now: int)
    requires NoneAfter(stamps, now)
    ensures |After(stamps, now - DAY)| == InWindow(stamps, now - DAY, now)
  {
    if stamps != [] {
      RecentIsWindow(stamps[..|stamps| - 1], now);
    }
  }

  /** One call of `file_bug` that gets past its lookups. The flags say whether
      the two saves and the creation of the issue succeed. */
  datatype Call = Call(now: int, debitSaves: bool, creates: bool, refundSaves: bool)

  function OutcomeOf(stamps: seq<int>, call: Call, cap: int): Outcome {
    if !call.creates then CreateFailed
    else if |After(stamps, call.now - DAY)| < cap && call.debitSaves then Filed
    else FiledThrottled
  }

  function StampsAfter(stamps: seq<int>, call: Call, cap: int): seq<int> {
    if |After(stamps, call.now - DAY)| < cap && call.debitSaves then
      var debited := Debited(stamps, call.now);
      if !call.creates && call.refundSaves then RemoveFirst(debited, call.now) else debited
    else stamps
  }

  class Budget {
    var stamps: seq<int>          // the state file
    const cap: int                // max_dispatches_per_day

    constructor (cap: int)
      ensures stamps == [] && this.cap == cap
    {
      this.cap := cap;
      stamps := [];
    }

    function DispatchesInLastDay(now: int): int
      reads this
    {
      |After(stamps, now - DAY)|
    }

    predicate MayDispatch(now: int)
      reads this
    {
      DispatchesInLastDay(now) < cap
    }

    /** `record_dispatch`: prune, append, save. A failed save leaves the file as it was. */
    method RecordDispatch(now: int, saves: bool) returns (ok: bool)
      modifies this`stamps
      ensures ok == saves
      ensures stamps == if saves then Debited(old(stamps), now) else old(stamps)
    {
      var kept := After(stamps, now - PRUNE_AFTER);
      if saves {
        stamps := kept + [now];
      }
      ok := saves;
    }

    /** `refund_dispatch`: a failed save is swallowed. */
    method RefundDispatch(now: int, saves: bool)
      modifies this`stamps
      ensures stamps == if saves && now in old(stamps) then RemoveFirst(old(stamps), now) else old(stamps)
    {
      if now in stamps {
        var left := RemoveFirst(stamps, now);
        if saves {
          stamps := left;
        }
      }
    }

    /** The part of `file_bug` after the lookups found no open issue and no open pull request. */
    method File(call: Call) returns (outcome: Outcome)
      modifies this`stamps
      ensures outcome == OutcomeOf(old(stamps), call, cap)
      ensures stamps == StampsAfter(old(stamps), call, cap)
    {
      var throttled := !MayDispatch(call.now);
      if !throttled {
        var ok := RecordDispatch(call.now, call.debitSaves);
        throttled := !ok;
      }
      if !call.creates {
        if !throttled {
          assert stamps[|stamps| - 1] == call.now;
          RefundDispatch(call.now, call.refundSaves);
        }
        return CreateFailed;
      }
      return if throttled then FiledThrottled else Filed;
    }
  }

  // ---------------------------------------------------------------------
  // Runs
  // ---------------------------------------------------------------------

  /** When the calls of a run that returned "filed" were made. */
  function FiledTimes(stamps: seq<int>, calls: seq<Call>, cap: int): seq<int>
    decreases |calls|
  {
    if calls == [] then []
    else (if OutcomeOf(stamps, calls[0], cap).Filed? then [calls[0].now] else [])
         + FiledTimes(StampsAfter(stamps, calls[0], cap), calls[1..], cap)
  }

  ghost predicate InOrder(calls: seq<Call>) {
    forall i, j :: 0 <= i < j < |calls| ==> calls[i].now <= calls[j].now
  }

  /** Recent filings are all on record, and no window of a day ever held more than the cap. */
  ghost predicate WithinBudget(stamps: seq<int>, filed: seq<int>, now: int, cap: int) {
    && NoneAfter(filed, now) && NoneAfter(stamps, now)
    && RecordedSince(filed, stamps, now - PRUNE_AFTER)
    && forall to :: DayWithin(filed, to, cap)
  }

  lemma CallStaysWithinBudget(stamps: seq<int>, filed: seq<int>, before: int, call: Call, cap: int)
    requires WithinBudget(stamps, filed, before, cap) && before <= call.now
    ensures var after := StampsAfter(stamps, call, cap);
            var more := if OutcomeOf(stamps, call, cap).Filed? then [call.now] else [];
            WithinBudget(after, filed + more, call.now, cap)
  {
    hide After, InWindow, RemoveFirst, Debited, DayWithin;
    var now := call.now;
    RecentIsWindow(stamps, now);
    DebitAddsOne(stamps, now);
    RefundTakesOne(stamps, now);
    assert RecordedSince(filed, stamps, now - PRUNE_AFTER);
    if OutcomeOf(stamps, call, cap).Filed? {
      FilingStaysWithinTheCap(filed, stamps, now, cap);
      FilingIsRecorded(filed, stamps, Debited(stamps, now), now);
    } else {
      assert filed + [] == filed;
    }
  }

  lemma {:induction false} RunStaysWithinBudget(stamps: seq<int>, filed: seq<int>, before: int, calls: seq<Call>,
      cap: int)
    requires WithinBudget(stamps, filed, before, cap)
    requires InOrder(calls) && (calls != [] ==> before <= calls[0].now)
    ensures forall to :: DayWithin(filed + FiledTimes(stamps, calls, cap), to, cap)
    decreases |calls|
  {
    if calls == [] {
      assert filed + [] == filed;
    } else {
      var more := if OutcomeOf(stamps, calls[0], cap).Filed? then [calls[0].now] else [];
      var after := StampsAfter(stamps, calls[0], cap);
      CallStaysWithinBudget(stamps, filed, before, calls[0], cap);
      var rest := FiledTimes(after, calls[1..], cap);
      RunStaysWithinBudget(after, filed + more, calls[0].now, calls[1..], cap);
      assert FiledTimes(stamps, calls, cap) == more + rest;
      assert filed + (more + rest) == filed + more + rest;
    }
  }

  /** For any run of calls in time order, every 24-hour window holds at most
      `cap` filings, whatever saves, creations and refunds fail on the way. */
  lemma RollingBudget(calls: seq<Call>, cap: int, to: int)
    requires InOrder(calls)
    ensures InWindow(FiledTimes([], calls, cap), to - 86_400_000_000, to) <= if cap > 0 then cap else 0
  {
    var start := if calls == [] then 0 else calls[0].now;
    assert forall t :: DayWithin([], t, cap);
    RunStaysWithinBudget([], [], start, calls, cap);
    assert [] + FiledTimes([], calls, cap) == FiledTimes([], calls, cap);
    assert DayWithin(FiledTimes([], calls, cap), to, cap);
  }

  /** A call is filed exactly when the issue is created, the debit is saved, and
      the last 24 hours hold fewer stamps than the cap allows. */
  lemma FiledExactly(stamps: seq<int>, call: Call, cap: int)
    requires NoneAfter(stamps, call.now)
    ensures OutcomeOf(stamps, call, cap).Filed?
            <==> call.creates && call.debitSaves && InWindow(stamps, call.now - 86_400_000_000, call.now) < cap
    ensures OutcomeOf(stamps, call, cap).CreateFailed? <==> !call.creates
  {
    RecentIsWindow(stamps, call.now);
  }

  /** Of the windows that still matter, a filing adds one to those that hold it,
      and a call that is throttled adds nothing to any. */
  lemma FilingCostsOne(stamps: seq<int>, call: Call, cap: int, from: int, to: int)
    requires NoneAfter(stamps, call.now) && call.creates && from >= call.now - 172_800_000_000
    ensures InWindow(StampsAfter(stamps, call, cap), from, to)
            == InWindow(stamps, from, to)
               + (if OutcomeOf(stamps, call, cap).Filed? && from < call.now <= to then 1 else 0)
    ensures NoneAfter(StampsAfter(stamps, call, cap), call.now)
  {
    hide InWindow, After, RemoveFirst, Debited, NoneAfter;
    DebitAddsOne(stamps, call.now);
  }

  ghost predicate AllSucceed(calls: seq<Call>) {
    forall i :: 0 <= i < |calls| ==> calls[i].creates && calls[i].debitSaves
  }

  /** The stamps stored when the run has made these calls. */
  function StampsBy(stamps: seq<int>, calls: seq<Call>, cap: int): seq<int>
    decreases |calls|
  {
    if calls == [] then stamps else StampsBy(StampsAfter(stamps, calls[0], cap), calls[1..], cap)
  }

  /** While everything succeeds, what is on record of the recent past is what was filed. */
  ghost predicate OnRecord(stamps: seq<int>, filed: seq<int>, now: int) {
    && NoneAfter(stamps, now) && NoneAfter(filed, now)
    && SameRecent(stamps, filed, now - PRUNE_AFTER)
  }

  lemma CallStaysOnRecord(stamps: seq<int>, filed: seq<int>, before: int, call: Call, cap: int)
    requires OnRecord(stamps, filed, before) && before <= call.now && call.creates && call.debitSaves
    ensures var more := if OutcomeOf(stamps, call, cap).Filed? then [call.now] else [];
            OnRecord(StampsAfter(stamps, call, cap), filed + more, call.now)
    ensures OutcomeOf(stamps, call, cap).Filed? <==> InWindow(filed, call.now - DAY, call.now) < cap
  {
    hide After, InWindow, RemoveFirst, Debited, OutcomeOf, StampsAfter;
    FiledExactly(stamps, call, cap);
    var more := if OutcomeOf(stamps, call, cap).Filed? then [call.now] else [];
    FilingCostsOne(stamps, call, cap, call.now, call.now);
    forall from, to | from >= call.now - PRUNE_AFTER
      ensures InWindow(StampsAfter(stamps, call, cap), from, to) == InWindow(filed + more, from, to)
    {
      FilingCostsOne(stamps, call, cap, from, to);
      InWindowSnoc(filed, call.now, from, to);
      assert filed + [] == filed;
    }
  }

  lemma {:induction false} RunStaysOnRecord(stamps: seq<int>, filed: seq<int>, before: int, calls: seq<Call>, cap: int)
    requires OnRecord(stamps, filed, before) && AllSucceed(calls) && InOrder(calls)
    requires calls != [] ==> before <= calls[0].now
    ensures var now := if calls == [] then before else calls[|calls| - 1].now;
            OnRecord(StampsBy(stamps, calls, cap), filed + FiledTimes(stamps, calls, cap), now)
    decreases |calls|
  {
    if calls == [] {
      assert filed + [] == filed;
    } else {
      hide *;
      var more := if OutcomeOf(stamps, calls[0], cap).Filed? then [calls[0].now] else [];
      var after := StampsAfter(stamps, calls[0], cap);
      var rest := FiledTimes(after, calls[1..], cap);
      FirstCall(stamps, calls, cap);
      RestInOrder(calls);
      CallStaysOnRecord(stamps, filed, before, calls[0], cap);
      RunStaysOnRecord(after, filed + more, calls[0].now, calls[1..], cap);
      Regroup(filed, more, rest);
    }
  }

  lemma FirstCall(stamps: seq<int>, calls: seq<Call>, cap: int)
    requires calls != []
    ensures var more := if OutcomeOf(stamps, calls[0], cap).Filed? then [calls[0].now] else [];
            var after := StampsAfter(stamps, calls[0], cap);
            && FiledTimes(stamps, calls, cap) == more + FiledTimes(after, calls[1..], cap)
            && StampsBy(stamps, calls, cap) == StampsBy(after, calls[1..], cap)
  {
  }

  lemma RestInOrder(calls: seq<Call>)
    requires calls != [] && AllSucceed(calls) && InOrder(calls)
    ensures calls[0].creates && calls[0].debitSaves && AllSucceed(calls[1..]) && InOrder(calls[1..])
    ensures |calls| > 1 ==> calls[0].now <= calls[1..][0].now
  {
  }

  /** The budget is not only an upper bound: while saves and creations succeed, a
      call is filed if and only if the filings of the 24 hours before it are fewer
      than the cap. */
  lemma NextCallIsFiledExactly(calls: seq<Call>, next: Call, cap: int)
    requires AllSucceed(calls + [next]) && InOrder(calls + [next])
    ensures OutcomeOf(StampsBy([], calls, cap), next, cap).Filed?
            <==> InWindow(FiledTimes([], calls, cap), next.now - 86_400_000_000, next.now) < cap
  {
    var all := calls + [next];
    forall i | 0 <= i < |calls|
      ensures calls[i] == all[i]
    {
    }
    assert all[|calls|] == next;
    var start := if calls == [] then next.now else calls[0].now;
    RunStaysOnRecord([], [], start, calls, cap);
    assert [] + FiledTimes([], calls, cap) == FiledTimes([], calls, cap);
    var now := if calls == [] then start else calls[|calls| - 1].now;
    CallStaysOnRecord(StampsBy([], calls, cap), FiledTimes([], calls, cap), now, next, cap);
  }

  function Min(a: nat, b: nat): nat {
    if a < b then a else b
  }

  lemma {:induction false} AllInWindow(stamps: seq<int>, from: int, to: int)
    requires forall i :: 0 <= i < |stamps| ==> from < stamps[i] <= to
    ensures InWindow(stamps, from, to) == |stamps|
  {
    if stamps != [] {
      AllInWindow(stamps[..|stamps| - 1], from, to);
    }
  }

  lemma {:induction false} AllKept(stamps: seq<int>, cutoff: int)
    requires forall i :: 0 <= i < |stamps| ==> cutoff < stamps[i]
    ensures After(stamps, cutoff) == stamps
  {
    if stamps != [] {
      AllKept(stamps[..|stamps| - 1], cutoff);
    }
  }

  lemma {:induction false} DayFilesTheCap(stamps: seq<int>, calls: seq<Call>, cap: int, end: int)
    requires AllSucceed(calls) && InOrder(calls) && |stamps| <= AtMost(cap)
    requires forall i :: 0 <= i < |calls| ==> end - DAY < calls[i].now <= end
    requires forall i :: 0 <= i < |stamps| ==> end - DAY < stamps[i] && (calls != [] ==> stamps[i] <= calls[0].now)
    ensures |FiledTimes(stamps, calls, cap)| == Min(|calls|, AtMost(cap) - |stamps|)
    decreases |calls|
  {
    if calls != [] {
      var call := calls[0];
      AllKept(stamps, call.now - DAY);
      AllKept(stamps, call.now - PRUNE_AFTER);
      var after := StampsAfter(stamps, call, cap);
      assert after == if |stamps| < cap then stamps + [call.now] else stamps;
      DayFilesTheCap(after, calls[1..], cap, end);
    }
  }

  /** If everything succeeds, the calls of one day file exactly as many as the cap allows. */
  lemma ADayFilesExactlyTheCap(calls: seq<Call>, cap: int)
    requires AllSucceed(calls) && InOrder(calls)
    requires calls != [] ==> calls[|calls| - 1].now - calls[0].now < 86_400_000_000
    ensures |FiledTimes([], calls, cap)| == if |calls| <= cap then |calls| else if cap > 0 then cap else 0
  {
    var end := if calls == [] then 0 else calls[|calls| - 1].now;
    forall i | 0 <= i < |calls|
      ensures end - DAY < calls[i].now <= end
    {
      assert calls[0].now <= calls[i].now <= calls[|calls| - 1].now;
    }
    DayFilesTheCap([], calls, cap, end);
  }

  /** Every window that still matters holds as many stamps as before. */
  ghost predicate SameRecent(a: seq<int>, b: seq<int>, start: int) {
    forall from, to :: from >= start ==> InWindow(a, from, to) == InWindow(b, from, to)
  }

  /** A creation that fails costs nothing exactly when nothing was debited, because
      the budget was spent or the debit was not saved, or the refund is saved. */
  lemma FailedCreationIsFree(stamps: seq<int>, call: Call, cap: int)
    requires NoneAfter(stamps, call.now) && !call.creates
    ensures SameRecent(StampsAfter(stamps, call, cap), stamps, call.now - PRUNE_AFTER)
            <==> call.refundSaves || !call.debitSaves || |After(stamps, call.now - DAY)| >= cap
  {
    hide After, InWindow, RemoveFirst, Debited;
    var start := call.now - PRUNE_AFTER;
    if call.debitSaves && |After(stamps, call.now - DAY)| < cap {
      if call.refundSaves {
        RefundTakesOne(stamps, call.now);
        assert SameRecent(RemoveFirst(Debited(stamps, call.now), call.now), stamps, start);
      } else {
        DebitShows(stamps, call.now);
      }
    } else {
      assert SameRecent(stamps, stamps, start);
    }
  }

  lemma DebitShows(stamps: seq<int>, now: int)
    requires NoneAfter(stamps, now)
    ensures !SameRecent(Debited(stamps, now), stamps, now - PRUNE_AFTER)
  {
    DebitAddsOne(stamps, now);
    assert InWindow(Debited(stamps, now), now - DAY, now) == InWindow(stamps, now - DAY, now) + 1;
  }

  function Debited(stamps: seq<int>, now: int): seq<int> {
    After(stamps, now - PRUNE_AFTER) + [now]
  }

  lemma DebitAddsOne(stamps: seq<int>, now: int)
    requires NoneAfter(stamps, now)
    ensures NoneAfter(Debited(stamps, now), now) && now in Debited(stamps, now)
    ensures forall from, to :: from >= now - PRUNE_AFTER ==>
              InWindow(Debited(stamps, now), from, to) == InWindow(stamps, from,
                  to) + (if from < now <= to then 1 else 0)
  {
    PruneNoneAfter(stamps, now - PRUNE_AFTER, now);
    assert Debited(stamps, now)[|After(stamps, now - PRUNE_AFTER)|] == now;
    forall from, to | from >= now - PRUNE_AFTER
      ensures InWindow(Debited(stamps, now), from, to) == InWindow(stamps, from,
          to) + (if from < now <= to then 1 else 0)
    {
      PruneKeepsRecent(stamps, now - PRUNE_AFTER, from, to);
      InWindowSnoc(After(stamps, now - PRUNE_AFTER), now, from, to);
    }
  }

  /** A refund undoes the debit on every window still of interest. */
  lemma RefundTakesOne(stamps: seq<int>, now: int)
    requires NoneAfter(stamps, now)
    ensures NoneAfter(RemoveFirst(Debited(stamps, now), now), now)
    ensures forall from, to :: from >= now - PRUNE_AFTER ==>
              InWindow(RemoveFirst(Debited(stamps, now), now), from, to) == InWindow(stamps, from, to)
  {
    DebitAddsOne(stamps, now);
    RemoveFirstNoneAfter(Debited(stamps, now), now, now);
    forall from, to | from >= now - PRUNE_AFTER
      ensures InWindow(RemoveFirst(Debited(stamps, now), now), from, to) == InWindow(stamps, from, to)
    {
      RemoveFirstInWindow(Debited(stamps, now), now, from, to);
    }
  }

  lemma FilingIsRecorded(filed: seq<int>, before: seq<int>, after: seq<int>, now: int)
    requires RecordedSince(filed, before, now - PRUNE_AFTER)
    requires forall from, to :: from >= now - PRUNE_AFTER ==>
               InWindow(after, from, to) == InWindow(before, from, to) + (if from < now <= to then 1 else 0)
    ensures RecordedSince(filed + [now], after, now - PRUNE_AFTER)
  {
    forall from, to | from >= now - PRUNE_AFTER
      ensures InWindow(filed + [now], from, to) <= InWindow(after, from, to)
    {
      InWindowSnoc(filed, now, from, to);
    }
  }

  /** The rolling bound survives one more filing: a window that holds the new
      filing holds no filing older than a day before it. */
  lemma FilingStaysWithinTheCap(filed: seq<int>, stamps: seq<int>, now: int, cap: int)
    requires NoneAfter(filed, now) && RecordedSince(filed, stamps, now - PRUNE_AFTER)
    requires forall to :: DayWithin(filed, to, cap)
    requires InWindow(stamps, now - DAY, now) < cap
    ensures forall to :: DayWithin(filed + [now], to, cap)
  {
    forall to
      ensures DayWithin(filed + [now], to, cap)
    {
      assert DayWithin(filed, to, cap);
      InWindowSnoc(filed, now, to - DAY, to);
      if to - DAY < now <= to {
        LaterWindowHoldsFewer(filed, now, to);
        assert InWindow(filed, now - DAY, now) <= InWindow(stamps, now - DAY, now);
      }
    }
  }

  lemma {:induction false} LaterWindowHoldsFewer(filed: seq<int>, now: int, to: int)
    requires NoneAfter(filed, now) && now <= to
    ensures InWindow(filed, to - DAY, to) <= InWindow(filed, now - DAY, now)
  {
    if filed != [] {
      LaterWindowHoldsFewer(filed[..|filed| - 1], now, to);
    }
  }
}
