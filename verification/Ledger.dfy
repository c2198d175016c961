/**
 The admission rules of the claim ledger (src/gpuqueue/ledger.py).

 A record is one holder of the card. `vramMb == None` is an exclusive holder.
 Lists of records stand for what `live_records(records_for(key, directory))`
 returns: records with pairwise different paths, whose owners are alive.
 */
module Ledger {
  import opened Base

  datatype Record = Record(
    path: string,
    pid: int,                     // whose liveness governs the record
    usagePid: Option<int>,        // whose process tree is charged to it
    vramMb: Option<int>,          // None = the whole card
    owner: string,
    scopePid: Option<int>,
    scopeCgroup: Option<string>)

  /** A declaration as it may stand in a job spec or on a command line. */
  datatype Declared = Whole | Mb(n: int) | Malformed

  predicate ValidDeclaration(d: Declared) {
    d.Whole? || (d.Mb? && d.n > 0)
  }

  function AsWant(d: Declared): Option<int> {
    if d.Mb? then Some(d.n) else None
  }

  function SumMb(records: seq<Record>): int {
    if records == [] then 0 else records[0].vramMb.GetOr(0) + SumMb(records[1..])
  }

  predicate AnyExclusive(records: seq<Record>) {
    exists i :: 0 <= i < |records| && records[i].vramMb.None?
  }

  predicate AtHolderCap(records: seq<Record>, maxHolders: Option<int>) {
    maxHolders.Some? && |records| >= maxHolders.value
  }

  predicate Fits(records: seq<Record>, want: Option<int>, usable: Option<int>, maxHolders: Option<int>) {
    if AtHolderCap(records, maxHolders) then false
    else if AnyExclusive(records) then false
    else if want.None? || usable.None? then records == []
    else if want.value > usable.value then false
    else SumMb(records) + want.value <= usable.value
  }

  predicate ExceedsCapacity(want: Declared, usable: Option<int>) {
    want.Mb? && usable.Some? && want.n > usable.value
  }

  function FreeMb(records: seq<Record>, usable: Option<int>): int {
    if usable.None? || AnyExclusive(records) then 0
    else if usable.value - SumMb(records) > 0 then usable.value - SumMb(records)
    else 0
  }

  predicate CardIsClosed(records: seq<Record>, usable: Option<int>, maxHolders: Option<int>) {
    if AtHolderCap(records, maxHolders) then true
    else if records == [] then false
    else if usable.None? || AnyExclusive(records) then true
    else FreeMb(records, usable) <= 0
  }

  /** Every declaration in the list is positive or exclusive, as both ways into the ledger enforce. */
  ghost predicate PositiveDeclarations(records: seq<Record>) {
    forall i :: 0 <= i < |records| ==> records[i].vramMb.Some? ==> records[i].vramMb.value > 0
  }

  ghost predicate ValidWant(want: Option<int>) {
    want.Some? ==> want.value > 0
  }

  lemma {:induction false} SumNonNegative(records: seq<Record>)
    requires PositiveDeclarations(records)
    ensures SumMb(records) >= 0
    ensures records != [] && !AnyExclusive(records) ==> SumMb(records) > 0
  {
    if records != [] {
      SumNonNegative(records[1..]);
    }
  }

  lemma {:induction false} SumConcat(a: seq<Record>, b: seq<Record>)
    ensures SumMb(a + b) == SumMb(a) + SumMb(b)
  {
    if a == [] {
      assert a + b == b;
    } else {
      assert (a + b)[1..] == a[1..] + b;
      SumConcat(a[1..], b);
    }
  }

  /** What is declared on the card is the sum of the numbers declared. */
  lemma DeclaredIsASum(records: seq<Record>, r: Record)
    ensures SumMb([]) == 0
    ensures SumMb(records + [r]) == SumMb(records) + match r.vramMb { case Some(n) => n case None => 0 }
  {
    SumConcat(records, [r]);
  }

  // ---------------------------------------------------------------------
  // Refusal classes
  // ---------------------------------------------------------------------

  /** A declaration is refused by every ledger exactly when it exceeds the
      card, or when the holder cap admits nobody at all. */
  lemma ExceedsCapacityExact(want: Declared, usable: Option<int>, maxHolders: Option<int>)
    requires ValidDeclaration(want)
    ensures (ExceedsCapacity(want, usable) || (maxHolders.Some? && maxHolders.value <= 0))
            <==> forall records :: !Fits(records, AsWant(want), usable, maxHolders)
  {
    if !ExceedsCapacity(want, usable) && !(maxHolders.Some? && maxHolders.value <= 0) {
      assert Fits([], AsWant(want), usable, maxHolders);
    }
  }

  /** A card is closed exactly when it refuses every declaration there is. */
  lemma CardIsClosedExact(records: seq<Record>, usable: Option<int>, maxHolders: Option<int>)
    requires PositiveDeclarations(records)
    ensures CardIsClosed(records, usable, maxHolders)
            <==> forall want {:trigger Fits(records, want, usable, maxHolders)} ::
                   ValidWant(want) ==> !Fits(records, want, usable, maxHolders)
  {
    SumNonNegative(records);
    if !CardIsClosed(records, usable, maxHolders) {
      if records == [] {
        assert Fits(records, None, usable, maxHolders);
      } else {
        assert Fits(records, Some(1), usable, maxHolders);
      }
    }
  }

  // ---------------------------------------------------------------------
  // Admission is antitone in the set of records
  // ---------------------------------------------------------------------

  ghost predicate DistinctPaths(records: seq<Record>) {
    forall i, j :: 0 <= i < j < |records| ==> records[i].path != records[j].path
  }

  /** `r` is charged in `records`: same file, same declaration. `usage_pid` may differ. */
  ghost predicate ChargedIn(r: Record, records: seq<Record>) {
    exists j :: 0 <= j < |records| && records[j].path == r.path && records[j].vramMb == r.vramMb
  }

  ghost predicate AllChargedIn(small: seq<Record>, big: seq<Record>) {
    forall i :: 0 <= i < |small| ==> ChargedIn(small[i], big)
  }

  function Without(records: seq<Record>, j: nat): seq<Record>
    requires j < |records|
  {
    records[..j] + records[j + 1..]
  }

  lemma SumWithout(records: seq<Record>, j: nat)
    requires j < |records|
    ensures SumMb(records) == SumMb(Without(records, j)) + records[j].vramMb.GetOr(0)
  {
    assert records == records[..j] + ([records[j]] + records[j + 1..]);
    SumConcat(records[..j], [records[j]] + records[j + 1..]);
    SumConcat([records[j]], records[j + 1..]);
    SumConcat(records[..j], records[j + 1..]);
  }

  lemma ChargedInWithout(r: Record, big: seq<Record>, j: nat)
    requires j < |big| && ChargedIn(r, big) && big[j].path != r.path
    ensures ChargedIn(r, Without(big, j))
  {
    var k :| 0 <= k < |big| && big[k].path == r.path && big[k].vramMb == r.vramMb;
    assert Without(big, j)[if k < j then k else k - 1] == big[k];
  }

  lemma PositiveWithout(big: seq<Record>, j: nat)
    requires j < |big| && PositiveDeclarations(big)
    ensures PositiveDeclarations(Without(big, j))
  {
    forall i | 0 <= i < |Without(big, j)|
      ensures Without(big, j)[i] == big[if i < j then i else i + 1]
    {
    }
  }

  /** A list of different records, each charged in a second list, is neither
      longer nor heavier than that second list. */
  lemma {:induction false} SubLedgerIsLighter(small: seq<Record>, big: seq<Record>)
    requires DistinctPaths(small) && AllChargedIn(small, big) && PositiveDeclarations(big)
    ensures |small| <= |big|
    ensures SumMb(small) <= SumMb(big)
  {
    if small == [] {
      SumNonNegative(big);
    } else {
      assert ChargedIn(small[0], big);
      var j :| 0 <= j < |big| && big[j].path == small[0].path && big[j].vramMb == small[0].vramMb;
      forall i | 0 <= i < |small[1..]|
        ensures ChargedIn(small[1..][i], Without(big, j))
      {
        assert ChargedIn(small[i + 1], big);
        ChargedInWithout(small[i + 1], big, j);
      }
      PositiveWithout(big, j);
      SubLedgerIsLighter(small[1..], Without(big, j));
      SumWithout(big, j);
    }
  }

  /** Whatever a ledger admits, every smaller ledger admits. This is what lets
      holders leave without the mutex. */
  lemma FitsAntitone(small: seq<Record>, big: seq<Record>, want: Option<int>, usable: Option<int>,
      maxHolders: Option<int>)
    requires DistinctPaths(small) && AllChargedIn(small, big) && PositiveDeclarations(big)
    requires Fits(big, want, usable, maxHolders)
    ensures Fits(small, want, usable, maxHolders)
  {
    SubLedgerIsLighter(small, big);
    forall i | 0 <= i < |small|
      ensures small[i].vramMb.Some?
    {
      assert ChargedIn(small[i], big);
    }
  }

  /** A closed card stays closed as holders arrive. */
  lemma ClosedIsMonotone(small: seq<Record>, big: seq<Record>, usable: Option<int>, maxHolders: Option<int>)
    requires DistinctPaths(small) && AllChargedIn(small, big)
    requires PositiveDeclarations(small) && PositiveDeclarations(big)
    requires CardIsClosed(small, usable, maxHolders)
    ensures CardIsClosed(big, usable, maxHolders)
  {
    CardIsClosedExact(small, usable, maxHolders);
    CardIsClosedExact(big, usable, maxHolders);
    forall want | ValidWant(want)
      ensures !Fits(big, want, usable, maxHolders)
    {
      if Fits(big, want, usable, maxHolders) {
        FitsAntitone(small, big, want, usable, maxHolders);
      }
    }
  }

  /** `a` asks for no more than `b`; the whole card is the largest ask. */
  ghost predicate AsksNoMore(a: Option<int>, b: Option<int>) {
    b.None? || (a.Some? && a.value <= b.value)
  }

  /** A ledger that admits an ask admits every smaller ask the card can hold at all. */
  lemma SmallerAskFits(records: seq<Record>, a: Option<int>, b: Option<int>, usable: Option<int>,
      maxHolders: Option<int>)
    requires AsksNoMore(a, b)
    requires Fits(records, b, usable, maxHolders)
    requires a.Some? && usable.Some? ==> a.value <= usable.value
    ensures Fits(records, a, usable, maxHolders)
  {
    assert records == [] ==> SumMb(records) == 0;
  }

  // ---------------------------------------------------------------------
  // What the ledger promises about the holders of one card
  // ---------------------------------------------------------------------

  /** One holder, or all holders declared and together within the card; and never over the cap. */
  ghost predicate CapacityOk(records: seq<Record>, capacity: Option<int>, maxHolders: Option<int>) {
    && (|records| <= 1 || (capacity.Some? && !AnyExclusive(records) && SumMb(records) <= capacity.value))
    && (maxHolders.Some? && records != [] ==> |records| <= maxHolders.value)
  }

  lemma CapacityAntitone(small: seq<Record>, big: seq<Record>, capacity: Option<int>, maxHolders: Option<int>)
    requires DistinctPaths(small) && AllChargedIn(small, big) && PositiveDeclarations(big)
    requires CapacityOk(big, capacity, maxHolders)
    ensures CapacityOk(small, capacity, maxHolders)
  {
    SubLedgerIsLighter(small, big);
    forall i | 0 <= i < |small|
      ensures |big| > 1 ==> small[i].vramMb.Some?
    {
      assert ChargedIn(small[i], big);
    }
  }

  /** Admitting what fits keeps the promise, whether the claimant knew the
      card's capacity or had to treat it as unknown. */
  lemma AdmissionKeepsCapacity(live: seq<Record>, r: Record, usable: Option<int>, capacity: Option<int>,
      maxHolders: Option<int>)
    requires Fits(live, r.vramMb, usable, maxHolders)
    requires usable.Some? ==> usable == capacity
    ensures CapacityOk(live + [r], capacity, maxHolders)
  {
    SumConcat(live, [r]);
    if live != [] {
      forall i | 0 <= i < |live + [r]|
        ensures (live + [r])[i].vramMb.Some?
      {
      }
    }
  }
}
