/**
 The way into the ledger (src/gpuqueue/claim.py, `gpu_claim`): validation, the
 permanent refusal, and the wait loop. Each poll sees whatever ledger it finds;
 sleeping and the one-time warning are left out.
 */
module GpuClaim {
  import opened Base
  import opened Ledger

  /** What one turn of the wait loop runs into. `requery` is the card's answer
      if the loop asks again for its capacity. */
  datatype Poll =
    | MutexHeld(requery: Option<int>)
    | Seen(live: seq<Record>, requery: Option<int>)

  datatype Outcome =
    | BadDeclaration
    | CannotEverFit
    | MutexTimeout
    | Closed
    | Busy
    | Taken(poll: nat)
    | StillWaiting

  predicate Admits(p: Poll, want: Option<int>, usable: Option<int>, maxHolders: Option<int>) {
    p.Seen? && Fits(p.live, want, usable, maxHolders)
  }

  /** The capacity a claimant works with after its first `n` polls: asked again
      only while unknown, and only if the claimant was the one who asked. */
  function CapacityAfter(usable: Option<int>, asked: bool, polls: seq<Poll>, n: nat): Option<int>
    requires n <= |polls|
  {
    if n == 0 then usable
    else
      var before := CapacityAfter(usable, asked, polls, n - 1);
      if asked && before.None? then polls[n - 1].requery else before
  }

  /** None of the first `n` polls found a ledger that admits the claim. */
  ghost predicate NoneAdmits(want: Declared, usable: Option<int>, asked: bool, maxHolders: Option<int>,
      polls: seq<Poll>, n: nat)
    requires n <= |polls|
  {
    forall k :: 0 <= k < n ==> !Admits(polls[k], AsWant(want), CapacityAfter(usable, asked, polls, k), maxHolders)
  }

  method Claim(want: Declared, wait: bool, usable: Option<int>, asked: bool, maxHolders: Option<int>, polls: seq<Poll>)
    returns (outcome: Outcome)
    requires polls != []
    ensures outcome.BadDeclaration? <==> !ValidDeclaration(want)
    // Refused for good exactly when a capacity it had worked with is too small.
    ensures outcome.CannotEverFit? ==>
              exists n :: 0 <= n <= |polls| && ExceedsCapacity(want, CapacityAfter(usable, asked, polls, n))
                          && NoneAdmits(want, usable, asked, maxHolders, polls, n)
    ensures ValidDeclaration(want) && ExceedsCapacity(want, usable) ==> outcome.CannotEverFit?
    // Taken at the first poll whose ledger admits it.
    ensures outcome.Taken? ==>
              && outcome.poll < |polls|
              && Admits(polls[outcome.poll], AsWant(want), CapacityAfter(usable, asked, polls, outcome.poll),
                  maxHolders)
              && NoneAdmits(want, usable, asked, maxHolders, polls, outcome.poll)
    ensures outcome.StillWaiting? ==> NoneAdmits(want, usable, asked, maxHolders, polls, |polls|)
    // Without `wait` the first refusal is final, and says what kind it is.
    ensures !wait ==> !outcome.StillWaiting?
    ensures outcome.MutexTimeout? || outcome.Closed? || outcome.Busy? ==>
              && !wait && ValidDeclaration(want) && !ExceedsCapacity(want, usable)
              && !Admits(polls[0], AsWant(want), usable, maxHolders)
              && (outcome.MutexTimeout? <==> polls[0].MutexHeld?)
              && (outcome.Closed? <==> polls[0].Seen? && CardIsClosed(polls[0].live, usable, maxHolders))
    // Nobody is left waiting for room an empty card would not give.
    ensures outcome.StillWaiting? && !(maxHolders.Some? && maxHolders.value <= 0) ==>
              Fits([], AsWant(want), CapacityAfter(usable, asked, polls, |polls|), maxHolders)
  {
    hide Fits, CardIsClosed, ExceedsCapacity, NoneAdmits;
    NoneAdmitsYet(want, usable, asked, maxHolders, polls);
    if !ValidDeclaration(want) {
      return BadDeclaration;
    }
    var mb := usable;
    assert mb == CapacityAfter(usable, asked, polls, 0);
    if ExceedsCapacity(want, mb) {
      return CannotEverFit;
    }
    var n := 0;
    while n < |polls|
      invariant 0 <= n <= |polls|
      invariant mb == CapacityAfter(usable, asked, polls, n)
      invariant !ExceedsCapacity(want, mb)
      invariant n > 0 ==> wait
      invariant NoneAdmits(want, usable, asked, maxHolders, polls, n)
    {
      match polls[n] {
        case MutexHeld(_) =>
          if !wait {
            return MutexTimeout;
          }
        case Seen(live, _) =>
          if Fits(live, AsWant(want), mb, maxHolders) {
            return Taken(n);
          }
          if !wait {
            if CardIsClosed(live, mb, maxHolders) {
              return Closed;
            }
            return Busy;
          }
      }
      OneMoreRefusal(want, usable, asked, maxHolders, polls, n);
      if asked && mb.None? {
        mb := polls[n].requery;
        assert mb == CapacityAfter(usable, asked, polls, n + 1);
        if ExceedsCapacity(want, mb) {
          return CannotEverFit;
        }
      }
      n := n + 1;
    }
    EmptyCardAdmits(want, mb, maxHolders);
    return StillWaiting;
  }

  /** A claimant works with the capacity it came with, or else with the first
      answer the card gives, for good; one that was handed "unknown" never asks. */
  lemma {:induction false} FirstAnswerStands(usable: Option<int>, asked: bool, polls: seq<Poll>, n: nat)
    requires n <= |polls|
    ensures usable.Some? || !asked ==> CapacityAfter(usable, asked, polls, n) == usable
    ensures usable.None? && asked && (forall k :: 0 <= k < n ==> polls[k].requery.None?) ==>
              CapacityAfter(usable, asked, polls, n).None?
    ensures usable.None? && asked ==>
              forall k ::
                0 <= k < n && polls[k].requery.Some? && (forall j :: 0 <= j < k ==> polls[j].requery.None?) ==>
                CapacityAfter(usable, asked, polls, n) == polls[k].requery
  {
    if n > 0 {
      FirstAnswerStands(usable, asked, polls, n - 1);
    }
  }

  lemma NoneAdmitsYet(want: Declared, usable: Option<int>, asked: bool, maxHolders: Option<int>, polls: seq<Poll>)
    ensures NoneAdmits(want, usable, asked, maxHolders, polls, 0)
  {
  }

  lemma OneMoreRefusal(want: Declared, usable: Option<int>, asked: bool, maxHolders: Option<int>, polls: seq<Poll>,
      n: nat)
    requires n < |polls| && NoneAdmits(want, usable, asked, maxHolders, polls, n)
    requires !Admits(polls[n], AsWant(want), CapacityAfter(usable, asked, polls, n), maxHolders)
    ensures NoneAdmits(want, usable, asked, maxHolders, polls, n + 1)
  {
  }

  lemma EmptyCardAdmits(want: Declared, usable: Option<int>, maxHolders: Option<int>)
    requires ValidDeclaration(want) && !ExceedsCapacity(want, usable)
    ensures Fits([], AsWant(want), usable, maxHolders) || (maxHolders.Some? && maxHolders.value <= 0)
  {
  }
}
