/**
 * What the three ledger transitions do to the books, across calls: the
 * invariants they keep (well-formed records, unique ids, cent-exact frozen
 * profits, balance conservation), the round trips (open then delete, open
 * then settle) and the double credit of settling a bet twice.
 */
module Bookkeeping {
  import opened Options
  import opened Cents
  import opened Calculator
  import opened Text
  import opened Ledger

  /** A record is completed exactly when it carries a result and a winning side. */
  predicate Consistent(b: Bet) {
    && (b.status == Completed <==> b.actualResult.Some?)
    && (b.actualResult.Some? <==> b.backWon.Some?)
  }

  predicate WellFormed(s: State) {
    forall k :: 0 <= k < |s.bets| ==> Consistent(s.bets[k])
  }

  /** Both frozen profits are whole numbers of cents, as the calculator hands them out. */
  predicate CentsFrozen(s: State) {
    forall k :: 0 <= k < |s.bets| ==>
      IsCents(s.bets[k].expectedBackProfit) && IsCents(s.bets[k].expectedLayProfit)
  }

  /** The stake still held back by pending qualifying bets. */
  function PendingStake(bets: seq<Bet>): real {
    SumOver(bets, Refund)
  }

  /**
   * Balance conservation: the balance is a starting amount, plus everything
   * realised by the bets in the ledger, minus the stakes still held back.
   */
  predicate Books(s: State, base: real) {
    s.balance == base + TotalProfit(s.bets) - PendingStake(s.bets)
  }

  // ------------------------------------------------------------ sums

  lemma {:induction false} SumOverAppend(a: seq<Bet>, b: seq<Bet>, f: Bet -> real)
    ensures SumOver(a + b, f) == SumOver(a, f) + SumOver(b, f)
    decreases |b|
  {
    if |b| == 0 {
      assert a + b == a;
    } else {
      var b' := b[..|b| - 1];
      assert (a + b)[..|a + b| - 1] == a + b';
      SumOverAppend(a, b', f);
    }
  }

  /** The realised total of two lists laid end to end is the sum of their totals. */
  lemma TotalProfitSplits(a: seq<Bet>, b: seq<Bet>)
    ensures TotalProfit(a + b) == TotalProfit(a) + TotalProfit(b)
  {
    SumOverAppend(a, b, Realised);
  }

  /** A ledger in which nothing has been settled has realised nothing. */
  lemma {:induction false} UnsettledRealiseNothing(bets: seq<Bet>)
    requires forall k :: 0 <= k < |bets| ==> bets[k].actualResult.None?
    ensures TotalProfit(bets) == 0.0
    decreases |bets|
  {
    if |bets| > 0 {
      UnsettledRealiseNothing(bets[..|bets| - 1]);
    }
  }

  /** Changing one element changes the sum by the difference of its two values. */
  lemma {:induction false} SumOverReplace(a: seq<Bet>, b: seq<Bet>, f: Bet -> real, k: nat)
    requires |a| == |b| && k < |a|
    requires forall j :: 0 <= j < |a| && j != k ==> a[j] == b[j]
    ensures SumOver(b, f) == SumOver(a, f) - f(a[k]) + f(b[k])
  {
    assert a == a[..k] + [a[k]] + a[k + 1..];
    assert b == b[..k] + [b[k]] + b[k + 1..];
    assert a[..k] == b[..k];
    assert a[k + 1..] == b[k + 1..];
    SumOverAppend(a[..k] + [a[k]], a[k + 1..], f);
    SumOverAppend(a[..k], [a[k]], f);
    SumOverAppend(b[..k] + [b[k]], b[k + 1..], f);
    SumOverAppend(b[..k], [b[k]], f);
    assert SumOver([a[k]], f) == f(a[k]) by { assert [a[k]][..0] == []; }
    assert SumOver([b[k]], f) == f(b[k]) by { assert [b[k]][..0] == []; }
  }

  /** Removing one element takes its value out of the sum. */
  lemma {:induction false} SumOverRemove(a: seq<Bet>, f: Bet -> real, k: nat)
    requires k < |a|
    ensures SumOver(a[..k] + a[k + 1..], f) == SumOver(a, f) - f(a[k])
  {
    var front, x, back := a[..k], a[k], a[k + 1..];
    var mid := front + [x];
    assert a == mid + back;
    SumOverAppend(mid, back, f);
    assert SumOver(a, f) == SumOver(mid, f) + SumOver(back, f);
    assert mid[..|mid| - 1] == front;
    assert SumOver(mid, f) == SumOver(front, f) + f(x);
    SumOverAppend(front, back, f);
  }

  lemma AppendFreshKeepsUnique(bets: seq<Bet>, b: Bet)
    requires UniqueIds(bets) && Fresh(bets, b.id)
    ensures UniqueIds(bets + [b])
  {
  }

  // ------------------------------------------------------------ addBet

  /**
   * Opening a bet keeps the records well-formed and the ids unique (for a
   * fresh id), leaves the realised total alone and keeps the books balanced;
   * a quote straight from the calculator keeps the frozen profits cent-exact.
   */
  lemma AddBetKeepsInvariants(s: State, f: Form, q: Quote, id: int, reminderId: int, now: int, base: real)
    requires WellFormed(s) && UniqueIds(s.bets) && Fresh(s.bets, id) && Books(s, base)
    ensures var r := AddBet(s, f, q, id, reminderId, now);
      && WellFormed(r) && UniqueIds(r.bets) && Books(r, base)
      && TotalProfit(r.bets) == TotalProfit(s.bets)
    ensures Calculate(f.inputs) == Some(q) && CentsFrozen(s) ==>
      CentsFrozen(AddBet(s, f, q, id, reminderId, now))
  {
    if !IsBlank(f.eventName) {
      var r := AddBet(s, f, q, id, reminderId, now);
      var b := NewBet(f, q, id);
      assert r.bets == s.bets + [b];
      AppendFreshKeepsUnique(s.bets, b);
      SumOverAppend(s.bets, [b], Realised);
      SumOverAppend(s.bets, [b], Refund);
      assert [b][..0] == [];
    }
  }

  /** Opening a bet adds exactly it to the pending view. */
  lemma AddBetExtendsPending(s: State, f: Form, q: Quote, id: int, reminderId: int, now: int)
    requires !IsBlank(f.eventName)
    ensures PendingBets(AddBet(s, f, q, id, reminderId, now).bets)
         == PendingBets(s.bets) + [NewBet(f, q, id)]
  {
    var b := NewBet(f, q, id);
    assert AddBet(s, f, q, id, reminderId, now).bets == s.bets + [b];
    PendingAppend(s.bets, [b]);
    assert [b][1..] == [];
  }

  lemma {:induction false} PendingAppend(a: seq<Bet>, b: seq<Bet>)
    ensures PendingBets(a + b) == PendingBets(a) + PendingBets(b)
    decreases |a|
  {
    if |a| == 0 {
      assert a + b == b;
    } else {
      assert (a + b)[1..] == a[1..] + b;
      PendingAppend(a[1..], b);
    }
  }

  // ------------------------------------------------------------ settle

  /** Settling with frozen cent-exact profits stores the chosen profit unchanged. */
  lemma SettleStoresFrozenProfit(s: State, id: int, backWon: bool, k: nat)
    requires CentsFrozen(s) && k < |s.bets| && s.bets[k].id == id
    ensures UpdateBetResult(s, id, backWon).bets[k].actualResult == Some(Outcome(s.bets[k], backWon))
  {
    RoundCentsIdempotent(Outcome(s.bets[k], backWon));
  }

  /**
   * Settling a pending bet (ids unique) keeps every invariant: the credit
   * paid in is exactly the stake released plus the result realised.
   */
  lemma SettlePendingKeepsInvariants(s: State, id: int, backWon: bool, k: nat, base: real)
    requires WellFormed(s) && UniqueIds(s.bets) && CentsFrozen(s) && Books(s, base)
    requires k < |s.bets| && s.bets[k].id == id && s.bets[k].status == Pending
    ensures var r := UpdateBetResult(s, id, backWon);
      && WellFormed(r) && UniqueIds(r.bets) && CentsFrozen(r) && Books(r, base)
      && TotalProfit(r.bets) == TotalProfit(s.bets) + Outcome(s.bets[k], backWon)
  {
    var r := UpdateBetResult(s, id, backWon);
    var b := s.bets[k];
    UniqueOnlyAt(s.bets, id, k);
    SettleStoresFrozenProfit(s, id, backWon, k);
    assert forall j :: 0 <= j < |s.bets| && j != k ==> r.bets[j] == s.bets[j];
    assert r.bets[k].id == b.id;
    SumOverReplace(s.bets, r.bets, Realised, k);
    SumOverReplace(s.bets, r.bets, Refund, k);
    assert Realised(b) == 0.0;
    assert Refund(r.bets[k]) == 0.0;
  }

  /** After settling, the pending view has lost exactly the bets with that id. */
  lemma SettleShrinksPending(s: State, id: int, backWon: bool)
    ensures var r := UpdateBetResult(s, id, backWon);
      forall b :: b in PendingBets(r.bets) <==> b in PendingBets(s.bets) && b.id != id
  {
    var r := UpdateBetResult(s, id, backWon);
    forall b | b in PendingBets(r.bets)
      ensures b in s.bets && b.id != id
    {
      var j :| 0 <= j < |r.bets| && r.bets[j] == b;
      assert s.bets[j].id != id;
    }
    forall b | b in PendingBets(s.bets) && b.id != id
      ensures b in r.bets
    {
      var j :| 0 <= j < |s.bets| && s.bets[j] == b;
      assert r.bets[j] == b;
    }
  }

  /**
   * There is no status check: settling a bet twice credits the balance twice,
   * once for each call, with whichever side each call says won.
   */
  lemma SettleTwiceCreditsTwice(s: State, id: int, k: nat, first: bool, second: bool)
    requires OnlyAt(s.bets, id, k)
    ensures UpdateBetResult(UpdateBetResult(s, id, first), id, second).balance
         == s.balance + Credit(s.bets[k], first) + Credit(s.bets[k], second)
  {
    var r := UpdateBetResult(s, id, first);
    assert forall j :: 0 <= j < |s.bets| ==> r.bets[j].id == s.bets[j].id;
    assert OnlyAt(r.bets, id, k);
    assert Credit(r.bets[k], second) == Credit(s.bets[k], second);
  }

  // ------------------------------------------------------------ delete

  /**
   * Deleting a bet (ids unique) keeps records well-formed, ids unique and
   * profits cent-exact. A pending bet's deletion keeps the books against the
   * same starting amount; a completed bet's deletion leaves the balance alone,
   * so its realised result moves into the starting amount.
   */
  lemma {:induction false} DeleteKeepsInvariants(s: State, id: int, k: nat, base: real)
    requires WellFormed(s) && UniqueIds(s.bets) && Books(s, base)
    requires k < |s.bets| && s.bets[k].id == id
    ensures var r := DeleteBet(s, id);
      && WellFormed(r) && UniqueIds(r.bets) && (CentsFrozen(s) ==> CentsFrozen(r))
      && Books(r, base + Realised(s.bets[k]))
      && (s.bets[k].status == Completed ==> r.balance == s.balance)
  {
    var r := DeleteBet(s, id);
    var b := s.bets[k];
    var rest := s.bets[..k] + s.bets[k + 1..];
    var found := FirstIndex(s.bets, id);
    assert found == Some(k) by {
      assert s.bets[found.value].id == id;
    }
    UniqueOnlyAt(s.bets, id, k);
    RemoveIdCutsOut(s.bets, id, k);
    assert r.bets == rest;
    RemoveAtKeeps(s.bets, k);
    assert WellFormed(r);
    assert CentsFrozen(s) ==> CentsFrozen(r);
    assert r.balance == s.balance + Refund(b);
    SumOverRemove(s.bets, Realised, k);
    SumOverRemove(s.bets, Refund, k);
  }

  /** Cutting one element out of a list keeps ids unique and shifts the tail down. */
  lemma RemoveAtKeeps(bets: seq<Bet>, k: nat)
    requires k < |bets| && UniqueIds(bets)
    ensures var rest := bets[..k] + bets[k + 1..];
      && |rest| == |bets| - 1
      && (forall j :: 0 <= j < k ==> rest[j] == bets[j])
      && (forall j :: k <= j < |rest| ==> rest[j] == bets[j + 1])
      && UniqueIds(rest)
  {
    var rest := bets[..k] + bets[k + 1..];
    assert forall j :: k <= j < |rest| ==> rest[j] == bets[j + 1];
    forall i, j | 0 <= i < j < |rest|
      ensures rest[i].id != rest[j].id
    {
      var i' := if i < k then i else i + 1;
      var j' := if j < k then j else j + 1;
      assert rest[i] == bets[i'] && rest[j] == bets[j'] && i' < j';
    }
  }

  // ------------------------------------------------------------ round trips

  /**
   * Opening a bet and deleting it while it is pending restores the balance
   * and the bet list, and removes the reminder the opening scheduled.
   */
  lemma OpenThenDeleteRestores(s: State, f: Form, q: Quote, id: int, reminderId: int, now: int)
    requires !IsBlank(f.eventName) && Fresh(s.bets, id)
    ensures var r := DeleteBet(AddBet(s, f, q, id, reminderId, now), id);
      && r.balance == s.balance
      && r.bets == s.bets
      && (forall m :: m in r.reminders ==> m in s.reminders)
      && (WantsReminder(f, now) ==>
            AddBet(s, f, q, id, reminderId, now).reminders[|s.reminders|] !in r.reminders)
  {
    var t := AddBet(s, f, q, id, reminderId, now);
    var b := NewBet(f, q, id);
    var n := |s.bets|;
    assert t.bets == s.bets + [b];
    assert OnlyAt(t.bets, id, n);
    assert FirstIndex(t.bets, id) == Some(n);
    RemoveIdCutsOut(t.bets, id, n);
    assert t.bets[..n] + t.bets[n + 1..] == s.bets;
    ContainsEmptyAndSelf(f.eventName);
    forall m | m in DeleteBet(t, id).reminders
      ensures m in s.reminders
    {
      assert m in t.reminders && !Contains(m.eventName, f.eventName);
    }
  }

  /**
   * Opening a bet and settling it moves the balance by exactly the chosen
   * frozen profit, whatever the bet type: a qualifying stake is debited and
   * credited back, a free bet touches the balance only at settlement.
   */
  lemma OpenThenSettleCreditsProfit(s: State, f: Form, q: Quote, id: int, reminderId: int, now: int, backWon: bool)
    requires !IsBlank(f.eventName) && Fresh(s.bets, id)
    ensures UpdateBetResult(AddBet(s, f, q, id, reminderId, now), id, backWon).balance
         == s.balance + (if backWon then q.backProfit else q.layProfit)
  {
    var t := AddBet(s, f, q, id, reminderId, now);
    var b := NewBet(f, q, id);
    assert t.bets == s.bets + [b];
    assert OnlyAt(t.bets, id, |s.bets|);
  }
}
