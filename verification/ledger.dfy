/**
 * The bet ledger of the tracker: a cash balance, the list of bets in the order
 * they were opened, and the list of reminders. Opening a bet (`addBet`),
 * settling it (`updateBetResult`) and deleting it (`deleteBet`) are
 * transitions from one state to the next; ids, the current time and event
 * times are millisecond integers supplied by the caller.
 */
module Ledger {
  import opened Options
  import opened Cents
  import opened Calculator
  import opened Text

  datatype Status = Pending | Completed

  /**
   * One bet. The calculator's figures are frozen into it when it is opened;
   * only `status`, `actualResult` and `backWon` change afterwards.
   */
  datatype Bet = Bet(
    id: int,
    eventName: string,
    betType: BetType,
    bookmaker: string,
    exchange: string,
    backOdds: real,
    layOdds: real,
    backStake: real,
    layStake: real,
    liability: real,
    commissionPercent: real,
    expectedResult: real,
    expectedBackProfit: real,
    expectedLayProfit: real,
    eventDateTime: Option<int>,
    status: Status,
    actualResult: Option<real>,
    backWon: Option<bool>)

  /** A reminder to fire `minutesBefore` minutes ahead of an event, at `time`. */
  datatype Reminder = Reminder(
    id: int,
    eventName: string,
    time: int,
    minutesBefore: int,
    sent: bool)

  datatype State = State(balance: real, bets: seq<Bet>, reminders: seq<Reminder>)

  /** What the form holds when a bet is opened, besides the calculator's quote. */
  datatype Form = Form(
    inputs: Inputs,
    eventName: string,
    bookmaker: string,
    exchange: string,
    eventDateTime: Option<int>,
    reminderMinutes: int)

  /** No two bets share an id (ids come from a millisecond clock). */
  predicate UniqueIds(bets: seq<Bet>) {
    forall i, j :: 0 <= i < j < |bets| ==> bets[i].id != bets[j].id
  }

  /** No bet carries `id`. */
  predicate Fresh(bets: seq<Bet>, id: int) {
    forall k :: 0 <= k < |bets| ==> bets[k].id != id
  }

  /** The bet at position `k` is the only one carrying `id`. */
  predicate OnlyAt(bets: seq<Bet>, id: int, k: int) {
    && 0 <= k < |bets|
    && bets[k].id == id
    && forall j :: 0 <= j < |bets| && j != k ==> bets[j].id != id
  }

  /** In a list with unique ids, a bet is the only one carrying its id. */
  lemma UniqueOnlyAt(bets: seq<Bet>, id: int, k: int)
    requires UniqueIds(bets) && 0 <= k < |bets| && bets[k].id == id
    ensures OnlyAt(bets, id, k)
  {
  }

  // ---------------------------------------------------------------- addBet

  /** The record `addBet` appends: the form's inputs and the quote, pending. */
  function NewBet(f: Form, q: Quote, id: int): Bet {
    Bet(id, f.eventName, f.inputs.betType, f.bookmaker, f.exchange,
        f.inputs.backOdds, f.inputs.layOdds, f.inputs.backStake,
        q.layStake, q.liability, f.inputs.commissionPercent,
        q.totalResult, q.backProfit, q.layProfit,
        f.eventDateTime, Pending, None, None)
  }

  /** The reminder fires `minutes` minutes (of 60 * 1000 ms) before the event. */
  function ReminderTime(eventTime: int, minutes: int): int {
    eventTime - minutes * 60 * 1000
  }

  /** An event time is set, the lead is positive, and the reminder is still ahead. */
  predicate WantsReminder(f: Form, now: int) {
    && f.eventDateTime.Some?
    && f.reminderMinutes > 0
    && ReminderTime(f.eventDateTime.value, f.reminderMinutes) > now
  }

  /** Only a qualifying bet is paid from the balance; free bets use a promotional stake. */
  function Debit(t: BetType, stake: real): real {
    if t == Qualifying then stake else 0.0
  }

  /**
   * `addBet`: ignored when the event name is blank; otherwise appends the new
   * pending bet, possibly a reminder, and debits a qualifying stake.
   */
  function AddBet(s: State, f: Form, q: Quote, id: int, reminderId: int, now: int): (r: State)
    ensures IsBlank(f.eventName) ==> r == s
    ensures !IsBlank(f.eventName) ==>
      && |r.bets| == |s.bets| + 1
      && r.bets[..|s.bets|] == s.bets
      && var b := r.bets[|s.bets|];
      && b.id == id && b.eventName == f.eventName && b.betType == f.inputs.betType
      && b.bookmaker == f.bookmaker && b.exchange == f.exchange && b.eventDateTime == f.eventDateTime
      && b.backStake == f.inputs.backStake && b.backOdds == f.inputs.backOdds
      && b.layOdds == f.inputs.layOdds && b.commissionPercent == f.inputs.commissionPercent
      && b.layStake == q.layStake && b.liability == q.liability
      && b.expectedResult == q.totalResult
      && b.expectedBackProfit == q.backProfit && b.expectedLayProfit == q.layProfit
      && b.status == Pending && b.actualResult == None && b.backWon == None
    ensures !IsBlank(f.eventName) ==>
      r.balance == s.balance - (if f.inputs.betType == Qualifying then f.inputs.backStake else 0.0)
    ensures !IsBlank(f.eventName) ==>
      && |r.reminders| == |s.reminders| + (if WantsReminder(f, now) then 1 else 0)
      && r.reminders[..|s.reminders|] == s.reminders
    ensures !IsBlank(f.eventName) && WantsReminder(f, now) ==>
      var m := r.reminders[|s.reminders|];
      && m.id == reminderId && m.eventName == f.eventName && !m.sent
      && m.minutesBefore == f.reminderMinutes
      && m.time > now
      && m.time + f.reminderMinutes * 60000 == f.eventDateTime.value
  {
    if IsBlank(f.eventName) then s
    else
      var reminders :=
        if WantsReminder(f, now) then
          var t := ReminderTime(f.eventDateTime.value, f.reminderMinutes);
          s.reminders + [Reminder(reminderId, f.eventName, t, f.reminderMinutes, false)]
        else s.reminders;
      State(s.balance - Debit(f.inputs.betType, f.inputs.backStake),
            s.bets + [NewBet(f, q, id)],
            reminders)
  }

  /**
   * Whether the form's add button is enabled: a non-blank event name and, for
   * a qualifying bet, a balance that covers the stake.
   */
  predicate CanAddBet(s: State, f: Form) {
    !IsBlank(f.eventName) && !(f.inputs.betType == Qualifying && s.balance < f.inputs.backStake)
  }

  /** Through the enabled button, opening a bet never takes the balance below zero. */
  lemma EnabledAddKeepsBalanceNonNegative(s: State, f: Form, q: Quote, id: int, reminderId: int, now: int)
    requires s.balance >= 0.0 && CanAddBet(s, f)
    ensures AddBet(s, f, q, id, reminderId, now).balance >= 0.0
  {
  }

  // ------------------------------------------------------- updateBetResult

  /** The frozen profit of the side that won. */
  function Outcome(b: Bet, backWon: bool): real {
    if backWon then b.expectedBackProfit else b.expectedLayProfit
  }

  /** What settling pays into the balance: a qualifying stake comes back with the outcome. */
  function Credit(b: Bet, backWon: bool): real {
    Debit(b.betType, b.backStake) + Outcome(b, backWon)
  }

  /** The bet once settled: completed, with the outcome rounded to the cent. */
  function Settled(b: Bet, backWon: bool): Bet {
    b.(status := Completed, actualResult := Some(RoundCents(Outcome(b, backWon))), backWon := Some(backWon))
  }

  /** The `map` over the bets in `updateBetResult`: every bet with the id is settled. */
  function SettleMatching(bets: seq<Bet>, id: int, backWon: bool): (r: seq<Bet>)
    ensures |r| == |bets|
    ensures forall k :: 0 <= k < |bets| ==> r[k].id == bets[k].id
    ensures forall k :: 0 <= k < |bets| && bets[k].id != id ==> r[k] == bets[k]
    ensures forall k :: 0 <= k < |bets| && bets[k].id == id ==> r[k] == Settled(bets[k], backWon)
  {
    seq(|bets|, k requires 0 <= k < |bets| =>
      if bets[k].id == id then Settled(bets[k], backWon) else bets[k])
  }

  /**
   * The total `updateBetResult` pays into the balance: one credit for every
   * bet with the id (the balance update runs once per match).
   */
  function CreditFor(bets: seq<Bet>, id: int, backWon: bool): (c: real)
    ensures Fresh(bets, id) ==> c == 0.0
    ensures forall k :: OnlyAt(bets, id, k) ==> c == Credit(bets[k], backWon)
  {
    if |bets| == 0 then 0.0
    else
      var tail := bets[1..];
      var rest := CreditFor(tail, id, backWon);
      assert forall k :: OnlyAt(bets, id, k) ==> Fresh(tail, id) || OnlyAt(tail, id, k - 1) by {
        forall k | OnlyAt(bets, id, k)
          ensures Fresh(tail, id) || OnlyAt(tail, id, k - 1)
        {
          assert forall j :: 0 <= j < |tail| ==> tail[j] == bets[j + 1];
        }
      }
      (if bets[0].id == id then Credit(bets[0], backWon) else 0.0) + rest
  }

  /**
   * `updateBetResult(id, backWon)`: settles every bet with the id and credits
   * the balance. There is no status check: a completed bet is settled again.
   */
  function UpdateBetResult(s: State, id: int, backWon: bool): (r: State)
    ensures r.reminders == s.reminders
    ensures |r.bets| == |s.bets|
    ensures forall k :: 0 <= k < |s.bets| && s.bets[k].id != id ==> r.bets[k] == s.bets[k]
    ensures forall k :: 0 <= k < |s.bets| && s.bets[k].id == id ==>
      && r.bets[k].status == Completed
      && r.bets[k].actualResult == Some(RoundCents(Outcome(s.bets[k], backWon)))
      && r.bets[k].backWon == Some(backWon)
      && r.bets[k] == s.bets[k].(status := r.bets[k].status,
                                 actualResult := r.bets[k].actualResult,
                                 backWon := r.bets[k].backWon)
    ensures Fresh(s.bets, id) ==> r == s
    ensures forall k :: OnlyAt(s.bets, id, k) ==> r.balance == s.balance + Credit(s.bets[k], backWon)
  {
    State(s.balance + CreditFor(s.bets, id, backWon), SettleMatching(s.bets, id, backWon), s.reminders)
  }

  /**
   * `autoFetchResult`: the network lookup is replaced by its answer; `None`
   * (no bet, failed or empty fetch) changes nothing, `Some(w)` settles with `w`.
   */
  function AutoFetchResult(s: State, id: int, fetched: Option<bool>): (r: State)
    ensures fetched.None? || Fresh(s.bets, id) ==> r == s
    ensures fetched.Some? ==> r == UpdateBetResult(s, id, fetched.value)
  {
    if Fresh(s.bets, id) then s
    else
      match fetched
      case None => s
      case Some(w) => UpdateBetResult(s, id, w)
  }

  // ------------------------------------------------------------- deleteBet

  /** `bets.find(b => b.id === id)`, as the position of the first match. */
  function FirstIndex(bets: seq<Bet>, id: int): (r: Option<nat>)
    ensures r.None? <==> Fresh(bets, id)
    ensures r.Some? ==>
      && r.value < |bets| && bets[r.value].id == id
      && forall j :: 0 <= j < r.value ==> bets[j].id != id
  {
    if |bets| == 0 then None
    else if bets[0].id == id then Some(0)
    else
      match FirstIndex(bets[1..], id)
      case None => None
      case Some(k) => Some(k + 1)
  }

  /** `bets.filter(b => b.id !== id)`. */
  function RemoveId(bets: seq<Bet>, id: int): (r: seq<Bet>)
    ensures |r| <= |bets|
    ensures Fresh(bets, id) ==> r == bets
  {
    if |bets| == 0 then []
    else
      var rest := RemoveId(bets[1..], id);
      assert Fresh(bets, id) ==> Fresh(bets[1..], id);
      if bets[0].id == id then rest else [bets[0]] + rest
  }

  /** Removing an id keeps exactly the bets with another id. */
  lemma {:induction false} RemoveIdKeepsOthers(bets: seq<Bet>, id: int)
    ensures forall b :: b in RemoveId(bets, id) <==> b in bets && b.id != id
    decreases |bets|
  {
    if |bets| > 0 {
      RemoveIdKeepsOthers(bets[1..], id);
      assert bets == [bets[0]] + bets[1..];
    }
  }

  /** Filtering distributes over concatenation. */
  lemma {:induction false} RemoveIdAppend(a: seq<Bet>, b: seq<Bet>, id: int)
    ensures RemoveId(a + b, id) == RemoveId(a, id) + RemoveId(b, id)
    decreases |a|
  {
    if |a| == 0 {
      assert a + b == b;
    } else {
      assert (a + b)[1..] == a[1..] + b;
      RemoveIdAppend(a[1..], b, id);
    }
  }

  /** When one bet carries the id, removing it cuts exactly that position out. */
  lemma RemoveIdCutsOut(bets: seq<Bet>, id: int, k: nat)
    requires OnlyAt(bets, id, k)
    ensures RemoveId(bets, id) == bets[..k] + bets[k + 1..]
  {
    var front, back := bets[..k], bets[k + 1..];
    assert Fresh(front, id);
    assert Fresh(back, id) by {
      forall j | 0 <= j < |back| ensures back[j].id != id {
        assert back[j] == bets[k + 1 + j];
      }
    }
    assert bets == front + ([bets[k]] + back);
    RemoveIdAppend(front, [bets[k]] + back, id);
    assert ([bets[k]] + back)[1..] == back;
  }

  /** `reminders.filter(r => !r.eventName.includes(pattern))`. */
  function DropReminders(reminders: seq<Reminder>, pattern: string): (r: seq<Reminder>)
    ensures |r| <= |reminders|
    ensures forall m :: m in r <==> m in reminders && !Contains(m.eventName, pattern)
    ensures pattern == [] ==> r == []
    ensures (forall j :: 0 <= j < |reminders| ==> !Contains(reminders[j].eventName, pattern)) ==> r == reminders
  {
    if |reminders| == 0 then []
    else
      ContainsEmptyAndSelf(reminders[0].eventName);
      var rest := DropReminders(reminders[1..], pattern);
      if Contains(reminders[0].eventName, pattern) then rest else [reminders[0]] + rest
  }

  /** Dropping reminders distributes over concatenation, so the survivors keep their order. */
  lemma {:induction false} DropRemindersAppend(a: seq<Reminder>, b: seq<Reminder>, pattern: string)
    ensures DropReminders(a + b, pattern) == DropReminders(a, pattern) + DropReminders(b, pattern)
    decreases |a|
  {
    if |a| == 0 {
      assert a + b == b;
    } else {
      assert (a + b)[1..] == a[1..] + b;
      DropRemindersAppend(a[1..], b, pattern);
    }
  }

  /** Only a pending qualifying bet gives its stake back when deleted. */
  function Refund(b: Bet): real {
    if b.status == Pending then Debit(b.betType, b.backStake) else 0.0
  }

  /**
   * `deleteBet(id)`: removes every bet with the id, refunds the first one's
   * stake when it is a pending qualifying bet, and drops every reminder whose
   * event name contains that bet's event name. For an unknown id the pattern
   * is the empty string, which every name contains, so all reminders go.
   */
  function DeleteBet(s: State, id: int): (r: State)
    ensures forall b :: b in r.bets <==> b in s.bets && b.id != id
    ensures r.bets == RemoveId(s.bets, id)
    ensures forall k :: OnlyAt(s.bets, id, k) ==> r.bets == s.bets[..k] + s.bets[k + 1..]
    ensures r.reminders ==
      DropReminders(s.reminders, if Fresh(s.bets, id) then "" else s.bets[FirstIndex(s.bets, id).value].eventName)
    ensures Fresh(s.bets, id) ==> r.balance == s.balance && r.bets == s.bets && r.reminders == []
    ensures !Fresh(s.bets, id) ==>
      var b := s.bets[FirstIndex(s.bets, id).value];
      && r.balance == s.balance + (if b.status == Pending && b.betType == Qualifying then b.backStake else 0.0)
      && (forall m :: m in r.reminders <==> m in s.reminders && !Contains(m.eventName, b.eventName))
      && ((forall j :: 0 <= j < |s.reminders| ==> !Contains(s.reminders[j].eventName, b.eventName)) ==>
            r.reminders == s.reminders)
  {
    var found := FirstIndex(s.bets, id);
    var refund := if found.Some? then Refund(s.bets[found.value]) else 0.0;
    var pattern := if found.Some? then s.bets[found.value].eventName else "";
    RemoveIdKeepsOthers(s.bets, id);
    assert forall k :: OnlyAt(s.bets, id, k) ==> RemoveId(s.bets, id) == s.bets[..k] + s.bets[k + 1..] by {
      forall k | OnlyAt(s.bets, id, k) ensures RemoveId(s.bets, id) == s.bets[..k] + s.bets[k + 1..] {
        RemoveIdCutsOut(s.bets, id, k);
      }
    }
    State(s.balance + refund, RemoveId(s.bets, id), DropReminders(s.reminders, pattern))
  }

  // --------------------------------------------------------- derived views

  /** What a bet has realised so far: `bet.actualResult || 0`. */
  function Realised(b: Bet): real {
    b.actualResult.GetOr(0.0)
  }

  /** Left-to-right sum of `f` over the bets, as `reduce` adds them. */
  function SumOver(bets: seq<Bet>, f: Bet -> real): real {
    if |bets| == 0 then 0.0
    else SumOver(bets[..|bets| - 1], f) + f(bets[|bets| - 1])
  }

  /** `totalProfit`: the realised results added up, an unsettled bet counting 0. */
  function TotalProfit(bets: seq<Bet>): real {
    SumOver(bets, Realised)
  }

  /** `pendingBets`: the bets not yet settled, in ledger order. */
  function PendingBets(bets: seq<Bet>): (r: seq<Bet>)
    ensures |r| <= |bets|
    ensures forall b :: b in r <==> b in bets && b.status == Pending
    ensures (forall j :: 0 <= j < |bets| ==> bets[j].status == Pending) ==> r == bets
  {
    if |bets| == 0 then []
    else
      var rest := PendingBets(bets[1..]);
      if bets[0].status == Pending then [bets[0]] + rest else rest
  }

  /** `upcomingReminders`: the unsent reminders still ahead of `now`. */
  function UpcomingReminders(reminders: seq<Reminder>, now: int): (r: seq<Reminder>)
    ensures |r| <= |reminders|
    ensures forall m :: m in r <==> m in reminders && !m.sent && m.time > now
    ensures (forall j :: 0 <= j < |reminders| ==> !reminders[j].sent && reminders[j].time > now) ==> r == reminders
  {
    if |reminders| == 0 then []
    else
      var rest := UpcomingReminders(reminders[1..], now);
      if !reminders[0].sent && reminders[0].time > now then [reminders[0]] + rest else rest
  }

  /** The upcoming view distributes over concatenation, so it keeps the reminders' order. */
  lemma {:induction false} UpcomingAppend(a: seq<Reminder>, b: seq<Reminder>, now: int)
    ensures UpcomingReminders(a + b, now) == UpcomingReminders(a, now) + UpcomingReminders(b, now)
    decreases |a|
  {
    if |a| == 0 {
      assert a + b == b;
    } else {
      assert (a + b)[1..] == a[1..] + b;
      UpcomingAppend(a[1..], b, now);
    }
  }
}
