/** The bet-ledger rules that the bets, profile and dashboard pages all apply
    to the fetched bet rows: the status partition, what a won or lost bet is
    worth, the rounded win-rate percentage and the "ready to check in" rule. */
module Ledger {
  import opened Common
  import opened Schema

  function StatusIs(s: BetStatus): Bet -> bool {
    (b: Bet) => b.status == s
  }

  function NotActive(): Bet -> bool {
    (b: Bet) => b.status != Active
  }

  /** `bets.filter(b => b.status === s)` */
  function WithStatus(bets: seq<Bet>, s: BetStatus): seq<Bet> {
    Filter(bets, StatusIs(s))
  }

  /** `bets.filter(b => b.status !== 'active')` */
  function Completed(bets: seq<Bet>): seq<Bet> {
    Filter(bets, NotActive())
  }

  /** What a won bet pays out: the stake times the number of weeks. */
  function Payout(b: Bet): int {
    b.stakeAmount * b.durationWeeks
  }

  /** What a lost bet costs: the stake. */
  function Forfeit(b: Bet): int {
    b.stakeAmount
  }

  /** The signed amount shown on a finished bet's row: `+stake×weeks` when won, `-stake` otherwise. */
  function ResultAmount(b: Bet): int {
    if b.status == Won then Payout(b) else -Forfeit(b)
  }

  /** `won.reduce((sum, b) => sum + b.stake_amount * b.duration_weeks, 0)` */
  function TotalWon(won: seq<Bet>): int {
    SumOf(won, Payout)
  }

  /** `lost.reduce((sum, b) => sum + b.stake_amount, 0)` */
  function TotalLost(lost: seq<Bet>): int {
    SumOf(lost, Forfeit)
  }

  /** A row's share of total won: stake × weeks on a won bet, 0 on any other. */
  function WonTerm(b: Bet): int {
    if b.status == Won then b.stakeAmount * b.durationWeeks else 0
  }

  /** A row's share of total lost: the stake on a lost bet, 0 on any other. */
  function LostTerm(b: Bet): int {
    if b.status == Lost then b.stakeAmount else 0
  }

  /** Summing over the won (lost) list is summing stake × weeks (stake) over
      every row of that status and nothing over the others. */
  lemma TotalsAsRowSums(bets: seq<Bet>)
    ensures TotalWon(WithStatus(bets, Won)) == SumOf(bets, WonTerm)
    ensures TotalLost(WithStatus(bets, Lost)) == SumOf(bets, LostTerm)
  {
    SumOfFilter(bets, StatusIs(Won), Payout, WonTerm);
    SumOfFilter(bets, StatusIs(Lost), Forfeit, LostTerm);
  }

  /** `Math.round(part / whole * 100)` over exact rationals: the nearest
      integer to 100·part/whole, halves rounded up. */
  function RoundPercent(part: nat, whole: nat): (r: int)
    requires whole > 0
    ensures 2 * whole * r - whole <= 200 * part < 2 * whole * r + whole
    ensures part <= whole ==> 0 <= r <= 100
  {
    var r := (200 * part + whole) / (2 * whole);
    DivBounds(200 * part + whole, 2 * whole);
    PercentBounds(part, whole, r);
    r
  }

  lemma DivBounds(a: int, d: int)
    requires d > 0
    ensures d * (a / d) <= a < d * (a / d) + d
  {
  }

  lemma PercentBounds(part: nat, whole: nat, r: int)
    requires 0 < whole
    requires 2 * whole * r - whole <= 200 * part < 2 * whole * r + whole
    ensures part <= whole ==> 0 <= r <= 100
  {
    PositiveFactor(whole, 2 * r + 1);
    if part <= whole {
      NonPositiveFactor(whole, 2 * r - 201);
    }
  }

  lemma PositiveFactor(a: int, b: int)
    requires a > 0 && a * b > 0
    ensures b > 0
  {
  }

  lemma NonPositiveFactor(a: int, b: int)
    requires a > 0 && a * b <= 0
    ensures b <= 0
  {
  }

  function WeekIs(week: int): Checkin -> bool {
    (c: Checkin) => c.weekNumber == week
  }

  /** `bet.checkins?.find(c => c.week_number === bet.current_week)` */
  function CurrentCheckin(b: Bet): Option<Checkin> {
    Find(b.checkins, WeekIs(b.currentWeek))
  }

  /** `currentCheckin && !currentCheckin.completed` */
  predicate CanCheckIn(b: Bet) {
    CurrentCheckin(b).Some? && !CurrentCheckin(b).value.completed
  }

  /** The check-in rule decides on the FIRST row for the current week: it holds
      exactly when such a row exists and that row is not completed. */
  lemma CanCheckInIff(b: Bet)
    ensures CanCheckIn(b) <==>
      exists i :: 0 <= i < |b.checkins| && b.checkins[i].weekNumber == b.currentWeek &&
        !b.checkins[i].completed &&
        forall j :: 0 <= j < i ==> b.checkins[j].weekNumber != b.currentWeek
  {
    FindFirst(b.checkins, WeekIs(b.currentWeek));
    if CanCheckIn(b) {
      var i :| 0 <= i < |b.checkins| && b.checkins[i] == CurrentCheckin(b).value &&
        WeekIs(b.currentWeek)(b.checkins[i]) &&
        forall j :: 0 <= j < i ==> !WeekIs(b.currentWeek)(b.checkins[j]);
      assert b.checkins[i].weekNumber == b.currentWeek && !b.checkins[i].completed;
    }
  }

  predicate UniqueWeeks(cs: seq<Checkin>) {
    forall i, j :: 0 <= i < j < |cs| ==> cs[i].weekNumber != cs[j].weekNumber
  }

  /** With one check-in row per week (the table's (bet, week) key), a bet can be
      checked in exactly when the current week's row exists and is incomplete. */
  lemma CanCheckInWithUniqueWeeks(b: Bet)
    requires UniqueWeeks(b.checkins)
    ensures CanCheckIn(b) <==>
      exists i :: 0 <= i < |b.checkins| && b.checkins[i] == Checkin(b.currentWeek, false)
  {
    CanCheckInIff(b);
    if i :| 0 <= i < |b.checkins| && b.checkins[i] == Checkin(b.currentWeek, false) {
      assert forall j :: 0 <= j < i ==> b.checkins[j].weekNumber != b.currentWeek;
    }
  }

  /** Every bet is active, won or lost, so the three status lists split the rows. */
  lemma {:induction false} StatusPartition(bets: seq<Bet>)
    ensures |WithStatus(bets, Active)| + |WithStatus(bets, Won)| + |WithStatus(bets, Lost)| == |bets|
    ensures multiset(WithStatus(bets, Active)) + multiset(WithStatus(bets, Won)) +
      multiset(WithStatus(bets, Lost)) == multiset(bets)
  {
    if bets != [] {
      var b, tail := bets[0], bets[1..];
      StatusPartition(tail);
      assert multiset(bets) == multiset{b} + multiset(tail) by { assert bets == [b] + tail; }
      WithStatusCons(bets, Active);
      WithStatusCons(bets, Won);
      WithStatusCons(bets, Lost);
    }
  }

  /** One step of a status filter: the head counts once, in the list of its own status. */
  lemma WithStatusCons(bets: seq<Bet>, s: BetStatus)
    requires bets != []
    ensures multiset(WithStatus(bets, s)) ==
      (if bets[0].status == s then multiset{bets[0]} else multiset{}) + multiset(WithStatus(bets[1..], s))
    ensures |WithStatus(bets, s)| == (if bets[0].status == s then 1 else 0) + |WithStatus(bets[1..], s)|
  {
    assert StatusIs(s)(bets[0]) == (bets[0].status == s);
  }

  /** The finished bets are the won ones and the lost ones. */
  lemma {:induction false} CompletedIsWonPlusLost(bets: seq<Bet>)
    ensures |Completed(bets)| == |WithStatus(bets, Won)| + |WithStatus(bets, Lost)|
    ensures |WithStatus(bets, Active)| + |Completed(bets)| == |bets|
  {
    if bets != [] {
      CompletedIsWonPlusLost(bets[1..]);
    }
  }

  /** The amounts shown on the finished bets' rows add up to the net:
      total won minus total lost. */
  lemma {:induction false} ResultAmountsSumToNet(bets: seq<Bet>)
    ensures SumOf(Completed(bets), ResultAmount) ==
      TotalWon(WithStatus(bets, Won)) - TotalLost(WithStatus(bets, Lost))
  {
    if bets != [] {
      var b, tail := bets[0], bets[1..];
      ResultAmountsSumToNet(tail);
      var done, won, lost := Completed(tail), WithStatus(tail, Won), WithStatus(tail, Lost);
      if b.status == Active {
        assert Completed(bets) == done;
        assert WithStatus(bets, Won) == won && WithStatus(bets, Lost) == lost;
      } else {
        assert Completed(bets) == [b] + done;
        assert ([b] + done)[1..] == done;
        assert SumOf(Completed(bets), ResultAmount) == ResultAmount(b) + SumOf(done, ResultAmount);
        if b.status == Won {
          assert WithStatus(bets, Won) == [b] + won && WithStatus(bets, Lost) == lost;
          assert ([b] + won)[1..] == won;
        } else {
          assert WithStatus(bets, Won) == won && WithStatus(bets, Lost) == [b] + lost;
          assert ([b] + lost)[1..] == lost;
        }
      }
    }
  }

  predicate WellFormedAmounts(bets: seq<Bet>) {
    forall b :: b in bets ==> b.stakeAmount >= 0 && b.durationWeeks >= 0
  }

  /** With non-negative stakes and durations both totals are non-negative. */
  lemma TotalsNonNegative(bets: seq<Bet>)
    requires WellFormedAmounts(bets)
    ensures TotalWon(WithStatus(bets, Won)) >= 0
    ensures TotalLost(WithStatus(bets, Lost)) >= 0
  {
    FilterMembers(bets, StatusIs(Won));
    FilterMembers(bets, StatusIs(Lost));
    SumOfNonNegative(WithStatus(bets, Won), Payout);
    SumOfNonNegative(WithStatus(bets, Lost), Forfeit);
  }
}
