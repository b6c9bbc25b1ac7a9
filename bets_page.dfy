/** The "My Bets" page (app/bets/page.tsx): the status lists, the stats bar
    and the per-bet check-in and result lines. */
module BetsPage {
  import opened Common
  import opened Schema
  import opened Ledger

  datatype Stats = Stats(
    active: seq<Bet>,
    won: seq<Bet>,
    lost: seq<Bet>,
    totalWon: int,
    totalLost: int,
    winRate: int)

  /** `bets && bets.length > activeBets.length ? Math.round(won / (won + lost) * 100) : 0` */
  function WinRate(bets: Option<seq<Bet>>): (r: int)
    ensures 0 <= r <= 100
    ensures bets.None? ==> r == 0
    ensures bets.Some? ==>
      var won, lost := |WithStatus(bets.value, Won)|, |WithStatus(bets.value, Lost)|;
      (won + lost == 0 ==> r == 0) &&
      (won + lost > 0 ==> 2 * (won + lost) * r - (won + lost) <= 200 * won < 2 * (won + lost) * r + (won + lost))
  {
    if bets.Some? && |bets.value| > |WithStatus(bets.value, Active)| then
      var won, lost := |WithStatus(bets.value, Won)|, |WithStatus(bets.value, Lost)|;
      StatusPartition(bets.value);
      RoundPercent(won, won + lost)
    else
      StatusPartition(GetRows(bets));
      0
  }

  /** `bets ?? []` */
  function GetRows(bets: Option<seq<Bet>>): seq<Bet> {
    bets.GetOr([])
  }

  /** The stats bar and status lists of the page. */
  function Summarize(bets: Option<seq<Bet>>): (s: Stats)
    ensures multiset(s.active) + multiset(s.won) + multiset(s.lost) == multiset(GetRows(bets))
    ensures forall b :: b in s.active ==> b.status == Active
    ensures forall b :: b in s.won ==> b.status == Won
    ensures forall b :: b in s.lost ==> b.status == Lost
    ensures s.active == WithStatus(GetRows(bets), Active) && s.won == WithStatus(GetRows(bets), Won) &&
      s.lost == WithStatus(GetRows(bets), Lost)
    ensures s.totalWon == TotalWon(s.won) && s.totalLost == TotalLost(s.lost) && s.winRate == WinRate(bets)
    ensures s.totalWon == SumOf(GetRows(bets), WonTerm) && s.totalLost == SumOf(GetRows(bets), LostTerm)
    ensures s.totalWon - s.totalLost == SumOf(Completed(GetRows(bets)), ResultAmount)
    ensures 0 <= s.winRate <= 100
    ensures |s.won| + |s.lost| == 0 ==> s.winRate == 0
  {
    var rows := GetRows(bets);
    StatusPartition(rows);
    FilterMembers(rows, StatusIs(Active));
    FilterMembers(rows, StatusIs(Won));
    FilterMembers(rows, StatusIs(Lost));
    ResultAmountsSumToNet(rows);
    TotalsAsRowSums(rows);
    var won, lost := WithStatus(rows, Won), WithStatus(rows, Lost);
    Stats(WithStatus(rows, Active), won, lost, TotalWon(won), TotalLost(lost), WinRate(bets))
  }

  /** The line shown for a finished bet. */
  datatype HistoryLine = WonLine(gain: int) | LostLine(loss: int, failedAtWeek: int)

  function HistoryLineOf(b: Bet): (l: HistoryLine)
    requires b.status != Active
    ensures l.WonLine? <==> b.status == Won
    ensures l.WonLine? ==> l.gain == ResultAmount(b) == b.stakeAmount * b.durationWeeks
    ensures l.LostLine? ==> -l.loss == ResultAmount(b) && l.failedAtWeek == b.currentWeek
  {
    if b.status == Won then WonLine(Payout(b)) else LostLine(Forfeit(b), b.currentWeek)
  }
}
