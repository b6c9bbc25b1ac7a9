/** The older "My Bets" page (src/app/bets/page.tsx): an active/history split
    of the bets and an overview of wins, losses and signed net coins. */
module SrcBetsPage {
  import opened Common
  import opened Schema
  import opened Ledger

  datatype Overview = Overview(
    activeCount: nat,
    totalWins: nat,
    totalLosses: nat,
    totalEarned: int,
    totalLost: int,
    net: int,
    netPrefix: string)

  /** Picking the won (or lost) bets out of the history gives the same bets,
      in the same order, as picking them out of all bets. */
  lemma {:induction false} HistoryThenStatus(bets: seq<Bet>, s: BetStatus)
    requires s != Active
    ensures Filter(Completed(bets), StatusIs(s)) == WithStatus(bets, s)
  {
    if bets != [] {
      var b, tail := bets[0], bets[1..];
      HistoryThenStatus(tail, s);
      var rest := Completed(tail);
      if b.status == Active {
        assert Completed(bets) == rest;
        assert WithStatus(bets, s) == WithStatus(tail, s);
      } else {
        assert Completed(bets) == [b] + rest;
        assert ([b] + rest)[0] == b && ([b] + rest)[1..] == rest;
        assert Filter([b] + rest, StatusIs(s)) ==
          (if b.status == s then [b] else []) + Filter(rest, StatusIs(s));
      }
    }
  }

  /** `activeBets` and `completedBets` split the fetched bets without loss or overlap. */
  lemma ActiveAndHistorySplit(bets: seq<Bet>)
    ensures |WithStatus(bets, Active)| + |Completed(bets)| == |bets|
    ensures multiset(WithStatus(bets, Active)) + multiset(Completed(bets)) == multiset(bets)
  {
    FilterSplit(bets, StatusIs(Active), NotActive());
  }

  /** The stats block: counts, totals and the signed net. The totals agree with
      those of the other bets page and the profile page. */
  function OverviewOf(bets: Option<seq<Bet>>): (o: Overview)
    ensures var rows := bets.GetOr([]);
      o.activeCount + o.totalWins + o.totalLosses == |rows| &&
      o.totalWins + o.totalLosses == |Completed(rows)| &&
      o.totalEarned == TotalWon(WithStatus(rows, Won)) &&
      o.totalLost == TotalLost(WithStatus(rows, Lost)) &&
      o.net == SumOf(Completed(rows), ResultAmount)
    ensures o.net == o.totalEarned - o.totalLost
    ensures o.netPrefix == "+" <==> o.net >= 0
    ensures o.netPrefix == "" <==> o.net < 0
  {
    var rows := bets.GetOr([]);
    var history := Completed(rows);
    var won, lost := Filter(history, StatusIs(Won)), Filter(history, StatusIs(Lost));
    HistoryThenStatus(rows, Won);
    HistoryThenStatus(rows, Lost);
    StatusPartition(rows);
    CompletedIsWonPlusLost(rows);
    ResultAmountsSumToNet(rows);
    var earned, lostSum := TotalWon(won), TotalLost(lost);
    var net := earned - lostSum;
    Overview(|WithStatus(rows, Active)|, |won|, |lost|, earned, lostSum, net, if net >= 0 then "+" else "")
  }

  /** The stats block is rendered only when at least one bet was fetched. */
  predicate ShowsOverview(bets: Option<seq<Bet>>) {
    |bets.GetOr([])| > 0
  }
}
