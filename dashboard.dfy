/** The dashboard (app/dashboard/page.tsx): active-bet cards with their win
    amount and check-in link, the recent results, and the community preview. */
module Dashboard {
  import opened Common
  import opened Schema
  import opened Ledger

  /** `.limit(5)` on the recent finished bets and on the wall events. */
  const RecentBetsLimit := 5
  const WallEventsLimit := 5
  /** `recentWallEvents.slice(0, 3)` */
  const PreviewCount := 3

  datatype ActiveCard = ActiveCard(bet: Bet, win: int, checkInWeek: Option<int>)

  /** One card per active bet: the advertised win is stake × weeks, and a
      "Check In for Week n" link appears exactly when the bet can be checked in. */
  function ActiveCards(activeBets: Option<seq<Bet>>): (cards: seq<ActiveCard>)
    ensures |cards| == |activeBets.GetOr([])|
    ensures forall i :: 0 <= i < |cards| ==>
      var b := activeBets.GetOr([])[i];
      cards[i].bet == b && cards[i].win == b.stakeAmount * b.durationWeeks &&
      (cards[i].checkInWeek.Some? <==> CanCheckIn(b)) &&
      (cards[i].checkInWeek.Some? ==> cards[i].checkInWeek.value == b.currentWeek)
  {
    var rows := activeBets.GetOr([]);
    seq(|rows|, i requires 0 <= i < |rows| =>
      ActiveCard(rows[i], Payout(rows[i]), if CanCheckIn(rows[i]) then Some(rows[i].currentWeek) else None))
  }

  /** The recent results list: the first five finished bets in completion order,
      each shown as +stake×weeks when won and -stake otherwise. */
  function RecentResults(finished: Option<seq<Bet>>): (amounts: seq<int>)
    ensures |amounts| == if |finished.GetOr([])| < RecentBetsLimit then |finished.GetOr([])| else RecentBetsLimit
    ensures forall i :: 0 <= i < |amounts| ==>
      var b := finished.GetOr([])[i];
      amounts[i] == (if b.status == Won then b.stakeAmount * b.durationWeeks else -b.stakeAmount)
  {
    var rows := Take(finished.GetOr([]), RecentBetsLimit);
    seq(|rows|, i requires 0 <= i < |rows| => ResultAmount(rows[i]))
  }

  datatype PreviewItem = PreviewItem(event: WallEvent, supportLink: bool)

  /** The community preview: at most five events are fetched and the first three
      rendered; only a `bet_created` event gets a Support link. */
  function WallPreview(events: Option<seq<WallEvent>>): (items: seq<PreviewItem>)
    ensures |items| == if |events.GetOr([])| < PreviewCount then |events.GetOr([])| else PreviewCount
    ensures forall i :: 0 <= i < |items| ==>
      items[i].event == events.GetOr([])[i] &&
      (items[i].supportLink <==> events.GetOr([])[i].eventType == BetCreated)
  {
    var shown := Take(Take(events.GetOr([]), WallEventsLimit), PreviewCount);
    seq(|shown|, i requires 0 <= i < |shown| => PreviewItem(shown[i], shown[i].eventType == BetCreated))
  }
}
