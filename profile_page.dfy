/** The profile page (app/profile/page.tsx): betting stats, net earnings,
    the owned-avatar cards with their "Active" mark, and the owned
    collectibles grouped by tier. */
module ProfilePage {
  import opened Common
  import opened Schema
  import opened Ledger
  import BetsPage

  /** `bets && (won + lost) > 0 ? Math.round(won / (won + lost) * 100) : 0` */
  function WinRate(bets: Option<seq<Bet>>): int {
    if bets.Some? && |WithStatus(bets.value, Won)| + |WithStatus(bets.value, Lost)| > 0 then
      var won, lost := |WithStatus(bets.value, Won)|, |WithStatus(bets.value, Lost)|;
      RoundPercent(won, won + lost)
    else
      0
  }

  /** The profile page guards the percentage with "some bet is finished", the bets
      page with "more bets than active ones"; both give the same rate. */
  lemma WinRateMatchesBetsPage(bets: Option<seq<Bet>>)
    ensures WinRate(bets) == BetsPage.WinRate(bets)
  {
    if bets.Some? {
      StatusPartition(bets.value);
    }
  }

  datatype ProfileStats = ProfileStats(totalWon: int, totalLost: int, winRate: int, net: int)

  function Stats(bets: Option<seq<Bet>>): (s: ProfileStats)
    ensures s.totalWon == TotalWon(WithStatus(bets.GetOr([]), Won))
    ensures s.totalLost == TotalLost(WithStatus(bets.GetOr([]), Lost))
    ensures s.totalWon == SumOf(bets.GetOr([]), WonTerm) && s.totalLost == SumOf(bets.GetOr([]), LostTerm)
    ensures s.winRate == WinRate(bets) == BetsPage.WinRate(bets)
    ensures s.net == s.totalWon - s.totalLost
    ensures s.net == SumOf(Completed(bets.GetOr([])), ResultAmount)
    ensures 0 <= s.winRate <= 100
    ensures WellFormedAmounts(bets.GetOr([])) ==> s.totalWon >= 0 && s.totalLost >= 0
  {
    var rows := bets.GetOr([]);
    var totalWon, totalLost := TotalWon(WithStatus(rows, Won)), TotalLost(WithStatus(rows, Lost));
    ResultAmountsSumToNet(rows);
    TotalsAsRowSums(rows);
    WinRateMatchesBetsPage(bets);
    if WellFormedAmounts(rows) then
      TotalsNonNegative(rows);
      ProfileStats(totalWon, totalLost, WinRate(bets), totalWon - totalLost)
    else
      ProfileStats(totalWon, totalLost, WinRate(bets), totalWon - totalLost)
  }

  /** A `user_avatars` row joined with its avatar (`avatars` may be null). */
  datatype OwnedAvatarRow = OwnedAvatarRow(avatarId: int, avatar: Option<Avatar>)

  datatype AvatarCard = AvatarCard(avatarId: int, avatar: Avatar, isActive: bool)

  /** The cards of the "My Avatars" section: rows without avatar data are
      skipped; a card is marked Active exactly when its id is the profile's
      active avatar. */
  function AvatarCards(profile: Option<Profile>, rows: seq<OwnedAvatarRow>): (cards: seq<AvatarCard>)
    ensures |cards| <= |rows|
    ensures forall c :: c in cards ==> OwnedAvatarRow(c.avatarId, Some(c.avatar)) in rows
    ensures forall r :: r in rows && r.avatar.Some? ==> exists c :: c in cards && c.avatarId == r.avatarId && c.avatar == r.avatar.value
    ensures forall c :: c in cards ==>
      (c.isActive <==> profile.Some? && profile.value.activeAvatarId == Some(c.avatarId))
  {
    if rows == [] then []
    else
      var rest := AvatarCards(profile, rows[1..]);
      var r := rows[0];
      if r.avatar.None? then rest
      else
        var active := profile.Some? && profile.value.activeAvatarId == Some(r.avatarId);
        [AvatarCard(r.avatarId, r.avatar.value, active)] + rest
  }

  /** A `user_collectibles` row joined with its collectible (`collectibles` may be null). */
  datatype OwnedCollectibleRow = OwnedCollectibleRow(collectibleId: int, collectible: Option<Collectible>)

  datatype TierGroup = TierGroup(tier: CollectibleTier, rows: seq<OwnedCollectibleRow>)

  /** Position of a tier in the page's fixed order accessory, vehicle, property. */
  function TierRank(t: CollectibleTier): nat {
    match t
    case Accessory => 0
    case Vehicle => 1
    case Property => 2
  }

  /** `uc => uc.collectibles?.tier === tier` */
  function InTier(t: CollectibleTier): OwnedCollectibleRow -> bool {
    (r: OwnedCollectibleRow) => r.collectible.Some? && r.collectible.value.tier == t
  }

  /** The tier sections of "My Collectibles", in the fixed order; a tier with
      no owned item gets no section. */
  function GroupByTier(rows: seq<OwnedCollectibleRow>): (groups: seq<TierGroup>)
    ensures |groups| <= 3
    ensures forall g :: g in groups ==> g.rows != [] && g.rows == Filter(rows, InTier(g.tier))
    ensures TierOrdered(groups)
  {
    var ga, gv, gp := Section(rows, Accessory), Section(rows, Vehicle), Section(rows, Property);
    OrderedAppend(ga, gv);
    OrderedAppend(ga + gv, gp);
    ga + gv + gp
  }

  /** The sections appear in strictly increasing tier order. */
  predicate TierOrdered(groups: seq<TierGroup>) {
    forall i, j :: 0 <= i < j < |groups| ==> TierRank(groups[i].tier) < TierRank(groups[j].tier)
  }

  lemma OrderedAppend(xs: seq<TierGroup>, ys: seq<TierGroup>)
    requires TierOrdered(xs) && TierOrdered(ys)
    requires forall g, h :: g in xs && h in ys ==> TierRank(g.tier) < TierRank(h.tier)
    ensures TierOrdered(xs + ys)
  {
    forall i, j | 0 <= i < j < |xs + ys|
      ensures TierRank((xs + ys)[i].tier) < TierRank((xs + ys)[j].tier)
    {
      if j < |xs| {
        assert (xs + ys)[i] == xs[i] && (xs + ys)[j] == xs[j];
      } else if i >= |xs| {
        assert (xs + ys)[i] == ys[i - |xs|] && (xs + ys)[j] == ys[j - |xs|];
      } else {
        assert (xs + ys)[i] == xs[i] && (xs + ys)[j] == ys[j - |xs|];
      }
    }
  }

  /** The section of one tier: absent when the tier has no owned item. */
  function Section(rows: seq<OwnedCollectibleRow>, t: CollectibleTier): (r: seq<TierGroup>)
    ensures |r| <= 1
    ensures r != [] <==> Filter(rows, InTier(t)) != []
    ensures forall g :: g in r ==> g == TierGroup(t, Filter(rows, InTier(t)))
  {
    var items := Filter(rows, InTier(t));
    if items != [] then [TierGroup(t, items)] else []
  }

  /** Every tier with an owned item gets its section. */
  lemma EveryOwnedTierShown(rows: seq<OwnedCollectibleRow>, t: CollectibleTier)
    ensures Filter(rows, InTier(t)) != [] <==> TierGroup(t, Filter(rows, InTier(t))) in GroupByTier(rows)
  {
    var ga, gv, gp := Section(rows, Accessory), Section(rows, Vehicle), Section(rows, Property);
    assert GroupByTier(rows) == ga + gv + gp;
    var mine := Section(rows, t);
    if mine != [] {
      assert mine[0] in mine;
    }
  }

  function HasCollectible(): OwnedCollectibleRow -> bool {
    (r: OwnedCollectibleRow) => r.collectible.Some?
  }

  /** Every row that has collectible data is shown in exactly one tier section. */
  lemma {:induction false} TiersCoverRows(rows: seq<OwnedCollectibleRow>)
    ensures |Filter(rows, InTier(Accessory))| + |Filter(rows, InTier(Vehicle))| +
      |Filter(rows, InTier(Property))| == |Filter(rows, HasCollectible())|
  {
    if rows != [] {
      TiersCoverRows(rows[1..]);
    }
  }
}
