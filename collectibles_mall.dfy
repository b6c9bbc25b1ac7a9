/** The collectibles mall (app/collectibles-mall/page.tsx): the catalogue with
    owned flags, the tier sections and their owned counts, the collection
    progress with its crown, and the purchase handler. The
    `purchase_collectible` procedure is not part of this model; its answer is
    an input. */
module CollectiblesMall {
  import opened Common
  import opened Schema
  import AvatarMall

  datatype CollectibleWithOwnership = CollectibleWithOwnership(collectible: Collectible, owned: bool)

  /** `collectiblesData.map(c => ({...c, owned: ownedIds.has(c.id)}))` */
  function WithOwnership(collectibles: seq<Collectible>, owned: set<int>): (r: seq<CollectibleWithOwnership>)
    ensures |r| == |collectibles|
    ensures forall i :: 0 <= i < |r| ==>
      r[i].collectible == collectibles[i] && (r[i].owned <==> collectibles[i].id in owned)
  {
    seq(|collectibles|, i requires 0 <= i < |collectibles| =>
      CollectibleWithOwnership(collectibles[i], collectibles[i].id in owned))
  }

  /** `prev.map(c => c.id === collectibleId ? {...c, owned: true} : c)` */
  function MarkOwned(items: seq<CollectibleWithOwnership>, collectibleId: int): (r: seq<CollectibleWithOwnership>)
    ensures |r| == |items|
    ensures forall i :: 0 <= i < |r| ==>
      r[i].collectible == items[i].collectible &&
      (r[i].owned <==> items[i].owned || items[i].collectible.id == collectibleId)
  {
    seq(|items|, i requires 0 <= i < |items| =>
      if items[i].collectible.id == collectibleId then items[i].(owned := true) else items[i])
  }

  /** Marking a purchase on a freshly built list is the same as building the
      list with the purchased id among the owned ones. */
  lemma MarkOwnedMatchesSetInsert(collectibles: seq<Collectible>, owned: set<int>, collectibleId: int)
    ensures MarkOwned(WithOwnership(collectibles, owned), collectibleId) ==
      WithOwnership(collectibles, owned + {collectibleId})
  {
    var a, b := MarkOwned(WithOwnership(collectibles, owned), collectibleId),
      WithOwnership(collectibles, owned + {collectibleId});
    assert forall i :: 0 <= i < |a| ==> a[i] == b[i];
  }

  /** `c => c.tier === tier` */
  function InTier(t: CollectibleTier): CollectibleWithOwnership -> bool {
    (c: CollectibleWithOwnership) => c.collectible.tier == t
  }

  function IsOwned(): CollectibleWithOwnership -> bool {
    (c: CollectibleWithOwnership) => c.owned
  }

  /** The items of one tier section, in catalogue order. */
  function TierItems(items: seq<CollectibleWithOwnership>, t: CollectibleTier): seq<CollectibleWithOwnership> {
    Filter(items, InTier(t))
  }

  /** `items.filter(c => c.owned).length` */
  function OwnedCount(items: seq<CollectibleWithOwnership>): nat {
    |Filter(items, IsOwned())|
  }

  /** No list, whether a tier section or the whole catalogue, has more owned
      items than items. */
  lemma OwnedCountBounded(items: seq<CollectibleWithOwnership>)
    ensures OwnedCount(items) <= |items|
    ensures forall t :: OwnedCount(TierItems(items, t)) <= |TierItems(items, t)| <= |items|
  {
    FilterMembers(items, IsOwned());
    forall t ensures OwnedCount(TierItems(items, t)) <= |TierItems(items, t)| <= |items| {
      FilterMembers(items, InTier(t));
      FilterMembers(TierItems(items, t), IsOwned());
    }
  }

  /** The three sections show every item once, and their owned counts add up
      to the total shown in the progress card. */
  lemma {:induction false} TierCountsAddUp(items: seq<CollectibleWithOwnership>)
    ensures |TierItems(items, Accessory)| + |TierItems(items, Vehicle)| + |TierItems(items, Property)| == |items|
    ensures OwnedCount(TierItems(items, Accessory)) + OwnedCount(TierItems(items, Vehicle)) +
      OwnedCount(TierItems(items, Property)) == OwnedCount(items)
  {
    if items != [] {
      var x, rest := items[0], items[1..];
      TierCountsAddUp(rest);
      forall t ensures TierItems(items, t) == (if x.collectible.tier == t then [x] else []) + TierItems(rest, t) {
        assert InTier(t)(x) == (x.collectible.tier == t);
      }
      OwnedCountCons(x, TierItems(rest, x.collectible.tier));
      assert OwnedCount(items) == (if x.owned then 1 else 0) + OwnedCount(rest);
      assert [] + TierItems(rest, Accessory) == TierItems(rest, Accessory);
      assert [] + TierItems(rest, Vehicle) == TierItems(rest, Vehicle);
      assert [] + TierItems(rest, Property) == TierItems(rest, Property);
    }
  }

  lemma OwnedCountCons(x: CollectibleWithOwnership, rest: seq<CollectibleWithOwnership>)
    ensures OwnedCount([x] + rest) == (if x.owned then 1 else 0) + OwnedCount(rest)
  {
    assert ([x] + rest)[0] == x && ([x] + rest)[1..] == rest;
  }

  /** `totalOwned === totalCollectibles` */
  predicate ShowsCrown(items: seq<CollectibleWithOwnership>) {
    OwnedCount(items) == |items|
  }

  /** The crown is shown exactly when every item of the catalogue is owned
      (which includes an empty catalogue). */
  lemma {:induction false} CrownIffAllOwned(items: seq<CollectibleWithOwnership>)
    ensures ShowsCrown(items) <==> forall i :: 0 <= i < |items| ==> items[i].owned
  {
    if items != [] {
      CrownIffAllOwned(items[1..]);
      FilterMembers(items[1..], IsOwned());
      if !items[0].owned {
        assert OwnedCount(items) == OwnedCount(items[1..]);
      } else {
        assert forall i :: 1 <= i < |items| ==> items[i] == items[1..][i - 1];
      }
    }
  }

  /** What a card offers: an "Owned" badge, or a buy button with the
      insufficient-balance note. */
  datatype CollectibleControl = OwnedBadge | BuyButton(disabled: bool, insufficient: bool)

  function ControlFor(profile: Option<Profile>, item: CollectibleWithOwnership, purchasingId: Option<int>): (c: CollectibleControl)
    ensures c.OwnedBadge? <==> item.owned
    ensures c.BuyButton? ==>
      (c.disabled <==> !AvatarMall.CanAfford(profile, item.collectible.price) || purchasingId == Some(item.collectible.id)) &&
      (c.insufficient <==> !AvatarMall.CanAfford(profile, item.collectible.price))
  {
    if item.owned then OwnedBadge
    else
      var canAfford := AvatarMall.CanAfford(profile, item.collectible.price);
      BuyButton(!canAfford || purchasingId == Some(item.collectible.id), !canAfford)
  }

  class CollectiblesMallPage {
    var profile: Option<Profile>
    var collectibles: seq<CollectibleWithOwnership>
    var isLoading: bool
    var purchasingId: Option<int>
    var error: Option<string>

    constructor()
      ensures profile == None && collectibles == [] && isLoading && purchasingId == None && error == None
    {
      profile := None;
      collectibles := [];
      isLoading := true;
      purchasingId := None;
      error := None;
    }

    /** `fetchData`, given the answers of its queries. Without a signed-in user
        the page redirects and keeps its state. */
    method FetchData(signedIn: bool, profileData: Option<Profile>, collectiblesData: Option<seq<Collectible>>,
                     userCollectibleIds: Option<seq<int>>)
      modifies this
      ensures !signedIn ==> profile == old(profile) && collectibles == old(collectibles) && isLoading == old(isLoading)
      ensures signedIn ==>
        profile == (if profileData.Some? then profileData else old(profile)) &&
        collectibles == (if collectiblesData.Some? then
                           WithOwnership(collectiblesData.value, AvatarMall.OwnedIdSet(userCollectibleIds))
                         else old(collectibles)) &&
        !isLoading
      ensures purchasingId == old(purchasingId) && error == old(error)
    {
      if !signedIn {
        return;
      }
      if profileData.Some? {
        profile := profileData;
      }
      var ownedIds := AvatarMall.OwnedIdSet(userCollectibleIds);
      if collectiblesData.Some? {
        collectibles := WithOwnership(collectiblesData.value, ownedIds);
      }
      isLoading := false;
    }

    /** `handlePurchase`: an error leaves the list and profile as they were;
        success marks exactly `collectibleId` owned and may refresh the profile.
        `purchasingId` is cleared whatever happens. */
    method HandlePurchase(collectibleId: int, outcome: AvatarMall.PurchaseOutcome)
      modifies this
      ensures purchasingId == None
      ensures outcome.PurchaseError? ==>
        error == Some(OrDefault(outcome.message, "Failed to purchase collectible")) &&
        collectibles == old(collectibles) && profile == old(profile)
      ensures outcome.PurchaseThrew? ==>
        error == Some(ThrownMessage(outcome.thrown, "An error occurred")) &&
        collectibles == old(collectibles) && profile == old(profile)
      ensures outcome.PurchaseOk? ==>
        collectibles == MarkOwned(old(collectibles), collectibleId) &&
        profile == (if outcome.refresh.RefreshedProfile? then Some(outcome.refresh.latest) else old(profile)) &&
        error == (if outcome.refresh.RefreshThrew? then Some(ThrownMessage(outcome.refresh.thrown, "An error occurred")) else None)
      ensures isLoading == old(isLoading)
    {
      error := None;
      purchasingId := Some(collectibleId);
      match outcome {
        case PurchaseError(message) =>
          error := Some(OrDefault(message, "Failed to purchase collectible"));
        case PurchaseThrew(thrown) =>
          error := Some(ThrownMessage(thrown, "An error occurred"));
        case PurchaseOk(refresh) =>
          collectibles := MarkOwned(collectibles, collectibleId);
          match refresh {
            case NoRefresh =>
            case RefreshedProfile(latest) =>
              profile := Some(latest);
            case RefreshThrew(thrown) =>
              error := Some(ThrownMessage(thrown, "An error occurred"));
          }
      }
      purchasingId := None;
    }
  }
}
