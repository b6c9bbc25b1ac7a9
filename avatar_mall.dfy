/** The avatar mall (app/avatar-mall/page.tsx): the catalogue with owned flags
    derived from the user's join rows, affordability, the card's controls, and
    the purchase and set-active handlers that update the page state. The
    `purchase_avatar` and `set_active_avatar` procedures are not part of this
    model; their answers are inputs. */
module AvatarMall {
  import opened Common
  import opened Schema

  datatype AvatarWithOwnership = AvatarWithOwnership(avatar: Avatar, owned: bool)

  /** `new Set((userAvatarsData ?? []).map(ua => ua.avatar_id))` */
  function OwnedIdSet(rows: Option<seq<int>>): (ids: set<int>)
    ensures forall id :: id in ids <==> exists i :: 0 <= i < |rows.GetOr([])| && rows.GetOr([])[i] == id
  {
    var r := rows.GetOr([]);
    set i | 0 <= i < |r| :: r[i]
  }

  /** `avatarsData.map(avatar => ({...avatar, owned: ownedIds.has(avatar.id)}))` */
  function WithOwnership(avatars: seq<Avatar>, owned: set<int>): (r: seq<AvatarWithOwnership>)
    ensures |r| == |avatars|
    ensures forall i :: 0 <= i < |r| ==> r[i].avatar == avatars[i] && (r[i].owned <==> avatars[i].id in owned)
  {
    seq(|avatars|, i requires 0 <= i < |avatars| => AvatarWithOwnership(avatars[i], avatars[i].id in owned))
  }

  /** Every owned flag agrees with membership of the avatar's id in the owned set. */
  predicate FlagsMatch(items: seq<AvatarWithOwnership>, owned: set<int>) {
    forall i :: 0 <= i < |items| ==> (items[i].owned <==> items[i].avatar.id in owned)
  }

  /** `prev.map(a => a.id === avatarId ? {...a, owned: true} : a)` */
  function MarkOwned(items: seq<AvatarWithOwnership>, avatarId: int): (r: seq<AvatarWithOwnership>)
    ensures |r| == |items|
    ensures forall i :: 0 <= i < |r| ==>
      r[i].avatar == items[i].avatar && (r[i].owned <==> items[i].owned || items[i].avatar.id == avatarId)
  {
    seq(|items|, i requires 0 <= i < |items| =>
      if items[i].avatar.id == avatarId then items[i].(owned := true) else items[i])
  }

  /** Marking an avatar owned in the list and adding its id to the set keep the
      two in agreement; on a freshly built list it is the same as building the
      list from the enlarged set. */
  lemma MarkOwnedMatchesSetInsert(items: seq<AvatarWithOwnership>, owned: set<int>, avatarId: int)
    ensures FlagsMatch(items, owned) ==> FlagsMatch(MarkOwned(items, avatarId), owned + {avatarId})
    ensures forall avatars: seq<Avatar> :: items == WithOwnership(avatars, owned) ==>
      MarkOwned(items, avatarId) == WithOwnership(avatars, owned + {avatarId})
  {
    forall avatars: seq<Avatar> | items == WithOwnership(avatars, owned)
      ensures MarkOwned(items, avatarId) == WithOwnership(avatars, owned + {avatarId})
    {
      var a, b := MarkOwned(items, avatarId), WithOwnership(avatars, owned + {avatarId});
      assert forall i :: 0 <= i < |a| ==> a[i] == b[i];
    }
  }

  /** Marking the same avatar twice changes nothing more. */
  lemma MarkOwnedIdempotent(items: seq<AvatarWithOwnership>, avatarId: int)
    ensures MarkOwned(MarkOwned(items, avatarId), avatarId) == MarkOwned(items, avatarId)
  {
    var once, twice := MarkOwned(items, avatarId), MarkOwned(MarkOwned(items, avatarId), avatarId);
    assert forall i :: 0 <= i < |once| ==> once[i] == twice[i];
  }

  /** `profile?.active_avatar_id === avatar.id` */
  predicate IsActive(profile: Option<Profile>, avatarId: int) {
    profile.Some? && profile.value.activeAvatarId == Some(avatarId)
  }

  /** `(profile?.balance ?? 0) >= price` */
  predicate CanAfford(profile: Option<Profile>, price: int) {
    (if profile.Some? then profile.value.balance else 0) >= price
  }

  /** What a card offers: the active badge or a set-active button for an owned
      avatar; a "Free" badge or a buy button (with the insufficient-balance note)
      for one not owned. */
  datatype AvatarControl =
    | ActiveBadge
    | SetActiveButton(disabled: bool)
    | FreeBadge
    | BuyButton(disabled: bool, insufficient: bool)

  function ControlFor(profile: Option<Profile>, item: AvatarWithOwnership,
                      purchasingId: Option<int>, settingActiveId: Option<int>): (c: AvatarControl)
    ensures c.ActiveBadge? <==> item.owned && IsActive(profile, item.avatar.id)
    ensures c.SetActiveButton? <==> item.owned && !IsActive(profile, item.avatar.id)
    ensures c.SetActiveButton? ==> (c.disabled <==> settingActiveId == Some(item.avatar.id))
    ensures c.FreeBadge? <==> !item.owned && item.avatar.price == 0
    ensures c.BuyButton? <==> !item.owned && item.avatar.price != 0
    ensures c.BuyButton? ==>
      (c.disabled <==> !CanAfford(profile, item.avatar.price) || purchasingId == Some(item.avatar.id)) &&
      (c.insufficient <==> !CanAfford(profile, item.avatar.price) && item.avatar.price > 0)
  {
    var id := item.avatar.id;
    if item.owned then
      if IsActive(profile, id) then ActiveBadge else SetActiveButton(settingActiveId == Some(id))
    else if item.avatar.price == 0 then FreeBadge
    else
      var canAfford := CanAfford(profile, item.avatar.price);
      BuyButton(!canAfford || purchasingId == Some(id), !canAfford && item.avatar.price > 0)
  }

  /** An affordable avatar that is not being bought can always be bought; an
      owned one never offers a purchase. */
  lemma BuyEnabledWhenAffordable(profile: Option<Profile>, item: AvatarWithOwnership,
                                 purchasingId: Option<int>, settingActiveId: Option<int>)
    ensures !item.owned && item.avatar.price != 0 && CanAfford(profile, item.avatar.price) && purchasingId != Some(item.avatar.id)
      ==> ControlFor(profile, item, purchasingId, settingActiveId) == BuyButton(false, false)
    ensures item.owned ==>
      !ControlFor(profile, item, purchasingId, settingActiveId).BuyButton? &&
      !ControlFor(profile, item, purchasingId, settingActiveId).FreeBadge?
  {
  }

  /** The answer of the refresh that follows a successful purchase. */
  datatype Refresh = NoRefresh | RefreshedProfile(latest: Profile) | RefreshThrew(thrown: Option<string>)

  /** How `purchase_avatar` answered: an error result, a thrown error, or success. */
  datatype PurchaseOutcome = PurchaseError(message: string) | PurchaseThrew(thrown: Option<string>) | PurchaseOk(refresh: Refresh)

  /** How `set_active_avatar` answered. */
  datatype SetActiveOutcome = SetActiveError(message: string) | SetActiveThrew(thrown: Option<string>) | SetActiveOk

  class AvatarMallPage {
    var profile: Option<Profile>
    var avatars: seq<AvatarWithOwnership>
    var ownedAvatarIds: set<int>
    var isLoading: bool
    var purchasingId: Option<int>
    var settingActiveId: Option<int>
    var error: Option<string>

    /** The list's owned flags agree with the owned-id set. */
    predicate Consistent()
      reads this
    {
      FlagsMatch(avatars, ownedAvatarIds)
    }

    constructor()
      ensures profile == None && avatars == [] && ownedAvatarIds == {} && isLoading
      ensures purchasingId == None && settingActiveId == None && error == None
      ensures Consistent()
    {
      profile := None;
      avatars := [];
      ownedAvatarIds := {};
      isLoading := true;
      purchasingId := None;
      settingActiveId := None;
      error := None;
    }

    /** `fetchData`, given the answers of its queries. Without a signed-in user
        the page redirects and keeps its state. */
    method FetchData(signedIn: bool, profileData: Option<Profile>, avatarsData: Option<seq<Avatar>>, userAvatarIds: Option<seq<int>>)
      modifies this
      ensures !signedIn ==>
        profile == old(profile) && avatars == old(avatars) && ownedAvatarIds == old(ownedAvatarIds) &&
        isLoading == old(isLoading)
      ensures signedIn ==>
        profile == (if profileData.Some? then profileData else old(profile)) &&
        ownedAvatarIds == OwnedIdSet(userAvatarIds) &&
        avatars == (if avatarsData.Some? then WithOwnership(avatarsData.value, ownedAvatarIds) else old(avatars)) &&
        !isLoading
      ensures signedIn && avatarsData.Some? ==> Consistent()
      ensures purchasingId == old(purchasingId) && settingActiveId == old(settingActiveId) && error == old(error)
    {
      if !signedIn {
        return;
      }
      if profileData.Some? {
        profile := profileData;
      }
      var ownedIds := OwnedIdSet(userAvatarIds);
      ownedAvatarIds := ownedIds;
      if avatarsData.Some? {
        avatars := WithOwnership(avatarsData.value, ownedIds);
      }
      isLoading := false;
    }

    /** `handlePurchase`: an error leaves the list, the set and the profile as they
        were; success marks exactly `avatarId` owned in both and may refresh the
        profile. `purchasingId` is cleared whatever happens. */
    method HandlePurchase(avatarId: int, outcome: PurchaseOutcome)
      modifies this
      ensures purchasingId == None
      ensures outcome.PurchaseError? ==>
        error == Some(OrDefault(outcome.message, "Failed to purchase avatar")) &&
        avatars == old(avatars) && ownedAvatarIds == old(ownedAvatarIds) && profile == old(profile)
      ensures outcome.PurchaseThrew? ==>
        error == Some(ThrownMessage(outcome.thrown, "An error occurred")) &&
        avatars == old(avatars) && ownedAvatarIds == old(ownedAvatarIds) && profile == old(profile)
      ensures outcome.PurchaseOk? ==>
        ownedAvatarIds == old(ownedAvatarIds) + {avatarId} &&
        avatars == MarkOwned(old(avatars), avatarId) &&
        profile == (if outcome.refresh.RefreshedProfile? then Some(outcome.refresh.latest) else old(profile)) &&
        error == (if outcome.refresh.RefreshThrew? then Some(ThrownMessage(outcome.refresh.thrown, "An error occurred")) else None)
      ensures old(Consistent()) ==> Consistent()
      ensures isLoading == old(isLoading) && settingActiveId == old(settingActiveId)
    {
      error := None;
      purchasingId := Some(avatarId);
      match outcome {
        case PurchaseError(message) =>
          error := Some(OrDefault(message, "Failed to purchase avatar"));
        case PurchaseThrew(thrown) =>
          error := Some(ThrownMessage(thrown, "An error occurred"));
        case PurchaseOk(refresh) =>
          MarkOwnedMatchesSetInsert(avatars, ownedAvatarIds, avatarId);
          ownedAvatarIds := ownedAvatarIds + {avatarId};
          avatars := MarkOwned(avatars, avatarId);
          match refresh {
            case NoRefresh =>
            case RefreshedProfile(latest) =>
              profile := Some(latest);
            case RefreshThrew(thrown) =>
              error := Some(ThrownMessage(thrown, "An error occurred"));
          }
      }
      purchasingId := None;
    }

    /** `handleSetActive`: success changes only the profile's active avatar id
        (and nothing when no profile is loaded); an error leaves the profile as
        it was. `settingActiveId` is cleared whatever happens. */
    method HandleSetActive(avatarId: int, outcome: SetActiveOutcome)
      modifies this
      ensures settingActiveId == None
      ensures outcome.SetActiveError? ==>
        error == Some(OrDefault(outcome.message, "Failed to set active avatar")) && profile == old(profile)
      ensures outcome.SetActiveThrew? ==>
        error == Some(ThrownMessage(outcome.thrown, "An error occurred")) && profile == old(profile)
      ensures outcome.SetActiveOk? ==>
        error == None &&
        profile == (if old(profile).Some? then Some(old(profile).value.(activeAvatarId := Some(avatarId))) else None)
      ensures outcome.SetActiveOk? && old(profile).Some? ==> IsActive(profile, avatarId)
      ensures avatars == old(avatars) && ownedAvatarIds == old(ownedAvatarIds)
      ensures isLoading == old(isLoading) && purchasingId == old(purchasingId)
    {
      error := None;
      settingActiveId := Some(avatarId);
      match outcome {
        case SetActiveError(message) =>
          error := Some(OrDefault(message, "Failed to set active avatar"));
        case SetActiveThrew(thrown) =>
          error := Some(ThrownMessage(thrown, "An error occurred"));
        case SetActiveOk =>
          if profile.Some? {
            profile := Some(profile.value.(activeAvatarId := Some(avatarId)));
          }
      }
      settingActiveId := None;
    }
  }
}
