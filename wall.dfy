/** The community wall (app/wall/page.tsx): the support-eligibility rule, the
    relative time labels, the enrichment of fetched events with their profile
    and bet, and the event list that realtime inserts prepend to. */
module Wall {
  import opened Common
  import opened Schema

  /** A wall event joined with its author's profile and its bet (either may be null). */
  datatype EnrichedEvent = EnrichedEvent(event: WallEvent, profile: Option<Profile>, bet: Option<Bet>)

  /** `twoWeeksAgo.setDate(twoWeeksAgo.getDate() - 14)`, as fourteen whole days. */
  const TwoWeeksMs := 14 * MsPerDay

  /** `canSupport`: the early-return chain of the page. */
  predicate CanSupport(currentUser: Option<string>, e: EnrichedEvent, now: Instant) {
    if !Present(currentUser) then false
    else if e.event.eventType != BetCreated then false
    else if e.bet.None? then false
    else if e.bet.value.userId == currentUser.value then false
    else if e.bet.value.status != Active then false
    else e.bet.value.createdAt > now - TwoWeeksMs
  }

  /** Support is offered exactly for a signed-in viewer, on a `bet_created` event
      whose bet is someone else's, still active, and less than 14 days old. */
  lemma CanSupportIff(currentUser: Option<string>, e: EnrichedEvent, now: Instant)
    ensures CanSupport(currentUser, e, now) <==>
      Present(currentUser) && e.event.eventType == BetCreated && e.bet.Some? &&
      e.bet.value.userId != currentUser.value && e.bet.value.status == Active &&
      now - e.bet.value.createdAt < 14 * MsPerDay
  {
  }

  /** The support window only closes: a bet that can be supported now could be
      supported at any earlier moment, and none can be supported once 14 days
      have passed since it was created. */
  lemma SupportWindowOnlyCloses(currentUser: Option<string>, e: EnrichedEvent, now: Instant, earlier: Instant)
    requires earlier <= now
    ensures CanSupport(currentUser, e, now) ==> CanSupport(currentUser, e, earlier)
    ensures e.bet.Some? && now >= e.bet.value.createdAt + TwoWeeksMs ==> !CanSupport(currentUser, e, now)
  {
  }

  /** `Math.floor((now - date) / 1000)` */
  function ElapsedSeconds(at: Instant, now: Instant): (s: int)
    ensures MsPerSecond * s <= now - at < MsPerSecond * s + MsPerSecond
  {
    (now - at) / MsPerSecond
  }

  /** The label `formatTimeAgo` renders; `OnDate` stands for the locale date string. */
  datatype TimeAgo = JustNow | MinutesAgo(minutes: int) | HoursAgo(hours: int) | DaysAgo(days: int) | OnDate(at: Instant)

  function FormatTimeAgo(at: Instant, now: Instant): (t: TimeAgo)
    ensures var s := ElapsedSeconds(at, now);
      (t.JustNow? <==> s < 60) &&
      (t.MinutesAgo? <==> 60 <= s < 3600) &&
      (t.HoursAgo? <==> 3600 <= s < 86400) &&
      (t.DaysAgo? <==> 86400 <= s < 604800) &&
      (t.OnDate? <==> 604800 <= s)
    ensures t.MinutesAgo? ==>
      1 <= t.minutes <= 59 && 60 * t.minutes <= ElapsedSeconds(at, now) < 60 * t.minutes + 60
    ensures t.HoursAgo? ==>
      1 <= t.hours <= 23 && 3600 * t.hours <= ElapsedSeconds(at, now) < 3600 * t.hours + 3600
    ensures t.DaysAgo? ==>
      1 <= t.days <= 6 && 86400 * t.days <= ElapsedSeconds(at, now) < 86400 * t.days + 86400
    ensures t.OnDate? ==> t.at == at
  {
    var seconds := ElapsedSeconds(at, now);
    if seconds < 60 then JustNow
    else if seconds < 3600 then MinutesAgo(seconds / 60)
    else if seconds < 86400 then HoursAgo(seconds / 3600)
    else if seconds < 604800 then DaysAgo(seconds / 86400)
    else OnDate(at)
  }

  /** The coarseness of a label: seconds, minutes, hours, days, date. */
  function Coarseness(t: TimeAgo): nat {
    match t
    case JustNow => 0
    case MinutesAgo(_) => 1
    case HoursAgo(_) => 2
    case DaysAgo(_) => 3
    case OnDate(_) => 4
  }

  /** As time passes, an event's label never becomes finer. */
  lemma LabelsCoarsenOverTime(at: Instant, now: Instant, later: Instant)
    requires now <= later
    ensures Coarseness(FormatTimeAgo(at, now)) <= Coarseness(FormatTimeAgo(at, later))
  {
    var s, s' := ElapsedSeconds(at, now), ElapsedSeconds(at, later);
    assert MsPerSecond * s < MsPerSecond * s' + MsPerSecond;
  }

  /** `ids.filter(Boolean)`: the non-null, non-empty ids, in order. */
  function Compact(ids: seq<Option<string>>): (r: seq<string>)
    ensures forall s :: s in r <==> Some(s) in ids && s != ""
  {
    if ids == [] then []
    else
      assert ids == [ids[0]] + ids[1..];
      (if Present(ids[0]) then [ids[0].value] else []) + Compact(ids[1..])
  }

  /** `eventsData.map(e => e.user_id)` */
  function UserIdColumn(events: seq<WallEvent>): (c: seq<Option<string>>)
    ensures |c| == |events| && forall i :: 0 <= i < |events| ==> c[i] == events[i].userId
  {
    seq(|events|, i requires 0 <= i < |events| => events[i].userId)
  }

  /** `eventsData.map(e => e.bet_id)` */
  function BetIdColumn(events: seq<WallEvent>): (c: seq<Option<string>>)
    ensures |c| == |events| && forall i :: 0 <= i < |events| ==> c[i] == events[i].betId
  {
    seq(|events|, i requires 0 <= i < |events| => events[i].betId)
  }

  /** `[...new Set(...filter(Boolean))]` over the author ids: each author of a
      fetched event once, and nothing else. */
  function UserIds(events: seq<WallEvent>): (ids: seq<string>)
    ensures NoDuplicates(ids)
    ensures forall id :: id in ids <==> id != "" && exists i :: 0 <= i < |events| && events[i].userId == Some(id)
  {
    var column := UserIdColumn(events);
    DedupSpec(Compact(column));
    assert forall id :: Some(id) in column <==> exists i :: 0 <= i < |events| && events[i].userId == Some(id);
    Dedup(Compact(column))
  }

  /** The same for the bet ids of the fetched events. */
  function BetIds(events: seq<WallEvent>): (ids: seq<string>)
    ensures NoDuplicates(ids)
    ensures forall id :: id in ids <==> id != "" && exists i :: 0 <= i < |events| && events[i].betId == Some(id)
  {
    var column := BetIdColumn(events);
    DedupSpec(Compact(column));
    assert forall id :: Some(id) in column <==> exists i :: 0 <= i < |events| && events[i].betId == Some(id);
    Dedup(Compact(column))
  }

  function ProfileIdIs(userId: Option<string>): Profile -> bool {
    (p: Profile) => Some(p.id) == userId
  }

  function BetIdIs(betId: Option<string>): Bet -> bool {
    (b: Bet) => Some(b.id) == betId
  }

  /** `profiles?.find(p => p.id === user_id) ?? null`: the first profile with the
      event's author id, or null when there is none (or no answer). */
  function MatchProfile(profiles: Option<seq<Profile>>, userId: Option<string>): (p: Option<Profile>)
    ensures p.Some? ==> profiles.Some? && p.value in profiles.value && Some(p.value.id) == userId
    ensures p.None? <==> profiles.None? || forall q :: q in profiles.value ==> Some(q.id) != userId
  {
    if profiles.None? then None
    else
      FindFirst(profiles.value, ProfileIdIs(userId));
      Find(profiles.value, ProfileIdIs(userId))
  }

  /** `bets?.find(b => b.id === bet_id) ?? null` */
  function MatchBet(bets: Option<seq<Bet>>, betId: Option<string>): (b: Option<Bet>)
    ensures b.Some? ==> bets.Some? && b.value in bets.value && Some(b.value.id) == betId
    ensures b.None? <==> bets.None? || forall c :: c in bets.value ==> Some(c.id) != betId
  {
    if bets.None? then None
    else
      FindFirst(bets.value, BetIdIs(betId));
      Find(bets.value, BetIdIs(betId))
  }

  /** `eventsData.map(event => ({...event, profile, bet}))`: order and length are
      kept, and each event carries the answer row with its own ids, or null. */
  function Enrich(events: seq<WallEvent>, profiles: Option<seq<Profile>>, bets: Option<seq<Bet>>): (r: seq<EnrichedEvent>)
    ensures |r| == |events|
    ensures forall i :: 0 <= i < |r| ==> r[i].event == events[i]
    ensures forall i :: 0 <= i < |r| ==>
      (r[i].profile.Some? ==> profiles.Some? && r[i].profile.value in profiles.value && Some(r[i].profile.value.id) == events[i].userId) &&
      (r[i].profile.None? <==> profiles.None? || forall q :: q in profiles.value ==> Some(q.id) != events[i].userId)
    ensures forall i :: 0 <= i < |r| ==>
      (r[i].bet.Some? ==> bets.Some? && r[i].bet.value in bets.value && Some(r[i].bet.value.id) == events[i].betId) &&
      (r[i].bet.None? <==> bets.None? || forall c :: c in bets.value ==> Some(c.id) != events[i].betId)
  {
    seq(|events|, i requires 0 <= i < |events| =>
      EnrichedEvent(events[i], MatchProfile(profiles, events[i].userId), MatchBet(bets, events[i].betId)))
  }

  /** The page's `events`, `isLoading` and `currentUser` state. */
  class WallFeed {
    var events: seq<EnrichedEvent>
    var isLoading: bool
    var currentUser: Option<string>

    constructor()
      ensures events == [] && isLoading && currentUser == None
    {
      events := [];
      isLoading := true;
      currentUser := None;
    }

    /** `setCurrentUser(user?.id ?? null)` */
    method SetCurrentUser(userId: Option<string>)
      modifies this
      ensures currentUser == userId
      ensures events == old(events) && isLoading == old(isLoading)
    {
      currentUser := userId;
    }

    /** `fetchEvents`, given the answers of its queries. Returns the id lists sent
        to the profiles and bets queries (none when a query is not made). */
    method FetchEvents(eventsData: Option<seq<WallEvent>>, profilesAnswer: Option<seq<Profile>>, betsAnswer: Option<seq<Bet>>)
      returns (profileQuery: Option<seq<string>>, betQuery: Option<seq<string>>)
      modifies this
      ensures !isLoading && currentUser == old(currentUser)
      ensures eventsData.None? ==> events == old(events) && profileQuery.None? && betQuery.None?
      ensures eventsData.Some? ==>
        profileQuery == Some(UserIds(eventsData.value)) &&
        (betQuery.None? <==> BetIds(eventsData.value) == []) &&
        (betQuery.Some? ==> betQuery.value == BetIds(eventsData.value)) &&
        events == Enrich(eventsData.value, profilesAnswer, if betQuery.Some? then betsAnswer else Some([]))
    {
      profileQuery, betQuery := None, None;
      if eventsData.Some? {
        var userIds := UserIds(eventsData.value);
        var betIds := BetIds(eventsData.value);
        profileQuery := Some(userIds);
        var bets: Option<seq<Bet>>;
        if |betIds| > 0 {
          betQuery := Some(betIds);
          bets := betsAnswer;
        } else {
          bets := Some([]);
        }
        events := Enrich(eventsData.value, profilesAnswer, bets);
      }
      isLoading := false;
    }

    /** The realtime INSERT handler: the author's profile and the bet are fetched
        only when the new event names them, and the enriched event is put in
        front of the existing list. Returns which lookups were made. */
    method OnInsert(newEvent: WallEvent, profileAnswer: Option<Profile>, betAnswer: Option<Bet>)
      returns (profileLookedUp: bool, betLookedUp: bool)
      modifies this
      ensures profileLookedUp <==> Present(newEvent.userId)
      ensures betLookedUp <==> Present(newEvent.betId)
      ensures events == [EnrichedEvent(newEvent,
                                       if profileLookedUp then profileAnswer else None,
                                       if betLookedUp then betAnswer else None)] + old(events)
      ensures |events| == |old(events)| + 1 && events[0].event == newEvent && events[1..] == old(events)
      ensures isLoading == old(isLoading) && currentUser == old(currentUser)
    {
      var profileData: Option<Profile> := None;
      var betData: Option<Bet> := None;
      profileLookedUp, betLookedUp := false, false;
      if Present(newEvent.userId) {
        profileData := profileAnswer;
        profileLookedUp := true;
      }
      if Present(newEvent.betId) {
        betData := betAnswer;
        betLookedUp := true;
      }
      events := [EnrichedEvent(newEvent, profileData, betData)] + events;
    }
  }
}
