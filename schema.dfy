/** The rows and enumerations of the application's database schema
    (types/database.ts), reduced to the columns the modelled code reads.
    Timestamps are instants in integer milliseconds since the epoch. */
module Schema {
  import opened Common

  /** Milliseconds since the epoch (`Date.getTime()`). */
  type Instant = int

  const MsPerSecond := 1000
  /** One day as `setDate(getDate() + 1)` advances it, taken as 24 hours. */
  const MsPerDay := 24 * 60 * 60 * 1000

  datatype BetStatus = Active | Won | Lost
  datatype BetCategory = Health | Learning | Creative | Social | Financial | Other
  datatype BuddyRelationship = Friend | Family | Coworker | Coach
  datatype AvatarCategory = Starter | Motivator | Legend | Premium
  datatype CollectibleTier = Accessory | Vehicle | Property
  datatype WallEventType = Signup | BetCreated | BetWon | BetLost | Milestone

  /** One week's check-in row of a bet. */
  datatype Checkin = Checkin(weekNumber: int, completed: bool)

  /** A `bets` row. `checkins` holds the embedded check-in rows when the
      query selects `checkins(*)`, and is empty otherwise. */
  datatype Bet = Bet(
    id: string,
    userId: string,
    habitDescription: string,
    category: Option<BetCategory>,
    stakeAmount: int,
    durationWeeks: int,
    currentWeek: int,
    status: BetStatus,
    buddyEmail: Option<string>,
    buddyRelationship: Option<BuddyRelationship>,
    startedAt: Instant,
    createdAt: Instant,
    checkins: seq<Checkin>)

  datatype Profile = Profile(
    id: string,
    displayName: Option<string>,
    balance: int,
    activeAvatarId: Option<int>,
    lastLoginBonusAt: Option<Instant>)

  datatype Avatar = Avatar(id: int, name: string, category: AvatarCategory, price: int)

  datatype Collectible = Collectible(id: int, name: string, tier: CollectibleTier, price: int)

  datatype WallEvent = WallEvent(
    id: string,
    eventType: WallEventType,
    userId: Option<string>,
    betId: Option<string>,
    createdAt: Instant)
}
