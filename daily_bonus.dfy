/** The daily login bonus button (components/DailyBonusButton.tsx): whether
    today's bonus is already claimed, the claim handler and the banner that
    replaces the button. The `claim_login_bonus` procedure is not part of this
    model; its answer is an input. */
module DailyBonus {
  import opened Common
  import opened Schema

  /** The local calendar day of an instant, for a fixed offset of local time
      from UTC (what `toDateString` compares). */
  function LocalDay(t: Instant, utcOffsetMs: int): int {
    (t + utcOffsetMs) / MsPerDay
  }

  /** `lastClaimedDate === today`: a claim exists and fell on today's local date. */
  predicate AlreadyClaimed(lastClaimedAt: Option<Instant>, now: Instant, utcOffsetMs: int) {
    lastClaimedAt.Some? && LocalDay(lastClaimedAt.value, utcOffsetMs) == LocalDay(now, utcOffsetMs)
  }

  /** A claim counts for today only if it is less than a day away from now; a
      claim a day or more ago never does, and a claim made at this moment always does. */
  lemma ClaimedTodayIsRecent(last: Instant, now: Instant, utcOffsetMs: int)
    ensures AlreadyClaimed(Some(last), now, utcOffsetMs) ==> -MsPerDay < now - last < MsPerDay
    ensures AlreadyClaimed(Some(now), now, utcOffsetMs)
    ensures !AlreadyClaimed(None, now, utcOffsetMs)
  {
  }

  /** Within one day, a claim stays counted from the moment it is made until
      the day ends. */
  lemma ClaimStaysCountedUntilMidnight(last: Instant, now: Instant, later: Instant, utcOffsetMs: int)
    requires last <= now <= later
    requires AlreadyClaimed(Some(last), later, utcOffsetMs)
    ensures AlreadyClaimed(Some(last), now, utcOffsetMs)
  {
    DayMonotone(last, now, utcOffsetMs);
    DayMonotone(now, later, utcOffsetMs);
  }

  lemma DayMonotone(a: Instant, b: Instant, utcOffsetMs: int)
    requires a <= b
    ensures LocalDay(a, utcOffsetMs) <= LocalDay(b, utcOffsetMs)
  {
    var x, y := a + utcOffsetMs, b + utcOffsetMs;
    assert MsPerDay * (x / MsPerDay) <= x <= y < MsPerDay * (y / MsPerDay) + MsPerDay;
  }

  /** How `claim_login_bonus` answered: an error, its data (the credited
      amount, possibly null), or a thrown error. */
  datatype ClaimOutcome = ClaimError | ClaimData(amount: Option<int>) | ClaimThrew

  class DailyBonusButton {
    const lastClaimedAt: Option<Instant>
    const utcOffsetMs: int
    var isLoading: bool
    var justClaimed: bool

    constructor(lastClaimedAt: Option<Instant>, utcOffsetMs: int)
      ensures this.lastClaimedAt == lastClaimedAt && this.utcOffsetMs == utcOffsetMs
      ensures !isLoading && !justClaimed
    {
      this.lastClaimedAt := lastClaimedAt;
      this.utcOffsetMs := utcOffsetMs;
      isLoading := false;
      justClaimed := false;
    }

    /** `alreadyClaimed || justClaimed`: the "Daily bonus claimed!" banner. */
    predicate ShowsBanner(now: Instant)
      reads this
    {
      AlreadyClaimed(lastClaimedAt, now, utcOffsetMs) || justClaimed
    }

    /** `disabled={isLoading}` */
    predicate ButtonDisabled()
      reads this
    {
      isLoading
    }

    /** `handleClaim`: the banner turns on only when a positive amount was
        credited; errors leave it as it was; loading ends in every case.
        Returns whether the page was asked to refresh. */
    method HandleClaim(outcome: ClaimOutcome) returns (refreshed: bool)
      modifies this
      ensures !isLoading
      ensures refreshed <==> outcome.ClaimData? && outcome.amount.Some? && outcome.amount.value > 0
      ensures justClaimed <==> old(justClaimed) || refreshed
      ensures outcome.ClaimError? || outcome.ClaimThrew? ==> justClaimed == old(justClaimed)
      ensures forall now :: old(ShowsBanner(now)) ==> ShowsBanner(now)
    {
      isLoading := true;
      refreshed := false;
      match outcome {
        case ClaimError =>
        case ClaimThrew =>
        case ClaimData(amount) =>
          if amount.Some? && amount.value > 0 {
            justClaimed := true;
            refreshed := true;
          }
      }
      isLoading := false;
    }
  }
}
