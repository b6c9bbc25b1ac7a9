/** The daily missed-deadline sweep (app/api/cron/check-bets/route.ts).
    The handler checks the bearer token, reads the active bets, and for every
    bet whose current week's deadline has passed with an incomplete check-in
    calls the `resolve_bet_loss` procedure, counting the calls that succeed.
    The procedure itself and the queries are not part of this model: each bet
    carries, as inputs, what its check-in lookup and its loss call answer. */
module CheckBetsCron {
  import opened Common
  import opened Schema

  /** What the `.single()` check-in query returns for the bet's current week
      (no data when the row is missing or the query fails). */
  datatype CheckinLookup = NoCheckinRow | CheckinRow(completed: bool)

  /** An active bet as the sweep selects it (`id, current_week, started_at`),
      with the answers of the two per-bet calls the sweep may make. */
  datatype ActiveBet = ActiveBet(
    id: string,
    currentWeek: int,
    startedAt: Instant,
    checkin: CheckinLookup,
    lossRpcSucceeds: bool)

  /** `NODE_ENV === 'production'` and `CRON_SECRET` (possibly unset). */
  datatype Env = Env(production: bool, cronSecret: Option<string>)

  /** The active-bets query: an error, or its data (null or a list). */
  datatype BetsQuery = QueryError | QueryData(rows: Option<seq<ActiveBet>>)

  datatype Outcome = Unauthorized | NoActiveBets | Processed(total: nat, lost: nat) | FailedToProcess

  datatype Response = Response(status: int, outcome: Outcome)

  /** The header the code compares against: the template literal
      `Bearer ${process.env.CRON_SECRET}`, which renders an unset secret as
      the text "undefined". */
  function ExpectedHeaderAsWritten(env: Env): string {
    "Bearer " + (if env.cronSecret.Some? then env.cronSecret.value else "undefined")
  }

  /** The authorization check as written. */
  predicate AuthorizedAsWritten(env: Env, header: Option<string>) {
    !env.production || header == Some(ExpectedHeaderAsWritten(env))
  }

  /** With `CRON_SECRET` unset in production, the check as written lets in any
      caller who sends the literal header "Bearer undefined". */
  lemma UnsetSecretAcceptsLiteralUndefined()
    ensures AuthorizedAsWritten(Env(true, None), Some("Bearer undefined"))
    ensures !Authorized(Env(true, None), Some("Bearer undefined"))
  {
    assert ExpectedHeaderAsWritten(Env(true, None)) == "Bearer undefined";
  }

  /** The check as intended (the bearer scheme of section 2.1 of RFC 6750):
      outside production everything passes; in production only the header
      `Bearer <secret>` passes, and only when a secret is configured. */
  predicate Authorized(env: Env, header: Option<string>) {
    !env.production || (Present(env.cronSecret) && header == Some("Bearer " + env.cronSecret.value))
  }

  /** The corrected check never admits a production request without a configured
      secret, and otherwise agrees with the check as written. */
  lemma AuthorizedOnlyWithSecret(env: Env, header: Option<string>)
    ensures env.production && !Present(env.cronSecret) ==> !Authorized(env, header)
    ensures Present(env.cronSecret) ==> (Authorized(env, header) <==> AuthorizedAsWritten(env, header))
    ensures env.production && Authorized(env, header) ==>
      header.Some? && header.value == "Bearer " + env.cronSecret.value
  {
  }

  /** `currentWeekStart.setDate(betStart.getDate() + (current_week - 1) * 7)` */
  function CurrentWeekStart(b: ActiveBet): Instant {
    b.startedAt + (b.currentWeek - 1) * 7 * MsPerDay
  }

  /** The deadline is seven days after the current week started, which is
      7 × current_week days after the bet started. */
  function Deadline(b: ActiveBet): (d: Instant)
    ensures d == b.startedAt + 7 * b.currentWeek * MsPerDay
    ensures d - CurrentWeekStart(b) == 7 * MsPerDay
  {
    CurrentWeekStart(b) + 7 * MsPerDay
  }

  /** `new Date() > deadline` */
  predicate DeadlinePassed(b: ActiveBet, now: Instant) {
    now > Deadline(b)
  }

  /** A loss is attempted only past the deadline, when the week's check-in row
      exists and is not completed. */
  predicate ShouldResolveLoss(b: ActiveBet, now: Instant) {
    DeadlinePassed(b, now) && b.checkin == CheckinRow(false)
  }

  /** Ids whose check-in is looked up, in query order. */
  function Lookups(bets: seq<ActiveBet>, now: Instant): seq<string> {
    if bets == [] then []
    else
      var b := bets[|bets| - 1];
      Lookups(bets[..|bets| - 1], now) + (if DeadlinePassed(b, now) then [b.id] else [])
  }

  /** Ids passed to `resolve_bet_loss`, in query order. */
  function LossCalls(bets: seq<ActiveBet>, now: Instant): seq<string> {
    if bets == [] then []
    else
      var b := bets[|bets| - 1];
      LossCalls(bets[..|bets| - 1], now) + (if ShouldResolveLoss(b, now) then [b.id] else [])
  }

  /** The number of loss calls that returned no error. */
  function LostCount(bets: seq<ActiveBet>, now: Instant): nat {
    if bets == [] then 0
    else
      var b := bets[|bets| - 1];
      LostCount(bets[..|bets| - 1], now) + (if ShouldResolveLoss(b, now) && b.lossRpcSucceeds then 1 else 0)
  }

  /** The GET handler, with the authorization check as written. Besides the
      response it returns, in order, the ids whose check-in it looked up and
      the ids it asked to resolve as lost. */
  method CheckBets(env: Env, authHeader: Option<string>, query: BetsQuery, now: Instant)
    returns (resp: Response, lookups: seq<string>, lossCalls: seq<string>)
    ensures !AuthorizedAsWritten(env, authHeader) ==>
      resp == Response(401, Unauthorized) && lookups == [] && lossCalls == []
    ensures AuthorizedAsWritten(env, authHeader) && query.QueryError? ==>
      resp == Response(500, FailedToProcess) && lookups == [] && lossCalls == []
    ensures AuthorizedAsWritten(env, authHeader) && query.QueryData? && (query.rows.None? || query.rows.value == []) ==>
      resp == Response(200, NoActiveBets) && lookups == [] && lossCalls == []
    ensures AuthorizedAsWritten(env, authHeader) && query.QueryData? && query.rows.Some? && query.rows.value != [] ==>
      var bets := query.rows.value;
      resp == Response(200, Processed(|bets|, LostCount(bets, now))) &&
      lookups == Lookups(bets, now) && lossCalls == LossCalls(bets, now)
  {
    if !AuthorizedAsWritten(env, authHeader) {
      return Response(401, Unauthorized), [], [];
    }
    if query.QueryError? {
      return Response(500, FailedToProcess), [], [];
    }
    if query.rows.None? || |query.rows.value| == 0 {
      return Response(200, NoActiveBets), [], [];
    }
    var bets := query.rows.value;
    var lostCount := 0;
    lookups, lossCalls := [], [];
    for i := 0 to |bets|
      invariant lostCount == LostCount(bets[..i], now)
      invariant lookups == Lookups(bets[..i], now)
      invariant lossCalls == LossCalls(bets[..i], now)
    {
      var bet := bets[i];
      var weekStart := bet.startedAt + (bet.currentWeek - 1) * 7 * MsPerDay;
      var deadline := weekStart + 7 * MsPerDay;
      assert bets[..i + 1][..i] == bets[..i];
      if now > deadline {
        lookups := lookups + [bet.id];
        if bet.checkin.CheckinRow? && !bet.checkin.completed {
          lossCalls := lossCalls + [bet.id];
          if bet.lossRpcSucceeds {
            lostCount := lostCount + 1;
          }
        }
      }
    }
    assert bets[..|bets|] == bets;
    resp := Response(200, Processed(|bets|, lostCount));
  }

  /** Each success is a call, each call follows a lookup, each lookup is one bet:
      0 <= lost <= calls <= lookups <= active bets. */
  lemma {:induction false} SweepCountsBounded(bets: seq<ActiveBet>, now: Instant)
    ensures LostCount(bets, now) <= |LossCalls(bets, now)| <= |Lookups(bets, now)| <= |bets|
  {
    if bets != [] {
      SweepCountsBounded(bets[..|bets| - 1], now);
    }
  }

  /** A bet is sent to `resolve_bet_loss` exactly when it should be: every
      eligible bet's id is called, and every called id belongs to an eligible bet. */
  lemma {:induction false} LossCallsAreTheEligibleBets(bets: seq<ActiveBet>, now: Instant)
    ensures forall k :: 0 <= k < |bets| && ShouldResolveLoss(bets[k], now) ==> bets[k].id in LossCalls(bets, now)
    ensures forall x :: x in LossCalls(bets, now) ==>
      exists k :: 0 <= k < |bets| && bets[k].id == x && ShouldResolveLoss(bets[k], now)
  {
    if bets != [] {
      var init := bets[..|bets| - 1];
      LossCallsAreTheEligibleBets(init, now);
      forall k | 0 <= k < |bets| - 1
        ensures bets[k] == init[k]
      {
      }
      forall x | x in LossCalls(bets, now)
        ensures exists k :: 0 <= k < |bets| && bets[k].id == x && ShouldResolveLoss(bets[k], now)
      {
        if x in LossCalls(init, now) {
          var k :| 0 <= k < |init| && init[k].id == x && ShouldResolveLoss(init[k], now);
          assert bets[k] == init[k];
        } else {
          assert bets[|bets| - 1].id == x;
        }
      }
    }
  }

  predicate SameExceptLossOutcomes(a: seq<ActiveBet>, b: seq<ActiveBet>) {
    |a| == |b| &&
    forall k :: 0 <= k < |a| ==> a[k].(lossRpcSucceeds := true) == b[k].(lossRpcSucceeds := true)
  }

  /** A failed loss call does not stop the sweep: which bets are looked up and
      called does not depend on how earlier calls turned out. */
  lemma {:induction false} CallsIndependentOfOutcomes(a: seq<ActiveBet>, b: seq<ActiveBet>, now: Instant)
    requires SameExceptLossOutcomes(a, b)
    ensures LossCalls(a, now) == LossCalls(b, now)
    ensures Lookups(a, now) == Lookups(b, now)
  {
    if a != [] {
      var n := |a| - 1;
      assert SameExceptLossOutcomes(a[..n], b[..n]) by {
        forall k | 0 <= k < n ensures a[..n][k] == a[k] && b[..n][k] == b[k] { }
      }
      CallsIndependentOfOutcomes(a[..n], b[..n], now);
      assert a[n].(lossRpcSucceeds := true) == b[n].(lossRpcSucceeds := true);
      assert a[n].id == b[n].id && Deadline(a[n]) == Deadline(b[n]) && a[n].checkin == b[n].checkin;
    }
  }

  /** When every loss call succeeds, the count is the number of calls; when
      none succeeds, it is zero. */
  lemma {:induction false} LostCountMatchesSuccesses(bets: seq<ActiveBet>, now: Instant)
    ensures (forall k :: 0 <= k < |bets| ==> bets[k].lossRpcSucceeds) ==> LostCount(bets, now) == |LossCalls(bets, now)|
    ensures (forall k :: 0 <= k < |bets| ==> !bets[k].lossRpcSucceeds) ==> LostCount(bets, now) == 0
  {
    if bets != [] {
      var init := bets[..|bets| - 1];
      assert forall k :: 0 <= k < |init| ==> init[k] == bets[k];
      LostCountMatchesSuccesses(init, now);
    }
  }

  /** Before any deadline has passed, the sweep looks nothing up and resolves nothing. */
  lemma {:induction false} NothingDueNothingResolved(bets: seq<ActiveBet>, now: Instant)
    requires forall k :: 0 <= k < |bets| ==> now <= Deadline(bets[k])
    ensures Lookups(bets, now) == [] && LossCalls(bets, now) == [] && LostCount(bets, now) == 0
  {
    if bets != [] {
      var init := bets[..|bets| - 1];
      assert forall k :: 0 <= k < |init| ==> init[k] == bets[k];
      NothingDueNothingResolved(init, now);
    }
  }
}
