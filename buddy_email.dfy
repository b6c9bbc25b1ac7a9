/** The accountability-buddy notification endpoint (app/api/email/buddy/route.ts).
    `POST` runs an ordered chain of checks, each of which ends the request with
    its own status code (the 4xx and 5xx classes of section 15 of RFC 9110),
    and only when all pass does it send one email to the bet's buddy. The
    environment, the request body, the bet query and the email service's
    answer are inputs; the HTML template and its progress-bar width are not
    part of this model. */
module BuddyEmail {
  import opened Common
  import opened Schema

  /** `RESEND_API_KEY`, `NEXT_PUBLIC_SUPABASE_URL`, `SUPABASE_SERVICE_ROLE_KEY`. */
  datatype EmailEnv = EmailEnv(resendApiKey: Option<string>, supabaseUrl: Option<string>, serviceRoleKey: Option<string>)

  /** The request body: not JSON (so `request.json()` throws), or its two fields. */
  datatype RequestBody = MalformedJson | Body(betId: Option<string>, userId: Option<string>)

  /** The `bets` query with its embedded owner profile: an error or no row, or
      the row and its (possibly null) profile. */
  datatype BetLookup = NoBet | BetRow(bet: Bet, owner: Option<Profile>)

  /** How the email service answered: its data (with the message id, if any),
      an error, or a thrown error. */
  datatype SendOutcome = SentOk(messageId: Option<string>) | SendError | SendThrew

  /** What the email tells the buddy. */
  datatype EmailContent = EmailContent(
    to: string,
    subject: string,
    userName: string,
    relationship: BuddyRelationship,
    habit: string,
    currentWeek: int,
    weeksCompleted: int,
    durationWeeks: int)

  datatype Reply = Success(messageId: Option<string>) | Failure(message: string)

  datatype Response = Response(status: int, reply: Reply)

  const NotConfiguredEmail := "Email service not configured"
  const NotConfiguredDatabase := "Database service not configured"
  const MissingFields := "Missing betId or userId"
  const BetNotFound := "Bet not found"
  const NotOwner := "Unauthorized"
  const NoBuddy := "No buddy email configured for this bet"
  const SendFailed := "Failed to send email"
  const InternalError := "Internal server error"
  const DefaultUserName := "Your friend"

  /** `bet.profiles?.display_name ?? 'Your friend'`: only a missing profile or a
      null name falls back; an empty name is kept. */
  function UserName(owner: Option<Profile>): (n: string)
    ensures owner.Some? && owner.value.displayName.Some? ==> n == owner.value.displayName.value
    ensures owner.None? || owner.value.displayName.None? ==> n == DefaultUserName
  {
    if owner.Some? then owner.value.displayName.GetOr(DefaultUserName) else DefaultUserName
  }

  /** `bet.buddy_relationship ?? 'friend'` */
  function Relationship(b: Bet): (r: BuddyRelationship)
    ensures b.buddyRelationship.Some? ==> r == b.buddyRelationship.value
    ensures b.buddyRelationship.None? ==> r == Friend
  {
    b.buddyRelationship.GetOr(Friend)
  }

  /** The email for a bet whose buddy address is set: addressed to the buddy,
      with the subject naming the user, and "current_week − 1 of
      duration_weeks weeks completed". */
  function Content(b: Bet, owner: Option<Profile>): (c: EmailContent)
    requires b.buddyEmail.Some?
    ensures c.to == b.buddyEmail.value && c.userName == UserName(owner)
    ensures c.subject == c.userName + " just checked in on their habit!"
    ensures c.relationship == Relationship(b) && c.habit == b.habitDescription
    ensures c.weeksCompleted + 1 == c.currentWeek == b.currentWeek && c.durationWeeks == b.durationWeeks
    ensures 1 <= b.currentWeek <= b.durationWeeks ==> 0 <= c.weeksCompleted < c.durationWeeks
  {
    var name := UserName(owner);
    EmailContent(b.buddyEmail.value, name + " just checked in on their habit!", name, Relationship(b),
      b.habitDescription, b.currentWeek, b.currentWeek - 1, b.durationWeeks)
  }

  predicate EmailConfigured(env: EmailEnv) {
    Present(env.resendApiKey)
  }

  predicate DatabaseConfigured(env: EmailEnv) {
    Present(env.supabaseUrl) && Present(env.serviceRoleKey)
  }

  /** `!betId || !userId` is false: both fields are non-empty strings. */
  predicate HasFields(body: RequestBody)
    requires body.Body?
  {
    Present(body.betId) && Present(body.userId)
  }

  /** Every check passes, so the handler sends the email: both services are
      configured, the body names a bet and a user, the bet exists, belongs to
      that user and has a buddy address. */
  predicate Sendable(env: EmailEnv, body: RequestBody, lookup: BetLookup) {
    EmailConfigured(env) && DatabaseConfigured(env) && body.Body? && HasFields(body) &&
    lookup.BetRow? && lookup.bet.userId == body.userId.value && Present(lookup.bet.buddyEmail)
  }

  /** `POST`: the response and the email sent, if any. The checks run in order
      and the first failing one decides the response; the email is sent
      exactly when all pass, and the answer is success only when the service
      accepted it. */
  function Post(env: EmailEnv, body: RequestBody, lookup: BetLookup, send: SendOutcome): (r: (Response, Option<EmailContent>))
    ensures r.1.Some? <==> Sendable(env, body, lookup)
    ensures r.1.Some? ==> r.1.value == Content(lookup.bet, lookup.owner)
    ensures r.0.status == 200 <==> Sendable(env, body, lookup) && send.SentOk?
    ensures r.0.status == 200 ==> r.0.reply == Success(send.messageId)
    ensures r.0.status != 200 ==> r.0.reply.Failure?
    ensures !EmailConfigured(env) ==> r.0 == Response(503, Failure(NotConfiguredEmail))
    ensures EmailConfigured(env) && !DatabaseConfigured(env) ==> r.0 == Response(503, Failure(NotConfiguredDatabase))
    ensures Sendable(env, body, lookup) && !send.SentOk? ==>
      r.0 == Response(500, Failure(if send.SendError? then SendFailed else InternalError))
  {
    if !Present(env.resendApiKey) then (Response(503, Failure(NotConfiguredEmail)), None)
    else if !Present(env.supabaseUrl) || !Present(env.serviceRoleKey) then (Response(503, Failure(NotConfiguredDatabase)), None)
    else match body
      case MalformedJson => (Response(500, Failure(InternalError)), None)
      case Body(betId, userId) =>
        if !Present(betId) || !Present(userId) then (Response(400, Failure(MissingFields)), None)
        else match lookup
          case NoBet => (Response(404, Failure(BetNotFound)), None)
          case BetRow(bet, owner) =>
            if bet.userId != userId.value then (Response(403, Failure(NotOwner)), None)
            else if !Present(bet.buddyEmail) then (Response(400, Failure(NoBuddy)), None)
            else
              var email := Content(bet, owner);
              match send
              case SentOk(id) => (Response(200, Success(id)), Some(email))
              case SendError => (Response(500, Failure(SendFailed)), Some(email))
              case SendThrew => (Response(500, Failure(InternalError)), Some(email))
  }

  /** The request-side checks, in the order they run: once the services are
      configured and the body parses, a missing field gives 400, then an unknown
      bet 404, then someone else's bet 403 (even when it has no buddy), and
      only then a bet without a buddy 400. */
  lemma RequestChecksInOrder(env: EmailEnv, body: RequestBody, lookup: BetLookup, send: SendOutcome)
    requires EmailConfigured(env) && DatabaseConfigured(env)
    ensures body.MalformedJson? ==> Post(env, body, lookup, send).0 == Response(500, Failure(InternalError))
    ensures body.Body? && !HasFields(body) ==> Post(env, body, lookup, send).0 == Response(400, Failure(MissingFields))
    ensures body.Body? && HasFields(body) && lookup.NoBet? ==>
      Post(env, body, lookup, send).0 == Response(404, Failure(BetNotFound))
    ensures body.Body? && HasFields(body) && lookup.BetRow? && lookup.bet.userId != body.userId.value ==>
      Post(env, body, lookup, send).0 == Response(403, Failure(NotOwner))
    ensures (body.Body? && HasFields(body) && lookup.BetRow? && lookup.bet.userId == body.userId.value &&
             !Present(lookup.bet.buddyEmail)) ==>
      Post(env, body, lookup, send).0 == Response(400, Failure(NoBuddy))
  {
  }

  /** A successful answer is only ever given to the bet's owner, for a bet with a
      buddy, and the email then went to that buddy. */
  lemma SuccessOnlyForOwner(env: EmailEnv, body: RequestBody, lookup: BetLookup, send: SendOutcome)
    ensures Post(env, body, lookup, send).0.status == 200 ==>
      body.Body? && lookup.BetRow? && body.userId == Some(lookup.bet.userId) &&
      Post(env, body, lookup, send).1 == Some(Content(lookup.bet, lookup.owner)) &&
      Post(env, body, lookup, send).1.value.to == lookup.bet.buddyEmail.value
  {
  }

  /** Every status is success or one of the error classes of section 15 of RFC
      9110: 4xx for what the caller sent (400, 403, 404) and 5xx for what the
      server could not do (500, 503); no email goes out on a 4xx or a 503. */
  lemma StatusClasses(env: EmailEnv, body: RequestBody, lookup: BetLookup, send: SendOutcome)
    ensures Post(env, body, lookup, send).0.status in {200, 400, 403, 404, 500, 503}
    ensures Post(env, body, lookup, send).0.status in {400, 403, 404, 503} ==> Post(env, body, lookup, send).1.None?
  {
  }

  /** The response to a request that passes the checks depends on the bet
      query and the send only, not on which caller-side defaults apply. */
  lemma DefaultsOnlyShapeTheEmail(env: EmailEnv, body: RequestBody, b: Bet, o1: Option<Profile>, o2: Option<Profile>, send: SendOutcome)
    ensures Post(env, body, BetRow(b, o1), send).0 == Post(env, body, BetRow(b, o2), send).0
    ensures o1.None? && o2.Some? && o2.value.displayName.None? && Sendable(env, body, BetRow(b, o1)) ==>
      Post(env, body, BetRow(b, o1), send).1 == Post(env, body, BetRow(b, o2), send).1
  {
  }
}
