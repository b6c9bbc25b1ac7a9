/** The client-side bet-creation page (app/new-bet/page.tsx): the form state,
    the potential win, the arguments it passes to `create_bet`, submit
    enablement and the submit handler. The procedure is not part of this
    model; its answer is an input. */
module NewBet {
  import opened Common
  import opened Schema
  import RangeInput

  /** Slider bounds: duration 2..12 (step 1), stake 10..500 in steps of 10. */
  const MinWeeks := 2
  const MaxWeeks := 12
  const MinStake := 10
  const MaxStake := 500
  const StakeStep := 10

  predicate IsDurationChoice(w: int) {
    RangeInput.OnSlider(MinWeeks, MaxWeeks, 1, w)
  }

  predicate IsStakeChoice(v: int) {
    RangeInput.OnSlider(MinStake, MaxStake, StakeStep, v)
  }

  /** The stake positions are exactly 10, 20, ..., 500 and the duration positions 2..12. */
  lemma SliderPositions(v: int, w: int)
    ensures IsStakeChoice(v) <==> 10 <= v <= 500 && v % 10 == 0
    ensures IsDurationChoice(w) <==> 2 <= w <= 12
  {
  }

  /** The characters JavaScript's `String.prototype.trim` removes: white space
      (tab, vertical tab, form feed, space, no-break space, byte order mark and
      the other space separators) and line terminators. */
  predicate IsJsWhitespace(c: char) {
    c == '\U{0009}' || c == '\U{000A}' || c == '\U{000B}' || c == '\U{000C}' || c == '\U{000D}' ||
    c == '\U{0020}' || c == '\U{00A0}' || c == '\U{1680}' || ('\U{2000}' <= c <= '\U{200A}') ||
    c == '\U{2028}' || c == '\U{2029}' || c == '\U{202F}' || c == '\U{205F}' || c == '\U{3000}' ||
    c == '\U{FEFF}'
  }

  function TrimStart(s: string): (r: string)
    ensures |r| <= |s| && r == s[|s| - |r|..]
    ensures r != [] ==> !IsJsWhitespace(r[0])
    ensures forall i :: 0 <= i < |s| - |r| ==> IsJsWhitespace(s[i])
  {
    if s != [] && IsJsWhitespace(s[0]) then
      assert forall i :: 1 <= i < |s| ==> s[i] == s[1..][i - 1];
      TrimStart(s[1..])
    else s
  }

  function TrimEnd(s: string): (r: string)
    ensures |r| <= |s| && r == s[..|r|]
    ensures r != [] ==> !IsJsWhitespace(r[|r| - 1])
    ensures forall i :: |r| <= i < |s| ==> IsJsWhitespace(s[i])
  {
    if s != [] && IsJsWhitespace(s[|s| - 1]) then TrimEnd(s[..|s| - 1]) else s
  }

  /** `s.trim()` */
  function Trim(s: string): string {
    TrimEnd(TrimStart(s))
  }

  /** A text is blank after trimming exactly when every character is white space. */
  lemma {:induction false} TrimEmptyIffBlank(s: string)
    ensures Trim(s) == "" <==> forall i :: 0 <= i < |s| ==> IsJsWhitespace(s[i])
  {
    if s != [] {
      if IsJsWhitespace(s[0]) {
        TrimEmptyIffBlank(s[1..]);
        assert forall i :: 1 <= i < |s| ==> s[i] == s[1..][i - 1];
      } else {
        assert TrimStart(s) == s;
        TrimEndKeepsNonWhitespaceHead(s);
      }
    }
  }

  /** Trimming the end of a text that starts with a visible character keeps it. */
  lemma {:induction false} TrimEndKeepsNonWhitespaceHead(s: string)
    requires s != [] && !IsJsWhitespace(s[0])
    ensures TrimEnd(s) != []
  {
    if |s| > 1 && IsJsWhitespace(s[|s| - 1]) {
      TrimEndKeepsNonWhitespaceHead(s[..|s| - 1]);
    }
  }

  /** The arguments of the `create_bet` call. */
  datatype CreateBetArgs = CreateBetArgs(
    habitDescription: string,
    category: BetCategory,
    stakeAmount: int,
    durationWeeks: int,
    buddyEmail: Option<string>,
    buddyRelationship: Option<BuddyRelationship>)

  /** `buddyEmail || null` and `buddyEmail ? 'friend' : null`: an empty email is
      sent as null with no relationship; any other email with relationship friend. */
  function BuddyFields(buddyEmail: string): (f: (Option<string>, Option<BuddyRelationship>))
    ensures buddyEmail == "" ==> f == (None, None)
    ensures buddyEmail != "" ==> f == (Some(buddyEmail), Some(Friend))
    ensures f.0.None? <==> f.1.None?
  {
    if Truthy(buddyEmail) then (Some(buddyEmail), Some(Friend)) else (None, None)
  }

  /** How `create_bet` answered: its new bet id, or an error that the handler
      throws. `thrown` is the error's message when it is an `Error` instance. */
  datatype CreateOutcome = CreateOk(betId: string) | CreateFailed(thrown: Option<string>)

  class NewBetForm {
    var habitDescription: string
    var category: BetCategory
    var durationWeeks: int
    var stakeAmount: int
    var buddyEmail: string
    var isSubmitting: bool
    var error: Option<string>

    /** Both sliders hold values they can show. */
    predicate Valid()
      reads this
    {
      IsDurationChoice(durationWeeks) && IsStakeChoice(stakeAmount)
    }

    constructor()
      ensures habitDescription == "" && category == Health && durationWeeks == 4 && stakeAmount == 100
      ensures buddyEmail == "" && !isSubmitting && error == None
      ensures Valid()
    {
      habitDescription := "";
      category := Health;
      durationWeeks := 4;
      stakeAmount := 100;
      buddyEmail := "";
      isSubmitting := false;
      error := None;
    }

    /** `stakeAmount * durationWeeks` */
    function PotentialWin(): int
      reads this
    {
      stakeAmount * durationWeeks
    }

    /** The potential win is the stake times the weeks, between 10 × 2 and 500 × 12. */
    lemma PotentialWinBounds()
      requires Valid()
      ensures 20 <= PotentialWin() <= 6000
      ensures PotentialWin() % 10 == 0
    {
      var s, w := stakeAmount, durationWeeks;
      RangeInput.MonotoneTimes(2, w, s);
      RangeInput.MonotoneTimes(w, 12, s);
      var k := (s - MinStake) / StakeStep + 1;
      assert s == k * 10;
      assert s * w == (k * w) * 10;
      RangeInput.MultipleModZero(k * w, 10);
    }

    /** `isSubmitting || !habitDescription.trim()` */
    predicate SubmitDisabled()
      reads this
    {
      isSubmitting || Trim(habitDescription) == ""
    }

    /** Submit is enabled exactly when nothing is in flight and the habit has a
        visible character. */
    lemma SubmitEnabledIff()
      ensures !SubmitDisabled() <==>
        !isSubmitting && exists i :: 0 <= i < |habitDescription| && !IsJsWhitespace(habitDescription[i])
    {
      TrimEmptyIffBlank(habitDescription);
    }

    /** The form's `onChange` handlers. */
    method Edit(habit: string, cat: BetCategory, weeks: int, stake: int, email: string)
      requires IsDurationChoice(weeks) && IsStakeChoice(stake)
      modifies this
      ensures habitDescription == habit && category == cat && durationWeeks == weeks
      ensures stakeAmount == stake && buddyEmail == email
      ensures isSubmitting == old(isSubmitting) && error == old(error)
      ensures Valid()
    {
      habitDescription, category, durationWeeks, stakeAmount, buddyEmail := habit, cat, weeks, stake, email;
    }

    /** The arguments `handleSubmit` passes to `create_bet`. */
    function Args(): (a: CreateBetArgs)
      reads this
      ensures a.habitDescription == habitDescription && a.category == category
      ensures a.stakeAmount == stakeAmount && a.durationWeeks == durationWeeks
      ensures a.stakeAmount * a.durationWeeks == PotentialWin()
      ensures (a.buddyEmail, a.buddyRelationship) == BuddyFields(buddyEmail)
    {
      var buddy := BuddyFields(buddyEmail);
      CreateBetArgs(habitDescription, category, stakeAmount, durationWeeks, buddy.0, buddy.1)
    }

    /** `handleSubmit`: success navigates to the new bet; a failure shows the
        thrown error's message, or "Failed to create bet" when it is not an
        `Error`. `isSubmitting` is false afterwards in every case. */
    method Submit(outcome: CreateOutcome) returns (sent: CreateBetArgs, navigateTo: Option<string>)
      modifies this
      ensures sent == old(Args())
      ensures !isSubmitting
      ensures outcome.CreateOk? ==> navigateTo == Some(outcome.betId) && error == None
      ensures outcome.CreateFailed? ==>
        navigateTo == None && error == Some(ThrownMessage(outcome.thrown, "Failed to create bet"))
      ensures habitDescription == old(habitDescription) && category == old(category)
      ensures durationWeeks == old(durationWeeks) && stakeAmount == old(stakeAmount) && buddyEmail == old(buddyEmail)
    {
      isSubmitting := true;
      error := None;
      sent := Args();
      match outcome {
        case CreateOk(betId) =>
          navigateTo := Some(betId);
        case CreateFailed(thrown) =>
          navigateTo := None;
          error := Some(ThrownMessage(thrown, "Failed to create bet"));
      }
      isSubmitting := false;
    }
  }
}
