/** The bet-creation form of the server-rendered app
    (src/app/bets/new/CreateBetForm.tsx): the stake and duration sliders, the
    payout preview, submit enablement and the submit handler. The form posts
    its fields to the `createBet` action; what the action answers is an input. */
module CreateBet {
  import opened Common
  import RangeInput

  /** The stake slider: `min="10"`, `step="10"`, `max={Math.min(500, balance)}`. */
  const MinStake := 10
  const StakeStep := 10
  const StakeCap := 500

  /** The duration slider: `min="2"`, `max="12"`, step 1. */
  const MinWeeks := 2
  const MaxWeeks := 12

  function StakeMax(balance: int): (m: int)
    ensures m <= StakeCap && m <= balance && (m == StakeCap || m == balance)
  {
    if StakeCap < balance then StakeCap else balance
  }

  /** A stake the slider can hold for this balance. */
  predicate IsStakeChoice(balance: int, v: int) {
    RangeInput.OnSlider(MinStake, StakeMax(balance), StakeStep, v)
  }

  /** A duration the slider can hold. */
  predicate IsDurationChoice(w: int) {
    RangeInput.OnSlider(MinWeeks, MaxWeeks, 1, w)
  }

  /** The stake the form submits (and the slider shows) when its state holds `v`. */
  function SubmittedStake(balance: int, v: int): int {
    RangeInput.Sanitize(MinStake, StakeMax(balance), StakeStep, v)
  }

  /** Stake choices run from 10 in steps of 10 up to min(500, balance); with a
      balance under 10 the only position is 10. */
  lemma StakeChoices(balance: int, v: int)
    ensures IsStakeChoice(balance, v) ==> MinStake <= v <= StakeCap && v % StakeStep == 0
    ensures IsStakeChoice(balance, v) && balance >= MinStake ==> v <= balance
    ensures balance < MinStake ==> (IsStakeChoice(balance, v) <==> v == MinStake)
    ensures MinStake <= v <= StakeMax(balance) && v % StakeStep == 0 ==> IsStakeChoice(balance, v)
  {
  }

  /** The initial stake as written: `useState(50)`. */
  const InitialStakeAsWritten := 50

  /** With a balance of 35 the slider's maximum is 35, so it holds and submits 30
      while the preview and the button announce a stake of 50 and a payout of
      50 × 4 = 200. */
  lemma InitialStakeMismatchAsWritten()
    ensures SubmittedStake(35, InitialStakeAsWritten) == 30
    ensures SubmittedStake(35, InitialStakeAsWritten) != InitialStakeAsWritten
  {
    var r := SubmittedStake(35, InitialStakeAsWritten);
    assert RangeInput.OnSlider(10, 35, 10, 30);
    assert RangeInput.Clamp(10, 35, 50) == 35;
    assert RangeInput.Distance(r, 35) <= 5;
  }

  /** The intended initial stake: 50 when the slider can hold it, otherwise the
      position the slider moves it to. */
  function InitialStake(balance: int): (s: int)
    ensures IsStakeChoice(balance, s)
    ensures SubmittedStake(balance, s) == s
    ensures IsStakeChoice(balance, InitialStakeAsWritten) ==> s == InitialStakeAsWritten
  {
    SubmittedStake(balance, InitialStakeAsWritten)
  }

  /** Whatever the slider holds is exactly what the form submits. */
  lemma PreviewMatchesSubmission(balance: int, v: int)
    requires IsStakeChoice(balance, v)
    ensures SubmittedStake(balance, v) == v
  {
  }

  /** How the `createBet` action answered: `{ error }` or `{ betId }`, or the
      call was rejected (a transport failure or a throw inside the action). */
  datatype CreateResult = CreateError(message: string) | CreateOk(betId: string) | CreateRejected

  /** What the handler does after the action settles. `Navigate(None)` is the
      route `/bets/undefined`, taken when an error result has an empty message.
      `Stuck` is a rejected call: the handler has no `catch`, so nothing
      further happens. */
  datatype AfterSubmit = ShowError | Navigate(betId: Option<string>) | Stuck

  class CreateBetForm {
    const balance: int
    var isSubmitting: bool
    var error: Option<string>
    var showBuddyFields: bool
    var stakeAmount: int
    var durationWeeks: int

    /** The states the form can reach: the duration slider holds one of its
        positions, and the stake state is either the initial 50 (which the
        slider may not be able to show) or a position the slider reported. */
    predicate Valid()
      reads this
    {
      (stakeAmount == InitialStakeAsWritten || IsStakeChoice(balance, stakeAmount)) &&
      IsDurationChoice(durationWeeks)
    }

    constructor(balance: int)
      ensures this.balance == balance
      ensures stakeAmount == InitialStakeAsWritten && durationWeeks == 4
      ensures !isSubmitting && error == None && !showBuddyFields
      ensures Valid()
    {
      this.balance := balance;
      isSubmitting := false;
      error := None;
      showBuddyFields := false;
      stakeAmount := InitialStakeAsWritten;
      durationWeeks := 4;
    }

    /** `stakeAmount * durationWeeks` */
    function PotentialPayout(): int
      reads this
    {
      stakeAmount * durationWeeks
    }

    /** The previewed payout lies between 10 × 2 and 500 × 12. Once the stake
        slider has reported a position, and for the stake actually posted,
        it never exceeds twelve times a balance that allows a bet; the
        initial 50 can exceed it (50 × 12 = 600 > 12 × 35). */
    lemma PayoutBounds()
      requires Valid()
      ensures 20 <= PotentialPayout() <= 6000
      ensures IsStakeChoice(balance, stakeAmount) && balance >= MinStake ==> PotentialPayout() <= 12 * balance
      ensures balance >= MinStake ==> SubmittedStake(balance, stakeAmount) * durationWeeks <= 12 * balance
    {
      var s, w := stakeAmount, durationWeeks;
      var p := SubmittedStake(balance, s);
      StakeChoices(balance, s);
      StakeChoices(balance, p);
      assert 10 * 2 <= s * 2 <= s * w by { RangeInput.MonotoneTimes(2, w, s); }
      assert s * w <= s * 12 by { RangeInput.MonotoneTimes(w, 12, s); }
      assert s * 12 <= 500 * 12;
      if balance >= MinStake {
        assert p * w <= p * 12 by { RangeInput.MonotoneTimes(w, 12, p); }
        assert p * 12 <= balance * 12 by { RangeInput.MonotoneTimes(p, balance, 12); }
      }
    }

    /** The stake slider's `onChange`. */
    method SetStake(v: int)
      requires IsStakeChoice(balance, v)
      modifies this
      ensures stakeAmount == v
      ensures durationWeeks == old(durationWeeks) && isSubmitting == old(isSubmitting)
      ensures error == old(error) && showBuddyFields == old(showBuddyFields)
      ensures old(Valid()) ==> Valid()
    {
      stakeAmount := v;
    }

    /** The duration slider's `onChange`. */
    method SetDuration(w: int)
      requires IsDurationChoice(w)
      modifies this
      ensures durationWeeks == w
      ensures stakeAmount == old(stakeAmount) && isSubmitting == old(isSubmitting)
      ensures error == old(error) && showBuddyFields == old(showBuddyFields)
      ensures old(Valid()) ==> Valid()
    {
      durationWeeks := w;
    }

    /** The "Add buddy" / "Remove" button. */
    method ToggleBuddyFields()
      modifies this
      ensures showBuddyFields == !old(showBuddyFields)
      ensures stakeAmount == old(stakeAmount) && durationWeeks == old(durationWeeks)
      ensures isSubmitting == old(isSubmitting) && error == old(error)
    {
      showBuddyFields := !showBuddyFields;
    }

    /** `isSubmitting || balance < 10` */
    predicate SubmitDisabled()
      reads this
    {
      isSubmitting || balance < MinStake
    }

    /** The button refuses a balance that cannot cover the smallest stake, and a
        submission it allows never posts more than the balance. */
    lemma EnabledSubmitWithinBalance()
      ensures balance < MinStake ==> SubmitDisabled()
      ensures !SubmitDisabled() ==> MinStake <= SubmittedStake(balance, stakeAmount) <= balance
    {
      StakeChoices(balance, SubmittedStake(balance, stakeAmount));
    }

    /** `handleSubmit`, given the action's answer. Returns the stake the form
        posted (the slider's value, which is the state only when the slider
        can hold it) and what the page does next: a non-empty error is shown
        and re-enables the form; a rejected call leaves the form submitting
        with no error shown; anything else navigates to the bet. */
    method Submit(result: CreateResult) returns (postedStake: int, next: AfterSubmit)
      modifies this
      ensures postedStake == SubmittedStake(balance, stakeAmount) && stakeAmount == old(stakeAmount)
      ensures IsStakeChoice(balance, postedStake)
      ensures IsStakeChoice(balance, stakeAmount) <==> postedStake == stakeAmount
      ensures next == ShowError <==> result.CreateError? && Truthy(result.message)
      ensures next == ShowError ==> error == Some(result.message) && !isSubmitting
      ensures next.Navigate? ==> error == None && isSubmitting
      ensures result.CreateOk? ==> next == Navigate(Some(result.betId))
      ensures next == Stuck <==> result.CreateRejected?
      ensures next == Stuck ==> isSubmitting && error == None
      ensures durationWeeks == old(durationWeeks) && showBuddyFields == old(showBuddyFields)
      ensures old(Valid()) ==> Valid()
    {
      isSubmitting := true;
      error := None;
      postedStake := SubmittedStake(balance, stakeAmount);
      match result {
        case CreateError(message) =>
          if Truthy(message) {
            error := Some(message);
            isSubmitting := false;
            next := ShowError;
          } else {
            next := Navigate(None);
          }
        case CreateOk(betId) =>
          next := Navigate(Some(betId));
        case CreateRejected =>
          next := Stuck;
      }
    }
  }
}
