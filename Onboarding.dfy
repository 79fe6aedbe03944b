/**
 * The first-run walkthrough (js/onboarding.js): a step counter over a fixed list of
 * three steps, what each step shows as buttons and progress dots, and where
 * finishing leads.
 */
module Onboarding {
  import opened JsText

  /** The titles of the three steps; their HTML bodies are not modelled. */
  const StepTitles: seq<string> := ["Welcome to FleetFox! \U{1F98A}", "Photo Guidelines \U{1F4F8}", "AI Quality Check \U{1F916}"]

  const LastStep: int := |StepTitles| - 1

  datatype PrimaryButton = NextButton | GetStartedButton

  datatype Dot = ActiveDot | CompletedDot | PendingDot

  /** What `show` renders for a step. */
  datatype Screen = Screen(title: string, back: bool, primary: PrimaryButton, dots: seq<Dot>)

  /** The dots: the current one active, the earlier ones completed. */
  function Dots(step: int): (d: seq<Dot>)
    ensures |d| == |StepTitles|
    ensures forall i :: 0 <= i < |d| ==> (d[i] == ActiveDot <==> i == step)
    ensures forall i :: 0 <= i < |d| ==> (d[i] == CompletedDot <==> i < step)
  {
    seq(|StepTitles|, i requires 0 <= i < |StepTitles| => if i == step then ActiveDot else if i < step then CompletedDot else PendingDot)
  }

  /** Back appears past the first step; the last step offers "Get Started" in place of Next. */
  function ScreenFor(step: int): (s: Screen)
    requires 0 <= step <= LastStep
    ensures s.title == StepTitles[step]
    ensures s.back <==> step > 0
    ensures s.primary == GetStartedButton <==> step == LastStep
    ensures s.dots == Dots(step)
  {
    Screen(StepTitles[step], step > 0, if step < LastStep then NextButton else GetStartedButton, Dots(step))
  }

  /** Exactly one dot is active on every screen. */
  lemma OneActiveDot(step: int, i: int, j: int)
    requires 0 <= step <= LastStep
    requires 0 <= i < |StepTitles| && 0 <= j < |StepTitles|
    requires Dots(step)[i] == ActiveDot && Dots(step)[j] == ActiveDot
    ensures i == j == step
  {
  }

  datatype Move = Forward | Backward

  function Step(step: int, m: Move): int {
    match m
    case Forward => if step < LastStep then step + 1 else step
    case Backward => if step > 0 then step - 1 else step
  }

  /** The step after a sequence of Next and Back clicks. */
  function Run(step: int, moves: seq<Move>): int
    decreases |moves|
  {
    if moves == [] then step else Run(Step(step, moves[0]), moves[1..])
  }

  /** No sequence of clicks leaves the three steps. */
  lemma {:induction false} RunStaysInRange(step: int, moves: seq<Move>)
    requires 0 <= step <= LastStep
    ensures 0 <= Run(step, moves) <= LastStep
    decreases |moves|
  {
    if moves != [] {
      RunStaysInRange(Step(step, moves[0]), moves[1..]);
    }
  }

  /** Next then Back returns to a step that was not the last; at the ends the buttons do nothing. */
  lemma NextThenBack(step: int)
    requires 0 <= step <= LastStep
    ensures step < LastStep ==> Run(step, [Forward, Backward]) == step
    ensures Step(LastStep, Forward) == LastStep && Step(0, Backward) == 0
  {
  }

  class Walkthrough {
    var currentStep: int
    /** The screen last rendered, if any. */
    var screen: Option<Screen>

    ghost predicate Valid()
      reads this
    {
      0 <= currentStep <= LastStep
    }

    constructor()
      ensures Valid() && currentStep == 0 && screen == None
    {
      currentStep := 0;
      screen := None;
    }

    method Show()
      requires Valid()
      modifies this
      ensures Valid() && currentStep == old(currentStep) && screen == Some(ScreenFor(currentStep))
    {
      screen := Some(ScreenFor(currentStep));
    }

    method Next()
      requires Valid()
      modifies this
      ensures Valid() && currentStep == Step(old(currentStep), Forward)
      ensures old(currentStep) < LastStep ==> screen == Some(ScreenFor(currentStep))
      ensures old(currentStep) == LastStep ==> screen == old(screen)
    {
      if currentStep < LastStep {
        currentStep := currentStep + 1;
        Show();
      }
    }

    method Prev()
      requires Valid()
      modifies this
      ensures Valid() && currentStep == Step(old(currentStep), Backward)
      ensures old(currentStep) > 0 ==> screen == Some(ScreenFor(currentStep))
      ensures old(currentStep) == 0 ==> screen == old(screen)
    {
      if currentStep > 0 {
        currentStep := currentStep - 1;
        Show();
      }
    }
  }

  /** What `complete` does once `completeOnboarding` has answered. */
  datatype Completion = Completion(storedFlag: Option<string>, navigateTo: string)

  /** The localStorage key that marks a user as onboarded. */
  function CompletedKey(userId: string): string {
    "onboarding_completed_" + userId
  }

  /**
   * Every answer leads to /upload. The local flag is written only after a failure
   * that is not a permission/RLS error, and only for a signed-in user.
   */
  function CompletionFor(success: bool, error: Option<string>, userId: Option<string>): (c: Completion)
    ensures c.navigateTo == "/upload"
    ensures c.storedFlag.Some? <==>
              !success && userId.Some?
              && !(Contains(ErrorText(error), "permission") || Contains(ErrorText(error), "RLS"))
    ensures c.storedFlag.Some? ==> c.storedFlag.value == CompletedKey(userId.value)
  {
    if success then Completion(None, "/upload")
    else
      var msg := ErrorText(error);
      if Contains(msg, "permission") || Contains(msg, "RLS") then Completion(None, "/upload")
      else if Contains(msg, "relation") || Contains(msg, "does not exist") then
        Completion(if userId.Some? then Some(CompletedKey(userId.value)) else None, "/upload")
      else
        Completion(if userId.Some? then Some(CompletedKey(userId.value)) else None, "/upload")
  }

  /** `result.error || 'Unknown error'`. */
  function ErrorText(error: Option<string>): string {
    if NonEmpty(error) then error.value else "Unknown error"
  }
}
