/**
 * The first-run tutorial of components/views/TutorialView.tsx: a carousel of
 * five cards with one state cell, the index of the card shown.
 */
module Tutorial {
  import opened Wrappers
  import Text

  /** The number of cards (lines 16-42). */
  const StepCount: nat := 5
  const LastStep: nat := StepCount - 1

  /** The translation keys of each card's title and text, in order. */
  const TitleKeys: seq<string> :=
    ["tutorial_welcome_title", "tutorial_step1_title", "tutorial_step2_title", "tutorial_step3_title", "tutorial_step4_title"]
  const TextKeys: seq<string> :=
    ["tutorial_welcome_text", "tutorial_step1_text", "tutorial_step2_text", "tutorial_step3_text", "tutorial_step4_text"]

  /** The outcome of pressing the primary button. */
  datatype Press = Press(step: nat, finished: bool)

  /** `nextStep` (lines 48-54): advance, or on the last card call `onFinish` and stay. */
  function Next(step: nat): (p: Press)
    requires step < StepCount
    ensures p.step < StepCount
    ensures p.finished <==> step == LastStep
    ensures p.finished ==> p.step == step
    ensures !p.finished ==> p.step == step + 1
  {
    if step < StepCount - 1 then Press(step + 1, false) else Press(step, true)
  }

  /** `prevStep` (lines 56-60): go back one card; the first card has nowhere to go. */
  function Prev(step: nat): (s: nat)
    requires step < StepCount
    ensures s < StepCount
    ensures step > 0 ==> s == step - 1
    ensures step == 0 ==> s == 0
  {
    if step > 0 then step - 1 else step
  }

  /** Back undoes Next on every card but the last. */
  lemma PrevUndoesNext(step: nat)
    requires step < LastStep
    ensures Prev(Next(step).step) == step && !Next(step).finished
  {
  }

  /** Next undoes Back on every card but the first. */
  lemma NextUndoesPrev(step: nat)
    requires 0 < step < StepCount
    ensures Next(Prev(step)) == Press(step, false)
  {
  }

  /** A button press on an open tutorial. */
  datatype Button = NextButton | BackButton | SkipButton

  /** The left button (lines 83-91): Skip on the first card, Back on the others. */
  function LeftButton(step: nat): (b: Button)
    ensures b == SkipButton <==> step == 0
    ensures b != NextButton
  {
    if step > 0 then BackButton else SkipButton
  }

  /** The primary label (line 94): Finish on the last card, Next (with an arrow, line 95) before it. */
  function PrimaryLabelKey(step: nat): (key: string)
    ensures key == "finish_tutorial" <==> step == LastStep
    ensures key == "next_button" <==> step != LastStep
  {
    if step == LastStep then "finish_tutorial" else "next_button"
  }

  /** What the view renders (lines 44-98); a closed tutorial renders nothing (line 46). */
  datatype Card = Card(titleKey: string, textKey: string, dots: seq<bool>, left: Button, primaryKey: string, arrow: bool)

  function Render(isOpen: bool, step: nat): (c: Option<Card>)
    requires step < StepCount
    ensures c.None? <==> !isOpen
    ensures c.Some? ==> |c.value.dots| == StepCount
    ensures c.Some? ==> forall i :: 0 <= i < StepCount ==> (c.value.dots[i] <==> i == step)
    ensures c.Some? ==> (c.value.arrow <==> step < LastStep)
  {
    if !isOpen then None
    else
      Some(Card(TitleKeys[step], TextKeys[step], seq(StepCount, i => i == step),
                LeftButton(step), PrimaryLabelKey(step), step < LastStep))
  }

  /**
   * The result of a sequence of presses: the card shown at the end and whether
   * `onFinish` was called. Skip calls `onFinish` without moving.
   */
  function Run(step: nat, presses: seq<Button>): (r: Press)
    requires step < StepCount
    ensures r.step < StepCount
    decreases |presses|
  {
    if presses == [] then Press(step, false)
    else
      var b := presses[0];
      var here :=
        if b == NextButton then Next(step)
        else if b == BackButton && step > 0 then Press(Prev(step), false)
        else if b == SkipButton && step == 0 then Press(step, true)
        else Press(step, false);
      var rest := Run(here.step, presses[1..]);
      Press(rest.step, here.finished || rest.finished)
  }

  /** Pressing Next `k` times from card `step` shows card `step + k` without finishing, while that card exists. */
  lemma {:induction false} NextPresses(step: nat, k: nat)
    requires step + k < StepCount
    ensures Run(step, Text.Repeat(NextButton, k)) == Press(step + k, false)
    decreases k
  {
    if k > 0 {
      assert Text.Repeat(NextButton, k)[1..] == Text.Repeat(NextButton, k - 1);
      NextPresses(step + 1, k - 1);
    }
  }

  /** Only the fifth Next press from the first card finishes the tutorial. */
  lemma FinishAfterFivePresses()
    ensures Run(0, Text.Repeat(NextButton, StepCount - 1)) == Press(LastStep, false)
    ensures Run(0, Text.Repeat(NextButton, StepCount)) == Press(LastStep, true)
  {
    NextPresses(0, StepCount - 1);
    var bs := Text.Repeat(NextButton, StepCount);
    assert bs == Text.Repeat(NextButton, StepCount - 1) + [NextButton];
    RunAppend(0, Text.Repeat(NextButton, StepCount - 1), [NextButton]);
  }

  /** Presses compose: running `a + b` is running `a` and then `b` from where `a` ended. */
  lemma {:induction false} RunAppend(step: nat, a: seq<Button>, b: seq<Button>)
    requires step < StepCount
    ensures var ra := Run(step, a);
            var rb := Run(ra.step, b);
            Run(step, a + b) == Press(rb.step, ra.finished || rb.finished)
    decreases |a|
  {
    if a != [] {
      assert (a + b)[0] == a[0] && (a + b)[1..] == a[1..] + b;
      var b0 := a[0];
      var here :=
        if b0 == NextButton then Next(step)
        else if b0 == BackButton && step > 0 then Press(Prev(step), false)
        else if b0 == SkipButton && step == 0 then Press(step, true)
        else Press(step, false);
      RunAppend(here.step, a[1..], b);
    } else {
      assert a + b == b;
    }
  }

  /** The carousel: the card index is its only state. */
  class Carousel {
    var step: nat

    ghost predicate Valid()
      reads this
    {
      step < StepCount
    }

    /** A mounted tutorial starts on the welcome card (line 14). */
    constructor ()
      ensures Valid() && step == 0
    {
      step := 0;
    }

    /** The primary button; `finish` reports the call to `onFinish`. */
    method PressNext() returns (finish: bool)
      requires Valid()
      modifies this
      ensures Valid()
      ensures Press(step, finish) == Next(old(step))
    {
      if step < StepCount - 1 {
        step := step + 1;
        finish := false;
      } else {
        finish := true;
      }
    }

    /** The left button: Back on a later card, Skip (a call to `onFinish`) on the first. */
    method PressLeft() returns (finish: bool)
      requires Valid()
      modifies this
      ensures Valid()
      ensures finish <==> old(step) == 0
      ensures step == Prev(old(step))
    {
      if step > 0 {
        step := step - 1;
        finish := false;
      } else {
        finish := true;
      }
    }
  }
}
