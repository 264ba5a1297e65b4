/** The one-mother call dialog: a start button, a prompt that appears once
    the call has been ringing for a while (the timer is the `PromptTimer`
    step), and two answer buttons that report an outcome to the page. The
    outcomes reported to the page are recorded in `reported`. */
module SingleCall {

  /** 'answered' | 'pressed_2' — the only results the dialog can report. */
  datatype Result = Answered | Pressed2

  /** The two keys on the prompt. */
  datatype Key = One | Two

  /** The outcome a key press reports. */
  function ResponseFor(pressed: Key): (r: Result)
    ensures r == Answered <==> pressed == One
    ensures r == Pressed2 <==> pressed == Two
  {
    match pressed
    case One => Answered
    case Two => Pressed2
  }

  class SingleCallModal {
    var callStarted: bool
    var showPrompt: bool
    /** Whether the dialog is still mounted (the close button unmounts it). */
    var open: bool
    /** Every result passed to `onComplete`, oldest first. */
    var reported: seq<Result>

    /** The prompt is only ever shown during a call, and a result is only
        ever reported from the prompt. */
    ghost predicate Valid()
      reads this
    {
      && (showPrompt ==> callStarted)
      && (|reported| > 0 ==> showPrompt)
    }

    constructor ()
      ensures Valid()
      ensures !callStarted && !showPrompt && open && reported == []
    {
      callStarted := false;
      showPrompt := false;
      open := true;
      reported := [];
    }

    /** The start button, shown only before the call has started. */
    method StartCall()
      requires Valid() && open && !callStarted
      modifies this
      ensures Valid()
      ensures callStarted && !showPrompt && open && reported == old(reported)
    {
      callStarted := true;
    }

    /** The timer set by `StartCall` firing: the prompt appears. */
    method PromptTimer()
      requires Valid() && callStarted
      modifies this
      ensures Valid()
      ensures callStarted && showPrompt && open == old(open) && reported == old(reported)
    {
      showPrompt := true;
    }

    /** A key on the prompt, which is rendered only while the call is on
        and the prompt is showing: exactly one result is reported. */
    method HandleResponse(pressed: Key)
      requires Valid() && open && callStarted && showPrompt
      modifies this
      ensures Valid()
      ensures reported == old(reported) + [ResponseFor(pressed)]
      ensures callStarted && showPrompt && open
    {
      reported := reported + [ResponseFor(pressed)];
    }

    /** The close button: the dialog goes away and nothing is reported. */
    method Close()
      requires Valid() && open
      modifies this
      ensures Valid()
      ensures !open && reported == old(reported)
      ensures callStarted == old(callStarted) && showPrompt == old(showPrompt)
    {
      open := false;
    }
  }
}
