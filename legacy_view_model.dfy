/**
 * The older view model (LogoViewModel.cs at the project root), which drives the
 * storyboards itself instead of going through the animation service.
 *
 * Its setters are not change-guarded: every assignment notifies, and every
 * assignment of `IsAnimating` rewrites the status.
 */
module LegacyViewModel {
  import opened Wrappers
  import opened Media

  datatype Property = IsAnimatingProperty | StatusMessageProperty

  const READY_STATUS: string := "Logo ready"
  const RUNNING_STATUS: string := "Animations running..."
  const STOPPED_STATUS: string := "Animations stopped"
  const ANIMATION_ERROR_PREFIX: string := "Animation error: "
  const STOP_ERROR_PREFIX: string := "Stop animation error: "

  datatype Status = Status(isAnimating: bool, statusMessage: string, changed: seq<Property>)
  {
    /** The StatusMessage setter: always assigns and notifies. */
    function SetStatusMessage(m: string): (r: Status)
      ensures r.isAnimating == isAnimating && r.statusMessage == m
      ensures r.changed == changed + [StatusMessageProperty]
    {
      Status(isAnimating, m, changed + [StatusMessageProperty])
    }

    /** The IsAnimating setter: always assigns, notifies, and rewrites the status, even for the current value. */
    function SetIsAnimating(v: bool): (r: Status)
      ensures r.isAnimating == v
      ensures r.statusMessage == if v then RUNNING_STATUS else STOPPED_STATUS
      ensures r.changed == changed + [IsAnimatingProperty, StatusMessageProperty]
    {
      Status(v, statusMessage, changed + [IsAnimatingProperty]).SetStatusMessage(if v then RUNNING_STATUS else STOPPED_STATUS)
    }

    /**
     * StartAnimations once the storyboards have been begun, given the exception thrown,
     * if any. A start that does not throw animates; one that throws always ends with
     * STOPPED_STATUS: the error text is written and then overwritten by the setter.
     */
    function AfterStart(fault: Option<string>): (r: Status)
      ensures r.isAnimating <==> fault.None?
      ensures r.statusMessage == if fault.None? then RUNNING_STATUS else STOPPED_STATUS
    {
      if fault.None? then SetIsAnimating(true)
      else SetStatusMessage(ANIMATION_ERROR_PREFIX + fault.value).SetIsAnimating(false)
    }

    /**
     * StopAnimations once the storyboards have been stopped, given the exception thrown,
     * if any. A stop that throws reports the error and leaves IsAnimating as it was.
     */
    function AfterStop(fault: Option<string>): (r: Status)
      ensures fault.None? ==> !r.isAnimating && r.statusMessage == STOPPED_STATUS
      ensures fault.Some? ==> r.isAnimating == isAnimating && r.statusMessage == STOP_ERROR_PREFIX + fault.value
    {
      if fault.None? then SetIsAnimating(false)
      else SetStatusMessage(STOP_ERROR_PREFIX + fault.value)
    }
  }

  /** Restart is Stop then Start, whatever Stop did: the start alone decides the final state. */
  lemma RestartOutcome(s: Status, stopFault: Option<string>, startFault: Option<string>)
    ensures var r := s.AfterStop(stopFault).AfterStart(startFault);
      && (r.isAnimating <==> startFault.None?)
      && r.statusMessage == if startFault.None? then RUNNING_STATUS else STOPPED_STATUS
  {
  }

  class LogoViewModel {
    var isAnimating: bool
    var statusMessage: string
    var changed: seq<Property>

    function State(): Status
      reads this
    {
      Status(isAnimating, statusMessage, changed)
    }

    /** Not animating, status "Logo ready" (set through the setter, so notified once). */
    constructor ()
      ensures State() == Status(false, READY_STATUS, [StatusMessageProperty])
    {
      isAnimating := false;
      statusMessage := READY_STATUS;
      changed := [StatusMessageProperty];
    }

    method SetStatusMessage(value: string)
      modifies this`statusMessage, this`changed
      ensures State() == old(State()).SetStatusMessage(value)
    {
      statusMessage := value;
      changed := changed + [StatusMessageProperty];
    }

    method SetIsAnimating(value: bool)
      modifies this`isAnimating, this`statusMessage, this`changed
      ensures State() == old(State()).SetIsAnimating(value)
    {
      isAnimating := value;
      changed := changed + [IsAnimatingProperty];
      SetStatusMessage(if value then RUNNING_STATUS else STOPPED_STATUS);
    }

    /** Begins letters, dots, wave in that order; any exception ends the run. */
    method StartAnimations(letters: Storyboard?, dots: Storyboard?, wave: Storyboard?)
      modifies this`isAnimating, this`statusMessage, this`changed, letters, dots, wave
      ensures State() == old(State()).AfterStart(FaultMessage([letters, dots, wave], true))
      ensures SwitchedUpTo([letters, dots, wave], FirstFault([letters, dots, wave], true), true)
      ensures forall s: Storyboard | s in [letters, dots, wave] :: s.Content() == old(s.Content())
    {
      var fault := BeginEach(letters, dots, wave);
      if fault.None? {
        SetIsAnimating(true);
      } else {
        SetStatusMessage(ANIMATION_ERROR_PREFIX + fault.value);
        SetIsAnimating(false);
      }
    }

    /** Stops letters, dots, wave in that order; an exception leaves IsAnimating alone. */
    method StopAnimations(letters: Storyboard?, dots: Storyboard?, wave: Storyboard?)
      modifies this`isAnimating, this`statusMessage, this`changed, letters, dots, wave
      ensures State() == old(State()).AfterStop(FaultMessage([letters, dots, wave], false))
      ensures SwitchedUpTo([letters, dots, wave], FirstFault([letters, dots, wave], false), false)
      ensures forall s: Storyboard | s in [letters, dots, wave] :: s.Content() == old(s.Content())
    {
      var fault := StopEach(letters, dots, wave);
      if fault.None? {
        SetIsAnimating(false);
      } else {
        SetStatusMessage(STOP_ERROR_PREFIX + fault.value);
      }
    }

    /** Stop, then Start, unconditionally. */
    method RestartAnimations(letters: Storyboard?, dots: Storyboard?, wave: Storyboard?)
      modifies this`isAnimating, this`statusMessage, this`changed, letters, dots, wave
      ensures State() == old(State()).AfterStop(FaultMessage([letters, dots, wave], false))
                                     .AfterStart(FaultMessage([letters, dots, wave], true))
      ensures var order := [letters, dots, wave];
        forall k :: 0 <= k < 3 && order[k] != null ==>
          order[k].active == (|| order[k] in order[..FirstFault(order, true)]
                              || (order[k] !in order[..FirstFault(order, false)] && old(order[k].active)))
      ensures forall s: Storyboard | s in [letters, dots, wave] :: s.Content() == old(s.Content())
    {
      StopAnimations(letters, dots, wave);
      StartAnimations(letters, dots, wave);
    }
  }
}
