/**
 * The animation coordinator (Services/AnimationService.cs): starts, stops and
 * restarts the letter, dot and wave storyboards against one render target.
 *
 * Every operation validates only that the target is present, then begins or stops
 * each present storyboard in a fixed order inside one try block. It reports through
 * two events, appended here to `events` in the order they are raised, and returns
 * whether it succeeded.
 */
module AnimationServices {
  import opened Wrappers
  import opened Media

  datatype ServiceEvent = AnimationError(message: string) | AnimationStateChanged(isAnimating: bool)

  /** The message of the ArgumentNullException thrown for a missing target. */
  const NULL_TARGET_MESSAGE: string := "Target element cannot be null (Parameter 'target')"

  const START_FAILED: string := "Failed to start animations: "
  const START_DOTS_FAILED: string := "Failed to start animations with independent dots: "
  const STOP_FAILED: string := "Failed to stop animations: "
  const STOP_DOTS_FAILED: string := "Failed to stop animations with independent dots: "

  /** Only the target is checked; absent storyboards are allowed. */
  function ValidateParameters(target: FrameworkElement?): (fault: Option<string>)
    ensures fault.None? <==> target != null
    ensures fault.Some? ==> fault.value == NULL_TARGET_MESSAGE
  {
    if target == null then Some(NULL_TARGET_MESSAGE) else None
  }

  /** How far an operation gets through `order`: nowhere without a target. */
  function Progress(target: FrameworkElement?, order: seq<Storyboard?>, begin: bool): (n: nat)
    ensures n <= |order|
    ensures target == null ==> n == 0
  {
    if target == null then 0 else FirstFault(order, begin)
  }

  /** The message of the exception an operation over `order` ends with, if any. */
  function Outcome(target: FrameworkElement?, order: seq<Storyboard?>, begin: bool): (fault: Option<string>)
    ensures fault.None? <==> target != null && FirstFault(order, begin) == |order|
    ensures target == null ==> fault == Some(NULL_TARGET_MESSAGE)
  {
    if target == null then ValidateParameters(target) else FaultMessage(order, begin)
  }

  /** The one event an operation raises: the state change on success, the error otherwise. */
  function Reported(context: string, fault: Option<string>, isAnimating: bool): (e: ServiceEvent)
    ensures e.AnimationStateChanged? <==> fault.None?
    ensures e.AnimationStateChanged? ==> e.isAnimating == isAnimating
    ensures e.AnimationError? ==> e.message == context + fault.value
  {
    if fault.None? then AnimationStateChanged(isAnimating) else AnimationError(context + fault.value)
  }

  /**
   * The events a restart raises, given the outcomes of its stop and its start: the
   * stop's error alone, or the stop's state change followed by the start's event.
   */
  function RestartEvents(stopContext: string, startContext: string, stopFault: Option<string>,
                         startFault: Option<string>): (es: seq<ServiceEvent>)
    ensures stopFault.Some? ==> es == [Reported(stopContext, stopFault, false)]
    ensures stopFault.None? ==> es == [AnimationStateChanged(false), Reported(startContext, startFault, true)]
  {
    if stopFault.Some? then [AnimationError(stopContext + stopFault.value)]
    else [AnimationStateChanged(false), Reported(startContext, startFault, true)]
  }

  class AnimationService {
    var events: seq<ServiceEvent>

    constructor ()
      ensures events == []
    {
      events := [];
    }

    /** Begins `a`, `b`, `c` in that order after validating the target; shared by both start variants. */
    method Start(context: string, target: FrameworkElement?, a: Storyboard?, b: Storyboard?, c: Storyboard?)
      returns (ok: bool)
      modifies this`events, a, b, c
      ensures ok <==> Outcome(target, [a, b, c], true).None?
      ensures events == old(events) + [Reported(context, Outcome(target, [a, b, c], true), true)]
      ensures SwitchedUpTo([a, b, c], Progress(target, [a, b, c], true), true)
      ensures forall s: Storyboard | s in [a, b, c] :: s.Content() == old(s.Content())
    {
      var fault := ValidateParameters(target);
      if fault.None? {
        fault := BeginEach(a, b, c);
      }
      if fault.None? {
        events := events + [AnimationStateChanged(true)];
        ok := true;
      } else {
        events := events + [AnimationError(context + fault.value)];
        ok := false;
      }
    }

    /** Stops `a`, `b`, `c` in that order after validating the target; shared by both stop variants. */
    method Stop(context: string, target: FrameworkElement?, a: Storyboard?, b: Storyboard?, c: Storyboard?)
      returns (ok: bool)
      modifies this`events, a, b, c
      ensures ok <==> Outcome(target, [a, b, c], false).None?
      ensures events == old(events) + [Reported(context, Outcome(target, [a, b, c], false), false)]
      ensures SwitchedUpTo([a, b, c], Progress(target, [a, b, c], false), false)
      ensures forall s: Storyboard | s in [a, b, c] :: s.Content() == old(s.Content())
    {
      var fault := ValidateParameters(target);
      if fault.None? {
        fault := StopEach(a, b, c);
      }
      if fault.None? {
        events := events + [AnimationStateChanged(false)];
        ok := true;
      } else {
        events := events + [AnimationError(context + fault.value)];
        ok := false;
      }
    }

    /** Begins letters, dots, wave. */
    method StartAnimations(target: FrameworkElement?, letters: Storyboard?, dots: Storyboard?, wave: Storyboard?)
      returns (ok: bool)
      modifies this`events, letters, dots, wave
      ensures ok <==> Outcome(target, [letters, dots, wave], true).None?
      ensures events == old(events) + [Reported(START_FAILED, Outcome(target, [letters, dots, wave], true), true)]
      ensures SwitchedUpTo([letters, dots, wave], Progress(target, [letters, dots, wave], true), true)
      ensures forall s: Storyboard | s in [letters, dots, wave] :: s.Content() == old(s.Content())
    {
      ok := Start(START_FAILED, target, letters, dots, wave);
    }

    /** Begins letters, wave, then the independently timed dots. */
    method StartAnimationsWithIndependentDots(target: FrameworkElement?, letters: Storyboard?, dots: Storyboard?,
                                              wave: Storyboard?)
      returns (ok: bool)
      modifies this`events, letters, dots, wave
      ensures ok <==> Outcome(target, [letters, wave, dots], true).None?
      ensures events == old(events) + [Reported(START_DOTS_FAILED, Outcome(target, [letters, wave, dots], true), true)]
      ensures SwitchedUpTo([letters, wave, dots], Progress(target, [letters, wave, dots], true), true)
      ensures forall s: Storyboard | s in [letters, dots, wave] :: s.Content() == old(s.Content())
    {
      ok := Start(START_DOTS_FAILED, target, letters, wave, dots);
    }

    /** Stops letters, dots, wave; stopping storyboards that are not running succeeds. */
    method StopAnimations(target: FrameworkElement?, letters: Storyboard?, dots: Storyboard?, wave: Storyboard?)
      returns (ok: bool)
      modifies this`events, letters, dots, wave
      ensures ok <==> Outcome(target, [letters, dots, wave], false).None?
      ensures events == old(events) + [Reported(STOP_FAILED, Outcome(target, [letters, dots, wave], false), false)]
      ensures SwitchedUpTo([letters, dots, wave], Progress(target, [letters, dots, wave], false), false)
      ensures forall s: Storyboard | s in [letters, dots, wave] :: s.Content() == old(s.Content())
    {
      ok := Stop(STOP_FAILED, target, letters, dots, wave);
    }

    /** Stops letters, dots, wave (the same order as StopAnimations). */
    method StopAnimationsWithIndependentDots(target: FrameworkElement?, letters: Storyboard?, dots: Storyboard?,
                                             wave: Storyboard?)
      returns (ok: bool)
      modifies this`events, letters, dots, wave
      ensures ok <==> Outcome(target, [letters, dots, wave], false).None?
      ensures events == old(events) + [Reported(STOP_DOTS_FAILED, Outcome(target, [letters, dots, wave], false), false)]
      ensures SwitchedUpTo([letters, dots, wave], Progress(target, [letters, dots, wave], false), false)
      ensures forall s: Storyboard | s in [letters, dots, wave] :: s.Content() == old(s.Content())
    {
      ok := Stop(STOP_DOTS_FAILED, target, letters, dots, wave);
    }

    /**
     * Stop, then Start; when Stop fails, Start is not attempted. The outer catch of
     * the source is unreachable: Stop and Start never throw.
     */
    method RestartAnimations(target: FrameworkElement?, letters: Storyboard?, dots: Storyboard?, wave: Storyboard?)
      returns (ok: bool)
      modifies this`events, letters, dots, wave
      ensures var order := [letters, dots, wave];
        var stopped := Outcome(target, order, false);
        var started := Outcome(target, order, true);
        && (ok <==> stopped.None? && started.None?)
        && events == old(events) + RestartEvents(STOP_FAILED, START_FAILED, stopped, started)
        && if stopped.Some? then
          SwitchedUpTo(order, Progress(target, order, false), false)
        else
          forall k :: 0 <= k < 3 && order[k] != null ==>
               order[k].active == (order[k] in order[..Progress(target, order, true)])
      ensures forall s: Storyboard | s in [letters, dots, wave] :: s.Content() == old(s.Content())
    {
      ok := StopAnimations(target, letters, dots, wave);
      if !ok {
        return false;
      }
      ok := StartAnimations(target, letters, dots, wave);
    }

    /** Stop (letters, dots, wave), then Start (letters, wave, dots); aborts when Stop fails. */
    method RestartAnimationsWithIndependentDots(target: FrameworkElement?, letters: Storyboard?, dots: Storyboard?,
                                                wave: Storyboard?)
      returns (ok: bool)
      modifies this`events, letters, dots, wave
      ensures var stopOrder := [letters, dots, wave];
        var startOrder := [letters, wave, dots];
        var stopped := Outcome(target, stopOrder, false);
        var started := Outcome(target, startOrder, true);
        && (ok <==> stopped.None? && started.None?)
        && events == old(events) + RestartEvents(STOP_DOTS_FAILED, START_DOTS_FAILED, stopped, started)
        && if stopped.Some? then
          SwitchedUpTo(stopOrder, Progress(target, stopOrder, false), false)
        else
          forall k :: 0 <= k < 3 && startOrder[k] != null ==>
               startOrder[k].active == (startOrder[k] in startOrder[..Progress(target, startOrder, true)])
      ensures forall s: Storyboard | s in [letters, dots, wave] :: s.Content() == old(s.Content())
    {
      ok := StopAnimationsWithIndependentDots(target, letters, dots, wave);
      if !ok {
        return false;
      }
      ok := StartAnimationsWithIndependentDots(target, letters, dots, wave);
    }
  }

  /** A missing target fails Start, Stop and Restart before any storyboard is touched. */
  lemma NullTargetTouchesNothing(order: seq<Storyboard?>, begin: bool)
    ensures Progress(null, order, begin) == 0
    ensures Outcome(null, order, begin) == Some(NULL_TARGET_MESSAGE)
  {
  }

  /** With a target and no storyboard that throws, an operation gets through every storyboard. */
  lemma {:induction false} NoFaultReachesAll(target: FrameworkElement, order: seq<Storyboard?>, begin: bool)
    requires forall k :: 0 <= k < |order| && order[k] != null ==> FaultOf(order[k], begin).None?
    ensures Progress(target, order, begin) == |order|
    ensures Outcome(target, order, begin).None?
  {
    if order != [] {
      NoFaultReachesAll(target, order[1..], begin);
    }
  }

  /** Absent storyboards never make an operation fail: only the target and present storyboards matter. */
  lemma {:induction false} AbsentStoryboardsSkipped(target: FrameworkElement, order: seq<Storyboard?>, begin: bool)
    requires forall k :: 0 <= k < |order| ==> order[k] == null
    ensures Outcome(target, order, begin).None?
  {
    if order != [] {
      AbsentStoryboardsSkipped(target, order[1..], begin);
    }
  }
}
