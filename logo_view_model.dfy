/**
 * The view model of the logo window (ViewModels/LogoViewModel.cs).
 *
 * Its state is the `IsAnimating` flag, the `StatusMessage` text and the property
 * change notifications it raises. Both setters are change-guarded, and a real change
 * of `IsAnimating` rewrites the status to one of two fixed texts. The view model
 * listens to the animation and text services: each event they raise is handled, in
 * the order raised, by the matching handler below.
 */
module ViewModels {
  import opened Wrappers
  import opened AppConstants
  import opened Media
  import opened AnimationServices
  import opened TextManagement

  datatype Property = IsAnimatingProperty | StatusMessageProperty

  const RUNNING_STATUS: string := "Perfect animation: tunnel wave + synchronized letters + loading dots!"
  const STOPPED_STATUS: string := "Animations stopped - Press SPACE to restart"
  const ANIMATION_ERROR_PREFIX: string := "Animation error: "
  const TEXT_ERROR_PREFIX: string := "Text setup error: "

  /** The status UpdateStatusForAnimationState writes for a new `IsAnimating` value. */
  function StatusFor(isAnimating: bool): (m: string)
    ensures m == RUNNING_STATUS <==> isAnimating
    ensures m == STOPPED_STATUS <==> !isAnimating
  {
    if isAnimating then RUNNING_STATUS else STOPPED_STATUS
  }

  /** The view model's observable state, and how each of its operations changes it. */
  datatype Status = Status(isAnimating: bool, statusMessage: string, changed: seq<Property>)
  {
    /** The StatusMessage setter: assigns and notifies only when the text differs. */
    function SetStatusMessage(m: string): (r: Status)
      ensures r.isAnimating == isAnimating && r.statusMessage == m
      ensures r.changed == changed + if m == statusMessage then [] else [StatusMessageProperty]
    {
      if statusMessage != m then Status(isAnimating, m, changed + [StatusMessageProperty]) else this
    }

    /** The IsAnimating setter: on a real change, assigns, notifies, and derives the status. */
    function SetIsAnimating(v: bool): (r: Status)
      ensures r.isAnimating == v
      ensures v == isAnimating ==> r == this
      ensures v != isAnimating ==>
        && r.statusMessage == StatusFor(v)
        && r.changed == changed + [IsAnimatingProperty] + if statusMessage == StatusFor(v) then [] else [StatusMessageProperty]
    {
      if isAnimating != v then
        Status(v, statusMessage, changed + [IsAnimatingProperty]).SetStatusMessage(StatusFor(v))
      else this
    }

    /** OnAnimationError: the error text, then IsAnimating := false, which may overwrite it. */
    function OnAnimationError(message: string): (r: Status)
      ensures !r.isAnimating
      ensures r.statusMessage == if isAnimating then STOPPED_STATUS else ANIMATION_ERROR_PREFIX + message
    {
      SetStatusMessage(ANIMATION_ERROR_PREFIX + message).SetIsAnimating(false)
    }

    /** OnAnimationStateChanged: forwards the new value to the IsAnimating setter. */
    function OnAnimationStateChanged(b: bool): (r: Status)
      ensures r.isAnimating == b
      ensures b == isAnimating ==> r == this
      ensures b != isAnimating ==> r.statusMessage == StatusFor(b)
    {
      SetIsAnimating(b)
    }

    function OnServiceEvent(e: ServiceEvent): Status
    {
      match e
      case AnimationError(m) => OnAnimationError(m)
      case AnimationStateChanged(b) => OnAnimationStateChanged(b)
    }

    /**
     * Handling a list of service events, in order. After a non-empty batch,
     * IsAnimating is what the last event says: its value for a state change, false
     * for an error.
     */
    function OnServiceEvents(es: seq<ServiceEvent>): (r: Status)
      ensures es == [] ==> r == this
      ensures es != [] && es[|es| - 1].AnimationStateChanged? ==> r.isAnimating == es[|es| - 1].isAnimating
      ensures es != [] && es[|es| - 1].AnimationError? ==> !r.isAnimating
    {
      if es == [] then this else OnServiceEvents(es[..|es| - 1]).OnServiceEvent(es[|es| - 1])
    }

    /** Text-setup handlers change the status only. */
    function OnTextEvent(e: TextEvent): (r: Status)
      ensures r.isAnimating == isAnimating
      ensures r.statusMessage == match e
        case TextSetupError(m) => TEXT_ERROR_PREFIX + m
        case TextSetupCompleted(m) => m
    {
      match e
      case TextSetupError(m) => SetStatusMessage(TEXT_ERROR_PREFIX + m)
      case TextSetupCompleted(m) => SetStatusMessage(m)
    }

    /** Handling a list of text events, in order: IsAnimating is never touched, and the last event decides the status. */
    function OnTextEvents(es: seq<TextEvent>): (r: Status)
      ensures r.isAnimating == isAnimating
      ensures es == [] ==> r == this
      ensures es != [] ==> r.statusMessage == OnTextEvent(es[|es| - 1]).statusMessage
    {
      if es == [] then this else OnTextEvents(es[..|es| - 1]).OnTextEvent(es[|es| - 1])
    }

    /** StartAnimations given the service's outcome: the service's one event, then IsAnimating := true on success. */
    function AfterStart(fault: Option<string>): (r: Status)
      ensures r.isAnimating <==> fault.None?
    {
      var s := OnServiceEvent(Reported(START_FAILED, fault, true));
      if fault.None? then s.SetIsAnimating(true) else s
    }

    /** StopAnimations given the service's outcome: not animating afterwards, whether the stop failed or not. */
    function AfterStop(fault: Option<string>): (r: Status)
      ensures !r.isAnimating
      ensures fault.None? ==> r.statusMessage == if isAnimating then STOPPED_STATUS else statusMessage
      ensures fault.Some? ==> r.statusMessage == if isAnimating then STOPPED_STATUS else ANIMATION_ERROR_PREFIX + STOP_FAILED + fault.value
    {
      var s := OnServiceEvent(Reported(STOP_FAILED, fault, false));
      if fault.None? then s.SetIsAnimating(false) else s
    }

    /**
     * RestartAnimations: only the service's events drive the state. It ends animating
     * exactly when both the stop and the start succeed; a failed stop ends with
     * IsAnimating false through the error handler, although storyboards that were
     * running may still be running.
     */
    function AfterRestart(stopFault: Option<string>, startFault: Option<string>): (r: Status)
      ensures r.isAnimating <==> stopFault.None? && startFault.None?
    {
      if stopFault.Some? then OnServiceEvent(AnimationError(STOP_FAILED + stopFault.value))
      else OnServiceEvent(AnimationStateChanged(false)).OnServiceEvent(Reported(START_FAILED, startFault, true))
    }
  }

  /** Setting IsAnimating to its current value changes nothing and notifies nothing. */
  lemma SetIsAnimatingUnchanged(s: Status)
    ensures s.SetIsAnimating(s.isAnimating) == s
  {
  }

  /** Handling events one batch after another is handling them all in order. */
  lemma {:induction false} OnServiceEventsAppend(s: Status, es: seq<ServiceEvent>, more: seq<ServiceEvent>)
    ensures s.OnServiceEvents(es + more) == s.OnServiceEvents(es).OnServiceEvents(more)
  {
    if more == [] {
      assert es + more == es;
    } else {
      OnServiceEventsAppend(s, es, more[..|more| - 1]);
      assert (es + more)[..|es + more| - 1] == es + more[..|more| - 1];
      assert (es + more)[|es + more| - 1] == more[|more| - 1];
    }
  }

  lemma OnOneServiceEvent(s: Status, a: ServiceEvent)
    ensures s.OnServiceEvents([a]) == s.OnServiceEvent(a)
  {
    assert [a][..0] == [];
  }

  /** Two events are handled one after the other. */
  lemma OnTwoServiceEvents(s: Status, a: ServiceEvent, b: ServiceEvent)
    ensures s.OnServiceEvents([a, b]) == s.OnServiceEvent(a).OnServiceEvent(b)
  {
    OnOneServiceEvent(s, a);
    assert [a, b][..1] == [a];
  }

  /** Handling the restart's events one by one is what AfterRestart describes. */
  lemma RestartEventsHandled(s: Status, stopFault: Option<string>, startFault: Option<string>)
    ensures s.OnServiceEvents(RestartEvents(STOP_FAILED, START_FAILED, stopFault, startFault)) == s.AfterRestart(stopFault, startFault)
  {
    if stopFault.Some? {
      OnOneServiceEvent(s, AnimationError(STOP_FAILED + stopFault.value));
    } else {
      OnTwoServiceEvents(s, AnimationStateChanged(false), Reported(START_FAILED, startFault, true));
    }
  }

  /** A successful start leaves IsAnimating true; the status is RUNNING_STATUS unless it was already animating. */
  lemma StartSucceeds(s: Status)
    ensures s.AfterStart(None).isAnimating
    ensures s.AfterStart(None).statusMessage == if s.isAnimating then s.statusMessage else RUNNING_STATUS
  {
  }

  /**
   * A failed start leaves IsAnimating false. When the view model was animating, the
   * error text is overwritten by STOPPED_STATUS.
   */
  lemma StartFails(s: Status, fault: string)
    ensures !s.AfterStart(Some(fault)).isAnimating
    ensures s.AfterStart(Some(fault)).statusMessage ==
      if s.isAnimating then STOPPED_STATUS else ANIMATION_ERROR_PREFIX + START_FAILED + fault
  {
  }

  /** A successful restart always ends animating with RUNNING_STATUS. */
  lemma RestartSucceeds(s: Status)
    ensures s.AfterRestart(None, None).isAnimating
    ensures s.AfterRestart(None, None).statusMessage == RUNNING_STATUS
  {
  }

  /** When the restart's stop succeeds and its start fails, the start error survives in the status. */
  lemma RestartStartFails(s: Status, fault: string)
    ensures !s.AfterRestart(None, Some(fault)).isAnimating
    ensures s.AfterRestart(None, Some(fault)).statusMessage == ANIMATION_ERROR_PREFIX + START_FAILED + fault
  {
  }

  class LogoViewModel {
    var isAnimating: bool
    var statusMessage: string
    var changed: seq<Property>
    const animationService: AnimationService
    const textService: TextManagementService

    function State(): Status
      reads this
    {
      Status(isAnimating, statusMessage, changed)
    }

    /** Not animating, DEFAULT_STATUS_MESSAGE, which was set through the setter and so notified once. */
    constructor ()
      ensures State() == Status(false, DEFAULT_STATUS_MESSAGE, [StatusMessageProperty])
      ensures fresh(animationService) && fresh(textService)
      ensures animationService.events == [] && textService.events == []
    {
      animationService := new AnimationService();
      textService := new TextManagementService();
      isAnimating := false;
      statusMessage := DEFAULT_STATUS_MESSAGE;
      changed := [StatusMessageProperty];
    }

    method SetStatusMessage(value: string)
      modifies this`statusMessage, this`changed
      ensures State() == old(State()).SetStatusMessage(value)
    {
      if statusMessage != value {
        statusMessage := value;
        changed := changed + [StatusMessageProperty];
      }
    }

    method SetIsAnimating(value: bool)
      modifies this`isAnimating, this`statusMessage, this`changed
      ensures State() == old(State()).SetIsAnimating(value)
    {
      if isAnimating != value {
        isAnimating := value;
        changed := changed + [IsAnimatingProperty];
        UpdateStatusForAnimationState(value);
      }
    }

    method UpdateStatusForAnimationState(value: bool)
      modifies this`statusMessage, this`changed
      ensures State() == old(State()).SetStatusMessage(StatusFor(value))
    {
      SetStatusMessage(if value then RUNNING_STATUS else STOPPED_STATUS);
    }

    method OnAnimationError(message: string)
      modifies this`isAnimating, this`statusMessage, this`changed
      ensures State() == old(State()).OnAnimationError(message)
    {
      SetStatusMessage(ANIMATION_ERROR_PREFIX + message);
      SetIsAnimating(false);
    }

    method OnAnimationStateChanged(b: bool)
      modifies this`isAnimating, this`statusMessage, this`changed
      ensures State() == old(State()).OnAnimationStateChanged(b)
    {
      SetIsAnimating(b);
    }

    method OnTextSetupError(message: string)
      modifies this`statusMessage, this`changed
      ensures State() == old(State()).OnTextEvent(TextSetupError(message))
    {
      SetStatusMessage(TEXT_ERROR_PREFIX + message);
    }

    method OnTextSetupCompleted(message: string)
      modifies this`statusMessage, this`changed
      ensures State() == old(State()).OnTextEvent(TextSetupCompleted(message))
    {
      SetStatusMessage(message);
    }

    /** Delivers the animation service's events from index `from` on to their handlers, in order. */
    method DeliverServiceEvents(from: nat)
      requires from <= |animationService.events|
      modifies this`isAnimating, this`statusMessage, this`changed
      ensures State() == old(State()).OnServiceEvents(animationService.events[from..])
    {
      var es := animationService.events[from..];
      for i := 0 to |es|
        invariant State() == old(State()).OnServiceEvents(es[..i])
      {
        assert es[..i + 1][..i] == es[..i];
        match es[i] {
          case AnimationError(m) => OnAnimationError(m);
          case AnimationStateChanged(b) => OnAnimationStateChanged(b);
        }
      }
      assert es[..|es|] == es;
    }

    /** Delivers the text service's events from index `from` on to their handlers, in order. */
    method DeliverTextEvents(from: nat)
      requires from <= |textService.events|
      modifies this`statusMessage, this`changed
      ensures State() == old(State()).OnTextEvents(textService.events[from..])
    {
      var es := textService.events[from..];
      for i := 0 to |es|
        invariant State() == old(State()).OnTextEvents(es[..i])
      {
        assert es[..i + 1][..i] == es[..i];
        match es[i] {
          case TextSetupError(m) => OnTextSetupError(m);
          case TextSetupCompleted(m) => OnTextSetupCompleted(m);
        }
      }
      assert es[..|es|] == es;
    }

    method StartAnimations(target: FrameworkElement?, letters: Storyboard?, dots: Storyboard?, wave: Storyboard?)
      modifies this`isAnimating, this`statusMessage, this`changed, animationService, letters, dots, wave
      ensures State() == old(State()).AfterStart(Outcome(target, [letters, dots, wave], true))
      ensures SwitchedUpTo([letters, dots, wave], Progress(target, [letters, dots, wave], true), true)
      ensures forall s: Storyboard | s in [letters, dots, wave] :: s.Content() == old(s.Content())
      ensures animationService.events ==
        old(animationService.events) + [Reported(START_FAILED, Outcome(target, [letters, dots, wave], true), true)]
    {
      var from := |animationService.events|;
      var success := animationService.StartAnimations(target, letters, dots, wave);
      DeliverServiceEvents(from);
      OnOneServiceEvent(old(State()), animationService.events[from]);
      assert animationService.events[from..] == [animationService.events[from]];
      if success {
        SetIsAnimating(true);
      }
    }

    method StopAnimations(target: FrameworkElement?, letters: Storyboard?, dots: Storyboard?, wave: Storyboard?)
      modifies this`isAnimating, this`statusMessage, this`changed, animationService, letters, dots, wave
      ensures State() == old(State()).AfterStop(Outcome(target, [letters, dots, wave], false))
      ensures SwitchedUpTo([letters, dots, wave], Progress(target, [letters, dots, wave], false), false)
      ensures forall s: Storyboard | s in [letters, dots, wave] :: s.Content() == old(s.Content())
      ensures animationService.events ==
        old(animationService.events) + [Reported(STOP_FAILED, Outcome(target, [letters, dots, wave], false), false)]
    {
      var from := |animationService.events|;
      var success := animationService.StopAnimations(target, letters, dots, wave);
      DeliverServiceEvents(from);
      OnOneServiceEvent(old(State()), animationService.events[from]);
      assert animationService.events[from..] == [animationService.events[from]];
      if success {
        SetIsAnimating(false);
      }
    }

    /** Leaves IsAnimating to the service's events; never assigns it directly. */
    method RestartAnimations(target: FrameworkElement?, letters: Storyboard?, dots: Storyboard?, wave: Storyboard?)
      modifies this`isAnimating, this`statusMessage, this`changed, animationService, letters, dots, wave
      ensures State() == old(State()).AfterRestart(Outcome(target, [letters, dots, wave], false),
                                                   Outcome(target, [letters, dots, wave], true))
      ensures var order := [letters, dots, wave];
        var stopped := Outcome(target, order, false);
        var started := Outcome(target, order, true);
        && animationService.events == old(animationService.events) + RestartEvents(STOP_FAILED, START_FAILED, stopped, started)
        && if stopped.Some? then
          SwitchedUpTo(order, Progress(target, order, false), false)
        else
          forall k :: 0 <= k < 3 && order[k] != null ==>
               order[k].active == (order[k] in order[..Progress(target, order, true)])
      ensures forall s: Storyboard | s in [letters, dots, wave] :: s.Content() == old(s.Content())
    {
      var from := |animationService.events|;
      var _ := animationService.RestartAnimations(target, letters, dots, wave);
      ghost var stopped := Outcome(target, [letters, dots, wave], false);
      ghost var started := Outcome(target, [letters, dots, wave], true);
      assert animationService.events[from..] == RestartEvents(STOP_FAILED, START_FAILED, stopped, started);
      DeliverServiceEvents(from);
      RestartEventsHandled(old(State()), stopped, started);
    }

    /** Forwards to the text service; its one event reaches the status only. */
    method SetupLoadingText(target: FrameworkElement?, customText: Option<string>)
      modifies this`statusMessage, this`changed, textService, RepeaterOf(target)
      ensures State() == old(State()).OnTextEvent(SetupOutcome(target, customText))
      ensures textService.events == old(textService.events) + [SetupOutcome(target, customText)]
      ensures isAnimating == old(isAnimating)
      ensures target != null && target.lettersRepeater != null ==>
        target.lettersRepeater.itemsSource == LetterItems(SelectText(customText))
    {
      var from := |textService.events|;
      textService.SetupLoadingText(target, customText);
      DeliverTextEvents(from);
    }
  }
}
