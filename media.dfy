/**
 * The parts of the presentation framework the animation core drives, reduced to
 * what the core observes: a storyboard is a timeline of opacity tracks plus a
 * running flag; an items control holds the letter items; a framework element is a
 * render target that may or may not contain the letters repeater.
 *
 * Whether the framework's Begin or Stop throws for a given storyboard is not
 * something the core decides; each storyboard carries it as a fixed oracle
 * (`beginFault`, `stopFault`: the message of the exception, if one is thrown).
 */
module Media {
  import opened Wrappers

  datatype Easing = QuadraticEaseIn | QuadraticEaseOut

  /** An eased key frame: the opacity reached at `keyTime` seconds into the cycle. */
  datatype KeyFrame = EasingKeyFrame(value: real, keyTime: real, easing: Easing)

  /** A key-frame animation of the opacity of the letter in slot `target`. */
  datatype Track = OpacityTrack(target: nat, keyFrames: seq<KeyFrame>)

  datatype RepeatBehavior = Once | Forever

  datatype Duration = Automatic | Seconds(seconds: real)

  datatype Timeline = Timeline(repeatBehavior: RepeatBehavior, duration: Duration, children: seq<Track>)

  /** What a freshly constructed storyboard holds: play once, automatic duration, no children. */
  const EmptyTimeline: Timeline := Timeline(Once, Automatic, [])

  class Storyboard {
    var repeatBehavior: RepeatBehavior
    var duration: Duration
    var children: seq<Track>
    var active: bool
    const beginFault: Option<string>
    const stopFault: Option<string>

    function Content(): Timeline
      reads this
    {
      Timeline(repeatBehavior, duration, children)
    }

    constructor (beginFault: Option<string>, stopFault: Option<string>)
      ensures Content() == EmptyTimeline && !active
      ensures this.beginFault == beginFault && this.stopFault == stopFault
    {
      repeatBehavior, duration, children := Once, Automatic, [];
      active := false;
      this.beginFault, this.stopFault := beginFault, stopFault;
    }

    /** Appends one animation to the storyboard's children. */
    method AddChild(track: Track)
      modifies this`children
      ensures children == old(children) + [track]
    {
      children := children + [track];
    }

    /** Starts the storyboard, or throws `beginFault` and leaves it as it was. */
    method Begin() returns (fault: Option<string>)
      modifies this`active
      ensures fault == beginFault
      ensures active == (fault.None? || old(active))
    {
      fault := beginFault;
      if fault.None? {
        active := true;
      }
    }

    /** Stops the storyboard (a no-op if it is not running), or throws `stopFault`. */
    method Stop() returns (fault: Option<string>)
      modifies this`active
      ensures fault == stopFault
      ensures active == (fault.Some? && old(active))
    {
      fault := stopFault;
      if fault.None? {
        active := false;
      }
    }
  }

  /** An items control; `itemsSource` is the list of items it displays. */
  class ItemsControl {
    var itemsSource: seq<string>

    constructor ()
      ensures itemsSource == []
    {
      itemsSource := [];
    }
  }

  /** A render target; `lettersRepeater` is what looking up the name "LettersRepeater" in it yields. */
  class FrameworkElement {
    const lettersRepeater: ItemsControl?

    constructor (lettersRepeater: ItemsControl?)
      ensures this.lettersRepeater == lettersRepeater
    {
      this.lettersRepeater := lettersRepeater;
    }
  }

  /** The exception that Begin (`begin`) or Stop (`!begin`) on `s` throws, if any. */
  function FaultOf(s: Storyboard, begin: bool): Option<string>
  {
    if begin then s.beginFault else s.stopFault
  }

  /**
   * Where a run of `s?.Begin()` (or `s?.Stop()`) over `order` stops: the index of the
   * first present storyboard that throws, or |order| when none does.
   */
  function FirstFault(order: seq<Storyboard?>, begin: bool): (n: nat)
    ensures n <= |order|
    ensures forall k :: 0 <= k < n ==> order[k] == null || FaultOf(order[k], begin).None?
    ensures n < |order| ==> order[n] != null && FaultOf(order[n], begin).Some?
  {
    if order == [] then 0
    else if order[0] != null && FaultOf(order[0], begin).Some? then 0
    else 1 + FirstFault(order[1..], begin)
  }

  /** The message of the exception that ends a run over `order`, if any. */
  function FaultMessage(order: seq<Storyboard?>, begin: bool): (m: Option<string>)
    ensures var n := FirstFault(order, begin); m == if n < |order| then FaultOf(order[n], begin) else None
  {
    if order == [] then None
    else if order[0] != null && FaultOf(order[0], begin).Some? then FaultOf(order[0], begin)
    else FaultMessage(order[1..], begin)
  }

  /**
   * The state after running Begin (`on`) or Stop (`!on`) over `order` up to, not
   * including, index `n`: every present storyboard before `n` is switched, every
   * other one keeps its old flag.
   */
  twostate predicate SwitchedUpTo(order: seq<Storyboard?>, n: nat, on: bool)
    reads order
  {
    && (forall k :: 0 <= k < n && k < |order| && order[k] != null ==> order[k].active == on)
    && (forall k :: n <= k < |order| && order[k] != null && order[k] !in order[..n] ==>
          order[k].active == old(order[k].active))
  }

  /**
   * `a?.Begin(); b?.Begin(); c?.Begin();` inside one try block: stops at the first
   * exception and returns its message.
   */
  method BeginEach(a: Storyboard?, b: Storyboard?, c: Storyboard?) returns (fault: Option<string>)
    modifies a, b, c
    ensures fault == FaultMessage([a, b, c], true)
    ensures SwitchedUpTo([a, b, c], FirstFault([a, b, c], true), true)
    ensures forall s: Storyboard | s in [a, b, c] :: s.Content() == old(s.Content())
  {
    assert [a, b, c][1..] == [b, c] && [b, c][1..] == [c];
    fault := None;
    if a != null {
      fault := a.Begin();
    }
    if fault.None? && b != null {
      fault := b.Begin();
    }
    if fault.None? && c != null {
      fault := c.Begin();
    }
  }

  /** `a?.Stop(); b?.Stop(); c?.Stop();` inside one try block. */
  method StopEach(a: Storyboard?, b: Storyboard?, c: Storyboard?) returns (fault: Option<string>)
    modifies a, b, c
    ensures fault == FaultMessage([a, b, c], false)
    ensures SwitchedUpTo([a, b, c], FirstFault([a, b, c], false), false)
    ensures forall s: Storyboard | s in [a, b, c] :: s.Content() == old(s.Content())
  {
    assert [a, b, c][1..] == [b, c] && [b, c][1..] == [c];
    fault := None;
    if a != null {
      fault := a.Stop();
    }
    if fault.None? && b != null {
      fault := b.Stop();
    }
    if fault.None? && c != null {
      fault := c.Stop();
    }
  }
}
