/**
 * The per-letter opacity timeline (Views/MainWindow.xaml.cs, BuildDynamicLetterFadeStoryboard).
 *
 * For every letter slot whose container and "LetterText" element are found, the
 * window adds one opacity track with two eased key frames: a first key at the
 * slot's "dim" time and a second at its "restore" time. The storyboard repeats
 * forever with a fixed cycle duration; key times are not clamped to the cycle.
 */
module LetterFade {
  import opened Wrappers
  import opened AppConstants
  import opened Media

  /** The wave alignment: the timeline starts this long before LETTER_START_TIME. */
  const WAVE_ALIGNMENT_OFFSET: real := 0.3
  /** How long after the wave hit the first key frame is reached. */
  const FADE_DOWN_DURATION: real := 0.8
  /** Delay between the first and second key frame for slot 0. */
  const RESTORE_DELAY: real := 1.5
  /** Extra delay per slot index between the two key frames. */
  const RESTORE_STAGGER: real := 0.2

  /** What the visual-tree walk finds for one item slot. */
  datatype SlotLookup = NoContainer | NoLetterText | Found

  /** Time of the first ("dim") key frame of slot `i`. */
  function DimTime(i: nat): (t: real)
    ensures t == 3.4 + 0.15 * i as real
  {
    (LETTER_START_TIME - WAVE_ALIGNMENT_OFFSET) + i as real * LETTER_INTERVAL + FADE_DOWN_DURATION
  }

  /** Time of the second ("restore") key frame of slot `i`. */
  function RestoreTime(i: nat): (t: real)
    ensures t == DimTime(i) + 1.5 + 0.2 * i as real
    ensures t == 4.9 + 0.35 * i as real
  {
    (LETTER_START_TIME - WAVE_ALIGNMENT_OFFSET) + i as real * LETTER_INTERVAL + FADE_DOWN_DURATION
      + RESTORE_DELAY + i as real * RESTORE_STAGGER
  }

  /** The track the window builds for slot `i`: two key frames in time order, the first the brighter. */
  function LetterTrack(i: nat): (t: Track)
    ensures t.target == i && |t.keyFrames| == 2
    ensures t.keyFrames[0].keyTime < t.keyFrames[1].keyTime
    ensures t.keyFrames[0].value > t.keyFrames[1].value
  {
    OpacityTrack(i, [
      EasingKeyFrame(LETTER_ACTIVE_OPACITY, DimTime(i), QuadraticEaseIn),
      EasingKeyFrame(LETTER_INACTIVE_OPACITY, RestoreTime(i), QuadraticEaseOut)
    ])
  }

  /** The tracks for slots 0 .. n-1, in slot order, skipping slots not found: at most n, exactly n when all are found. */
  function LetterTracks(lookup: nat -> SlotLookup, n: nat): (ts: seq<Track>)
    ensures |ts| <= n
    ensures (forall i :: 0 <= i < n ==> lookup(i) == Found) ==> |ts| == n
    ensures (forall i :: 0 <= i < n ==> lookup(i) != Found) ==> ts == []
  {
    if n == 0 then []
    else LetterTracks(lookup, n - 1) + (if lookup(n - 1) == Found then [LetterTrack(n - 1)] else [])
  }

  /**
   * The storyboard built for a repeater with `itemCount` items (None: no repeater):
   * a default empty storyboard when there is no repeater or no item, otherwise a
   * forever-repeating cycle of TOTAL_CYCLE_DURATION holding the letter tracks.
   */
  function LetterFadeTimeline(itemCount: Option<nat>, lookup: nat -> SlotLookup): (tl: Timeline)
    ensures tl.repeatBehavior == Forever <==> itemCount.Some? && itemCount.value > 0
    ensures tl.repeatBehavior == Forever ==> tl.duration == Seconds(TOTAL_CYCLE_DURATION) && |tl.children| <= itemCount.value
    ensures tl.repeatBehavior == Once ==> tl.duration == Automatic && tl.children == []
  {
    if itemCount.None? || itemCount.value == 0 then EmptyTimeline
    else Timeline(Forever, Seconds(TOTAL_CYCLE_DURATION), LetterTracks(lookup, itemCount.value))
  }

  /** The slots whose container and letter element are both found. */
  ghost function FoundSlots(lookup: nat -> SlotLookup, n: nat): set<nat>
  {
    set i: nat | i < n && lookup(i) == Found
  }

  ghost function Targets(tracks: seq<Track>): set<nat>
  {
    set t | t in tracks :: t.target
  }

  // ---------------------------------------------------------------------------
  // Key times

  /** Each track has two key frames: to LETTER_ACTIVE_OPACITY eased in, then to LETTER_INACTIVE_OPACITY eased out. */
  lemma LetterTrackShape(i: nat)
    ensures var t := LetterTrack(i);
      && t.target == i && |t.keyFrames| == 2
      && t.keyFrames[0] == EasingKeyFrame(1.0, 3.4 + 0.15 * i as real, QuadraticEaseIn)
      && t.keyFrames[1] == EasingKeyFrame(0.2, 4.9 + 0.35 * i as real, QuadraticEaseOut)
  {
  }

  /** The restore key comes strictly after the dim key, and the gap grows with the slot index. */
  lemma RestoreAfterDim(i: nat)
    ensures DimTime(i) < RestoreTime(i)
    ensures RestoreTime(i) - DimTime(i) < RestoreTime(i + 1) - DimTime(i + 1)
  {
  }

  /** Both key times are strictly increasing in the slot index. */
  lemma KeyTimesIncreasing(i: nat, j: nat)
    requires i < j
    ensures DimTime(i) < DimTime(j)
    ensures RestoreTime(i) < RestoreTime(j)
  {
  }

  /** No clamping: the restore key lies beyond the cycle exactly for slots 4 and up. */
  lemma RestoreBeyondCycle(i: nat)
    ensures RestoreTime(i) > TOTAL_CYCLE_DURATION <==> i >= 4
  {
    if i <= 3 {
      assert i as real <= 3.0;
    }
  }

  /** No clamping: the dim key lies beyond the cycle exactly for slots 18 and up. */
  lemma DimBeyondCycle(i: nat)
    ensures DimTime(i) > TOTAL_CYCLE_DURATION <==> i >= 18
  {
    if i <= 17 {
      assert i as real <= 17.0;
    }
  }

  // ---------------------------------------------------------------------------
  // The track list

  lemma {:induction false} TargetsAppend(a: seq<Track>, b: seq<Track>)
    ensures Targets(a + b) == Targets(a) + Targets(b)
  {
    forall x | x in Targets(a + b) ensures x in Targets(a) + Targets(b) {
      var t :| t in a + b && t.target == x;
      if t in a { assert x in Targets(a); } else { assert x in Targets(b); }
    }
    forall x | x in Targets(a) + Targets(b) ensures x in Targets(a + b) {
      if x in Targets(a) {
        var t :| t in a && t.target == x;
        assert t in a + b;
      } else {
        var t :| t in b && t.target == x;
        assert t in a + b;
      }
    }
  }

  /** At most n tracks, and every track is the one built for its slot, for a slot below n that was found. */
  lemma {:induction false} LetterTracksSound(lookup: nat -> SlotLookup, n: nat)
    ensures var ts := LetterTracks(lookup, n);
      && |ts| <= n
      && forall k :: 0 <= k < |ts| ==>
           ts[k].target < n && lookup(ts[k].target) == Found && ts[k] == LetterTrack(ts[k].target)
  {
    if n > 0 {
      LetterTracksSound(lookup, n - 1);
    }
  }

  /** The tracks are in strictly increasing slot order. */
  lemma {:induction false} LetterTracksOrdered(lookup: nat -> SlotLookup, n: nat)
    ensures var ts := LetterTracks(lookup, n);
      forall j, k :: 0 <= j < k < |ts| ==> ts[j].target < ts[k].target
  {
    if n > 0 {
      LetterTracksOrdered(lookup, n - 1);
      LetterTracksSound(lookup, n - 1);
    }
  }

  /** A track exists for a slot if and only if the slot is below n and was found. */
  lemma {:induction false} LetterTracksComplete(lookup: nat -> SlotLookup, n: nat)
    ensures Targets(LetterTracks(lookup, n)) == FoundSlots(lookup, n)
  {
    if n > 0 {
      LetterTracksComplete(lookup, n - 1);
      var tail := if lookup(n - 1) == Found then [LetterTrack(n - 1)] else [];
      TargetsAppend(LetterTracks(lookup, n - 1), tail);
      assert Targets(tail) == if lookup(n - 1) == Found then {n - 1} else {} by {
        if lookup(n - 1) == Found {
          assert LetterTrack(n - 1) in tail;
        }
      }
      assert FoundSlots(lookup, n) == FoundSlots(lookup, n - 1) + (if lookup(n - 1) == Found then {n - 1} else {});
    }
  }

  /** Tracks keep their slot's own index in the time formulas, so both key times increase along the list. */
  lemma LetterTracksKeyTimesIncreasing(lookup: nat -> SlotLookup, n: nat)
    ensures var ts := LetterTracks(lookup, n);
      forall j, k :: 0 <= j < k < |ts| ==>
        && |ts[j].keyFrames| == |ts[k].keyFrames| == 2
        && ts[j].keyFrames[0].keyTime < ts[k].keyFrames[0].keyTime
        && ts[j].keyFrames[1].keyTime < ts[k].keyFrames[1].keyTime
  {
    var ts := LetterTracks(lookup, n);
    LetterTracksSound(lookup, n);
    LetterTracksOrdered(lookup, n);
    forall j, k | 0 <= j < k < |ts|
      ensures |ts[j].keyFrames| == |ts[k].keyFrames| == 2
      ensures ts[j].keyFrames[0].keyTime < ts[k].keyFrames[0].keyTime
      ensures ts[j].keyFrames[1].keyTime < ts[k].keyFrames[1].keyTime
    {
      KeyTimesIncreasing(ts[j].target, ts[k].target);
    }
  }

  /** When every slot is found there is exactly one track per slot, track k for slot k. */
  lemma {:induction false} AllFoundOneTrackPerSlot(lookup: nat -> SlotLookup, n: nat)
    requires forall i :: 0 <= i < n ==> lookup(i) == Found
    ensures var ts := LetterTracks(lookup, n);
      |ts| == n && forall k :: 0 <= k < n ==> ts[k] == LetterTrack(k)
  {
    if n > 0 {
      AllFoundOneTrackPerSlot(lookup, n - 1);
    }
  }

  /** No repeater, or a repeater with no item: the default storyboard, with no track. */
  lemma NoLettersEmptyTimeline(itemCount: Option<nat>, lookup: nat -> SlotLookup)
    requires itemCount.None? || itemCount == Some(0)
    ensures LetterFadeTimeline(itemCount, lookup) == Timeline(Once, Automatic, [])
  {
  }

  /** With letters, the storyboard repeats forever over a 6-second cycle and holds one track per found slot. */
  lemma LettersTimeline(count: nat, lookup: nat -> SlotLookup)
    requires count > 0
    ensures var tl := LetterFadeTimeline(Some(count), lookup);
      && tl.repeatBehavior == Forever && tl.duration == Seconds(6.0)
      && Targets(tl.children) == FoundSlots(lookup, count)
  {
    LetterTracksComplete(lookup, count);
  }

  /**
   * The default text, with every slot found: thirteen tracks, and the last one's
   * restore key (9.1 s) lies well beyond the 6-second cycle.
   */
  lemma DefaultTextTimeline()
    ensures var tl := LetterFadeTimeline(Some(|LOADING_TEXT|), _ => Found);
      && |tl.children| == 13
      && tl.children[12].keyFrames[1].keyTime == 9.1 > tl.duration.seconds
  {
    AllFoundOneTrackPerSlot(_ => Found, 13);
  }

  function ItemCount(repeater: ItemsControl?): Option<nat>
    reads repeater
  {
    if repeater == null then None else Some(|repeater.itemsSource|)
  }

  class MainWindow {
    /** The items control named "LettersRepeater", if the window has one. */
    const lettersRepeater: ItemsControl?
    var letterFadeStoryboard: Storyboard?

    constructor (lettersRepeater: ItemsControl?)
      ensures this.lettersRepeater == lettersRepeater && letterFadeStoryboard == null
    {
      this.lettersRepeater := lettersRepeater;
      letterFadeStoryboard := null;
    }

    /**
     * Builds a fresh letter storyboard and stores it in `letterFadeStoryboard`.
     * `lookup` stands for the walk of the visual tree: what is found for each slot.
     */
    method BuildDynamicLetterFadeStoryboard(lookup: nat -> SlotLookup)
      modifies this`letterFadeStoryboard
      ensures letterFadeStoryboard != null && fresh(letterFadeStoryboard)
      ensures letterFadeStoryboard.Content() == LetterFadeTimeline(ItemCount(lettersRepeater), lookup)
      ensures !letterFadeStoryboard.active
    {
      if lettersRepeater == null || |lettersRepeater.itemsSource| == 0 {
        letterFadeStoryboard := new Storyboard(None, None);
        return;
      }
      var sb := new Storyboard(None, None);
      sb.repeatBehavior := Forever;
      sb.duration := Seconds(TOTAL_CYCLE_DURATION);

      var start := LETTER_START_TIME - WAVE_ALIGNMENT_OFFSET;
      var count := |lettersRepeater.itemsSource|;
      for i := 0 to count
        invariant fresh(sb) && !sb.active
        invariant sb.Content() == Timeline(Forever, Seconds(TOTAL_CYCLE_DURATION), LetterTracks(lookup, i))
      {
        var slot := lookup(i);
        if slot == NoContainer {
          continue;
        }
        if slot == NoLetterText {
          continue;
        }
        var dimKey := EasingKeyFrame(LETTER_ACTIVE_OPACITY,
                                     start + i as real * LETTER_INTERVAL + FADE_DOWN_DURATION,
                                     QuadraticEaseIn);
        var restoreKey := EasingKeyFrame(LETTER_INACTIVE_OPACITY,
                                         start + i as real * LETTER_INTERVAL + FADE_DOWN_DURATION
                                           + RESTORE_DELAY + i as real * RESTORE_STAGGER,
                                         QuadraticEaseOut);
        sb.AddChild(OpacityTrack(i, [dimKey, restoreKey]));
      }
      letterFadeStoryboard := sb;
    }
  }
}
