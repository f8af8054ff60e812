/**
 * Loading-text setup (Services/TextManagementService.cs): fills the items control
 * named "LettersRepeater" with one single-character item per character of the text.
 *
 * Characters stand for UTF-16 code units (what `string.ToCharArray` yields).
 */
module TextManagement {
  import opened Wrappers
  import opened AppConstants
  import opened Media

  datatype TextEvent = TextSetupCompleted(message: string) | TextSetupError(message: string)

  /** The message of the ArgumentNullException thrown for a missing target. */
  const NULL_TARGET_MESSAGE: string := "Value cannot be null. (Parameter 'target')"
  const REPEATER_NOT_FOUND_MESSAGE: string := "LettersRepeater ItemsControl not found."

  /** The characters `char.IsWhiteSpace` accepts: the Unicode space separators, line and paragraph separators, and the controls U+0009..U+000D and U+0085. */
  function IsWhiteSpace(c: char): (b: bool)
    ensures b ==> c <= '\U{3000}'
    ensures b ==> !('0' <= c <= '9') && !('A' <= c <= 'Z') && !('a' <= c <= 'z')
  {
    || '\t' <= c <= '\r'
    || c == ' ' || c == '\U{85}' || c == '\U{A0}' || c == '\U{1680}'
    || '\U{2000}' <= c <= '\U{200A}'
    || c == '\U{2028}' || c == '\U{2029}' || c == '\U{202F}' || c == '\U{205F}' || c == '\U{3000}'
  }

  /** `string.IsNullOrWhiteSpace`: absent, empty, or white space only. */
  function IsNullOrWhiteSpace(text: Option<string>): (b: bool)
    ensures text.None? || text == Some("") ==> b
    ensures text.Some? && (exists k :: 0 <= k < |text.value| && !IsWhiteSpace(text.value[k])) ==> !b
  {
    text.None? || forall k :: 0 <= k < |text.value| ==> IsWhiteSpace(text.value[k])
  }

  /** The text to show: the custom text when it has a non-blank character, LOADING_TEXT otherwise. */
  function SelectText(customText: Option<string>): (text: string)
    ensures IsNullOrWhiteSpace(customText) ==> text == LOADING_TEXT
    ensures !IsNullOrWhiteSpace(customText) ==> text == customText.value
    ensures exists k :: 0 <= k < |text| && !IsWhiteSpace(text[k])
  {
    if IsNullOrWhiteSpace(customText) then
      assert LOADING_TEXT[0] == 'L';
      LOADING_TEXT
    else
      customText.value
  }

  /** One single-character item per character, in order. */
  function LetterItems(text: string): (items: seq<string>)
    ensures |items| == |text|
    ensures forall k :: 0 <= k < |items| ==> |items[k]| == 1 && items[k][0] == text[k]
  {
    seq(|text|, k requires 0 <= k < |text| => [text[k]])
  }

  function Concat(items: seq<string>): string
  {
    if items == [] then "" else Concat(items[..|items| - 1]) + items[|items| - 1]
  }

  /** Joining the items gives back the text: no character is lost, added or moved. */
  lemma {:induction false} LetterItemsRoundTrip(text: string)
    ensures Concat(LetterItems(text)) == text
  {
    if text != [] {
      var init := text[..|text| - 1];
      LetterItemsRoundTrip(init);
      assert LetterItems(text)[..|text| - 1] == LetterItems(init);
      assert text == init + [text[|text| - 1]];
    }
  }

  /** What a successful setup reports: the text, verbatim, between a fixed prefix and suffix. */
  function CompletedMessage(text: string): (m: string)
    ensures |m| == |text| + 23
    ensures m[..21] == "Loading text set to \"" && m[21..|m| - 2] == text && m[|m| - 2..] == "\"."
  {
    "Loading text set to \"" + text + "\"."
  }

  /** The one event SetupLoadingText raises. */
  function SetupOutcome(target: FrameworkElement?, customText: Option<string>): (e: TextEvent)
    ensures target == null ==> e == TextSetupError(NULL_TARGET_MESSAGE)
    ensures target != null && target.lettersRepeater == null ==> e == TextSetupError(REPEATER_NOT_FOUND_MESSAGE)
    ensures e.TextSetupCompleted? <==> target != null && target.lettersRepeater != null
  {
    if target == null then TextSetupError(NULL_TARGET_MESSAGE)
    else if target.lettersRepeater == null then TextSetupError(REPEATER_NOT_FOUND_MESSAGE)
    else TextSetupCompleted(CompletedMessage(SelectText(customText)))
  }

  /** There is no length check: a custom text longer than MAX_LETTER_COUNT is taken as it is. */
  lemma NoLengthLimit()
    ensures var text := SelectText(Some("Loading Panel!"));
      text == "Loading Panel!" && |LetterItems(text)| == 14 > MAX_LETTER_COUNT
  {
    assert !IsWhiteSpace("Loading Panel!"[0]);
  }

  ghost function RepeaterOf(target: FrameworkElement?): set<object>
  {
    if target == null || target.lettersRepeater == null then {} else {target.lettersRepeater}
  }

  class TextManagementService {
    var events: seq<TextEvent>

    constructor ()
      ensures events == []
    {
      events := [];
    }

    method SetupLoadingText(target: FrameworkElement?, customText: Option<string>)
      modifies this`events, RepeaterOf(target)
      ensures events == old(events) + [SetupOutcome(target, customText)]
      ensures target != null && target.lettersRepeater != null ==>
        target.lettersRepeater.itemsSource == LetterItems(SelectText(customText))
    {
      if target == null {
        events := events + [TextSetupError(NULL_TARGET_MESSAGE)];
        return;
      }
      var repeater := target.lettersRepeater;
      if repeater == null {
        events := events + [TextSetupError(REPEATER_NOT_FOUND_MESSAGE)];
        return;
      }
      var text := if IsNullOrWhiteSpace(customText) then LOADING_TEXT else customText.value;
      repeater.itemsSource := LetterItems(text);
      events := events + [TextSetupCompleted(CompletedMessage(text))];
    }
  }
}
