/**
 * The application-wide constants of the logo loader (Constants/ApplicationConstants.cs):
 * the default text, the animation timing, the letter opacities, the interface text and the colours.
 * Times are in seconds and are exact decimals, so they are modelled as `real`.
 */
module AppConstants {

  // Text configuration
  const LOADING_TEXT: string := "Loading Panel"
  const MAX_LETTER_COUNT: nat := 13

  // Animation timing (seconds)
  const TOTAL_CYCLE_DURATION: real := 6.0
  const LETTER_FADE_DURATION: real := 0.4
  const LETTER_INTERVAL: real := 0.15
  const LETTER_START_TIME: real := 2.9
  const DOT_ANIMATION_DURATION: real := 0.6
  const DOTS_START_TIME: real := 5.0
  const DOT_INTERVAL: real := 0.2
  const LETTER_RESET_TIME: real := 5.7
  const LETTER_RESET_DURATION: real := 0.2

  // Wave gradient offsets and letter opacities
  const WAVE_START_OFFSET: real := -0.3
  const WAVE_END_OFFSET: real := 1.5
  const LETTER_INACTIVE_OPACITY: real := 0.2
  const LETTER_ACTIVE_OPACITY: real := 1.0

  // User interface text
  const WINDOW_TITLE: string := "Custom Logo Loading"
  const DEFAULT_STATUS_MESSAGE: string := "Ready - perfect fade + blue line + tunnel wave effect!"
  const USER_INSTRUCTIONS: string := "Press SPACE to restart animations, ESC to stop | Perfect fade + blue line + delayed letters!"

  // Colours (hex values)
  const PRIMARY_WAVE_COLOR: string := "#2a3aa0"
  const SECONDARY_WAVE_COLOR: string := "#3941d4"
  const BRIGHT_WAVE_COLOR: string := "#87ceeb"
  const WAVE_EDGE_COLOR: string := "#00bfff"
  const TEXT_COLOR: string := "#333333"
  const BACKGROUND_COLOR: string := "#F5F5F5"

  /** The default text has exactly as many letters as the layout supports. */
  lemma LoadingTextFits()
    ensures |LOADING_TEXT| == MAX_LETTER_COUNT
  {
  }

  /** Both opacities are proper opacities, and the "inactive" one is the dimmer. */
  lemma OpacitiesOrdered()
    ensures 0.0 <= LETTER_INACTIVE_OPACITY < LETTER_ACTIVE_OPACITY <= 1.0
  {
  }

  /** The nominal start of the last default letter falls inside one cycle. */
  lemma LastDefaultLetterInsideCycle()
    ensures 0.0 <= LETTER_START_TIME + (MAX_LETTER_COUNT - 1) as real * LETTER_INTERVAL == 4.7 < TOTAL_CYCLE_DURATION
  {
  }

  /** The letter reset finishes before the cycle ends. */
  lemma LetterResetInsideCycle()
    ensures LETTER_RESET_TIME + LETTER_RESET_DURATION == 5.9 <= TOTAL_CYCLE_DURATION
  {
  }

  /** The wave gradient starts before and ends after the visible range [0, 1]. */
  lemma WaveOffsetsBeyondVisibleRange()
    ensures WAVE_START_OFFSET < 0.0 && 1.0 < WAVE_END_OFFSET
  {
  }
}
