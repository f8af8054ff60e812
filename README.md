# Logo loader animation core, modelled in Dafny

This project models the animation core of a desktop splash-screen logo ("Loading Panel"):

- **The letter opacity timeline.** The window's letter storyboard gets one opacity track per letter slot that the visual tree yields. Each track has two eased key frames. The first goes to `LETTER_ACTIVE_OPACITY` at 3.4 + 0.15·i s. The second goes to `LETTER_INACTIVE_OPACITY` at 4.9 + 0.35·i s. The storyboard repeats forever over a 6-second cycle (`letter_fade.dfy`).
- **The animation coordinator.** It validates the render target, then begins or stops the letter, dot and wave storyboards in a fixed order. It reports through an error event or a state-changed event and returns a success flag (`animation_service.dfy`).
- **The two view models.** Both keep an `IsAnimating` flag and a status text.
  - The current one (`logo_view_model.dfy`) uses change-guarded setters and reacts to the coordinator's and text service's events.
  - The older one (`legacy_view_model.dfy`) drives the storyboards itself. Its setters always write and always notify.
- **Text setup.** It falls back to the default text for absent or blank input, then fills the letters repeater with one single-character item per character (`text_management.dfy`).
- **The configuration constants** (`constants.dfy`).

How the framework parts are represented (`media.dfy`):

- A storyboard is a class with its timeline content and an `active` flag.
- Whether the framework's `Begin` or `Stop` throws for a storyboard is a fixed per-storyboard oracle, `beginFault` / `stopFault`. Each holds the exception message, if one is thrown. A throwing call leaves `active` as it was.
- Events raised by a service are appended to that service's `events` log.
- The view model handles the newly appended events in order, through its own handlers. This happens right after the service call returns. The result is the same as handling each event when it is raised, because the services never read view-model state.
- Property-change notifications are appended to `changed`.
- The walk of the visual tree is an input, `lookup: nat -> SlotLookup`. It says, per slot, whether the container and the `LetterText` element were found.

The model follows the code, also where the code's own comments say otherwise:

- **Opacity targets.** The first key frame targets `LETTER_ACTIVE_OPACITY` = 1.0 and the second `LETTER_INACTIVE_OPACITY` = 0.2. This is what the constants hold, although the comments at Logo_loading/Views/MainWindow.xaml.cs:131-133 and 143-145 say the first key dims to 0.2 and the second restores to 1.0.
- **Key times.** The code's times are `LETTER_START_TIME − 0.3 + i·LETTER_INTERVAL + 0.8` and that time `+ 1.5 + 0.2·i`.
- **No clamping.** Key times are not clamped to the cycle: the restore key lies past 6 s for every slot from 4 on (`RestoreBeyondCycle`).
- **No length check.** The text is not checked against `MAX_LETTER_COUNT` (`NoLengthLimit`).

## Model

| member | source | states |
|---|---|---|
| AppConstants.LoadingTextFits | Logo_loading/Constants/ApplicationConstants.cs:16-22 | the default text "Loading Panel" has exactly MAX_LETTER_COUNT = 13 characters |
| AppConstants.OpacitiesOrdered | Logo_loading/Constants/ApplicationConstants.cs:88-93 | 0 ≤ LETTER_INACTIVE_OPACITY < LETTER_ACTIVE_OPACITY ≤ 1 |
| AppConstants.LastDefaultLetterInsideCycle | Logo_loading/Constants/ApplicationConstants.cs:30-46 | the nominal start of the 13th letter, 2.9 + 12·0.15 = 4.7, lies inside the 6.0 s cycle |
| AppConstants.LetterResetInsideCycle | Logo_loading/Constants/ApplicationConstants.cs:30-71 | the letter reset ends at 5.9 s, within the cycle |
| AppConstants.WaveOffsetsBeyondVisibleRange | Logo_loading/Constants/ApplicationConstants.cs:75-83 | the wave gradient starts below 0 and ends above 1 |
| Media.Storyboard.constructor | Logo_loading/Views/MainWindow.xaml.cs:100 | a new storyboard plays once, has automatic duration, no children, and is not running |
| Media.Storyboard.AddChild | Logo_loading/Views/MainWindow.xaml.cs:158 | the track is appended to the children; nothing else changes |
| Media.Storyboard.Begin | Logo_loading/Services/AnimationService.cs:46-48 | either the storyboard is running afterwards, or the call throws its fault and the flag is unchanged |
| Media.Storyboard.Stop | Logo_loading/Services/AnimationService.cs:112-114 | either the storyboard is stopped afterwards (also when it was not running), or the call throws and the flag is unchanged |
| Media.FirstFault | Logo_loading/Services/AnimationService.cs:41-57 | a run over the storyboards ends at the first present one that throws: all present storyboards before it do not throw |
| Media.FaultMessage | Logo_loading/Services/AnimationService.cs:53-56 | the exception a run ends with is the fault of the storyboard at FirstFault, or none when the run completes |
| Media.BeginEach | Logo_loading/Services/AnimationService.cs:46-48 | the present storyboards are begun in order up to the first exception; those before it are running, every other one keeps its flag; timelines are untouched |
| Media.StopEach | Logo_loading/Services/AnimationService.cs:112-114 | the same for Stop: storyboards before the first exception are stopped, the others keep their flag |
| LetterFade.DimTime | Logo_loading/Views/MainWindow.xaml.cs:111-137 | the first key time of slot i is 3.4 + 0.15·i |
| LetterFade.LetterTrack | Logo_loading/Views/MainWindow.xaml.cs:129-157 | the track for slot i targets slot i and has two key frames, in time order, the first to the higher opacity |
| LetterFade.LetterTracks | Logo_loading/Views/MainWindow.xaml.cs:120-159 | at most n tracks for n slots; exactly n when every slot is found, none when no slot is |
| LetterFade.LetterFadeTimeline | Logo_loading/Views/MainWindow.xaml.cs:97-108 | the storyboard repeats forever if and only if there is a repeater with items, and then lasts 6.0 s with at most as many tracks as items; otherwise it is the default storyboard with no tracks |
| LetterFade.RestoreTime | Logo_loading/Views/MainWindow.xaml.cs:117-149 | the second key time is the first plus 1.5 + 0.2·i, which is 4.9 + 0.35·i |
| LetterFade.LetterTrackShape | Logo_loading/Views/MainWindow.xaml.cs:129-154 | a track has exactly two key frames: to 1.0 with quadratic ease-in at the dim time, then to 0.2 with quadratic ease-out at the restore time |
| LetterFade.RestoreAfterDim | Logo_loading/Views/MainWindow.xaml.cs:145-149 | the restore key is strictly after the dim key, and the gap grows with i |
| LetterFade.KeyTimesIncreasing | Logo_loading/Views/MainWindow.xaml.cs:133-149 | both key times are strictly increasing in the slot index |
| LetterFade.RestoreBeyondCycle | Logo_loading/Views/MainWindow.xaml.cs:104-149 | there is no clamping: the restore time exceeds the 6.0 s cycle if and only if i ≥ 4 |
| LetterFade.DimBeyondCycle | Logo_loading/Views/MainWindow.xaml.cs:104-137 | the dim time exceeds the cycle if and only if i ≥ 18 |
| LetterFade.LetterTracksSound | Logo_loading/Views/MainWindow.xaml.cs:120-158 | at most n tracks; every track belongs to a slot below the item count whose container and letter element were found, and is exactly the track built for that slot's own index |
| LetterFade.LetterTracksOrdered | Logo_loading/Views/MainWindow.xaml.cs:120-158 | tracks appear in strictly increasing slot order, so there is at most one track per slot |
| LetterFade.LetterTracksComplete | Logo_loading/Views/MainWindow.xaml.cs:120-158 | a slot has a track if and only if it is below the item count and both lookups succeeded |
| LetterFade.LetterTracksKeyTimesIncreasing | Logo_loading/Views/MainWindow.xaml.cs:120-158 | skipped slots keep later tracks at their own index, so both key times increase strictly along the track list |
| LetterFade.AllFoundOneTrackPerSlot | Logo_loading/Views/MainWindow.xaml.cs:120-158 | when every slot is found there are exactly n tracks, track k for slot k |
| LetterFade.NoLettersEmptyTimeline | Logo_loading/Views/MainWindow.xaml.cs:97-102 | with no repeater or no items the storyboard is the default one, with no tracks |
| LetterFade.LettersTimeline | Logo_loading/Views/MainWindow.xaml.cs:104-108 | with items the storyboard repeats forever with a 6.0 s duration and has a track exactly for the found slots |
| LetterFade.DefaultTextTimeline | Logo_loading/Views/MainWindow.xaml.cs:104-158 | the default 13-letter text gives 13 tracks; the last restore key is at 9.1 s, past the cycle |
| LetterFade.MainWindow.BuildDynamicLetterFadeStoryboard | Logo_loading/Views/MainWindow.xaml.cs:95-163 | the window's letter storyboard is a fresh, non-running storyboard whose content is the letter timeline for the repeater's item count |
| AnimationServices.ValidateParameters | Logo_loading/Services/AnimationService.cs:226-232 | validation fails if and only if the target is absent; storyboards may be absent |
| AnimationServices.Progress | Logo_loading/Services/AnimationService.cs:41-48 | without a target no storyboard is reached; otherwise the run reaches up to the first throwing storyboard |
| AnimationServices.Outcome | Logo_loading/Services/AnimationService.cs:41-57 | an operation succeeds if and only if there is a target and no present storyboard throws; a missing target fails with the null-argument message |
| AnimationServices.Reported | Logo_loading/Services/AnimationService.cs:50-56 | exactly one event: the state change on success, otherwise the error with the operation's prefix and the exception message |
| AnimationServices.RestartEvents | Logo_loading/Services/AnimationService.cs:174-180 | a restart raises only the stop's error when the stop fails, and otherwise the stop's state-changed(false) followed by the start's one event |
| AnimationServices.AnimationService.Start | Logo_loading/Services/AnimationService.cs:41-57 | validate, begin in order, then one state-changed(true) event and true, or one error event and false |
| AnimationServices.AnimationService.Stop | Logo_loading/Services/AnimationService.cs:107-123 | validate, stop in order, then one state-changed(false) event and true, or one error event and false |
| AnimationServices.AnimationService.StartAnimations | Logo_loading/Services/AnimationService.cs:36-58 | begins letters, dots, wave; returns true if and only if the target is present and nothing throws; appends exactly one event; no storyboard's timeline changes |
| AnimationServices.AnimationService.StartAnimationsWithIndependentDots | Logo_loading/Services/AnimationService.cs:68-92 | the same with the begin order letters, wave, dots and its own error prefix; no storyboard's timeline changes |
| AnimationServices.AnimationService.StopAnimations | Logo_loading/Services/AnimationService.cs:102-124 | stops letters, dots, wave; stopping stopped storyboards succeeds; appends exactly one event; no storyboard's timeline changes |
| AnimationServices.AnimationService.StopAnimationsWithIndependentDots | Logo_loading/Services/AnimationService.cs:134-156 | the same (the stop order is also letters, dots, wave) with its own error prefix; no storyboard's timeline changes |
| AnimationServices.AnimationService.RestartAnimations | Logo_loading/Services/AnimationService.cs:166-187 | if Stop fails: false, one stop error, and Start is not attempted; otherwise state-changed(false) and then Start's event; the storyboards running afterwards are exactly those the start reached; no storyboard's timeline changes |
| AnimationServices.AnimationService.RestartAnimationsWithIndependentDots | Logo_loading/Services/AnimationService.cs:197-218 | the same over the independent-dots stop and start; no storyboard's timeline changes |
| AnimationServices.NullTargetTouchesNothing | Logo_loading/Services/AnimationService.cs:226-229 | a missing target reaches no storyboard and fails with the null-argument message |
| AnimationServices.NoFaultReachesAll | Logo_loading/Services/AnimationService.cs:46-51 | with a target and no throwing storyboard, an operation reaches every storyboard and succeeds |
| AnimationServices.AbsentStoryboardsSkipped | Logo_loading/Services/AnimationService.cs:46-48 | absent storyboards are skipped and never make an operation fail |
| TextManagement.SelectText | Logo_loading/Services/TextManagementService.cs:28-30 | an absent, empty or all-white-space text selects LOADING_TEXT, any other text is used as given; the result always has a non-blank character |
| TextManagement.IsWhiteSpace | Logo_loading/Services/TextManagementService.cs:28 | the white-space test of the .NET runtime: no ASCII letter or digit and nothing above U+3000 is white space |
| TextManagement.IsNullOrWhiteSpace | Logo_loading/Services/TextManagementService.cs:28 | an absent or empty text is blank; a text with any non-white-space character is not |
| TextManagement.LetterItems | Logo_loading/Services/TextManagementService.cs:32-34 | one item per character, item k being the one-character string text[k] |
| TextManagement.LetterItemsRoundTrip | Logo_loading/Services/TextManagementService.cs:32-34 | joining the items gives back the text |
| TextManagement.SetupOutcome | Logo_loading/Services/TextManagementService.cs:21-41 | a missing target or repeater raises the matching error; the completion event is raised if and only if both exist |
| TextManagement.CompletedMessage | Logo_loading/Services/TextManagementService.cs:36 | the completion message carries the selected text verbatim between the fixed prefix `Loading text set to "` and the suffix `".` |
| TextManagement.NoLengthLimit | Logo_loading/Services/TextManagementService.cs:28-36 | a 14-character text is accepted as is: there is no check against MAX_LETTER_COUNT |
| TextManagement.TextManagementService.SetupLoadingText | Logo_loading/Services/TextManagementService.cs:17-42 | exactly one event; on success the repeater holds the items of the selected text, and on failure no items are set |
| ViewModels.StatusFor | Logo_loading/ViewModels/LogoViewModel.cs:170-175 | the status is one of two fixed texts, chosen by the animating flag |
| ViewModels.Status.SetStatusMessage | Logo_loading/ViewModels/LogoViewModel.cs:51-58 | the text is set, and a notification is raised only when it differs |
| ViewModels.Status.SetIsAnimating | Logo_loading/ViewModels/LogoViewModel.cs:34-42 | setting the current value changes nothing; a real change notifies and sets the status from the new value |
| ViewModels.Status.OnAnimationError | Logo_loading/ViewModels/LogoViewModel.cs:182-186 | afterwards not animating; the status is the error text, unless it was animating, in which case the error is overwritten by the stopped text |
| ViewModels.Status.OnAnimationStateChanged | Logo_loading/ViewModels/LogoViewModel.cs:191-194 | afterwards the flag is the event's value; the state is unchanged when it already was, and otherwise the status is the fixed text for the new value |
| ViewModels.Status.OnServiceEvents | Logo_loading/ViewModels/LogoViewModel.cs:157-194 | each event goes to its subscribed handler (OnServiceEvent: errors to the error handler, state changes to the state handler); no events change nothing; after a batch the flag is what the last event says: its value for a state change, false after an error |
| ViewModels.Status.OnTextEvent | Logo_loading/ViewModels/LogoViewModel.cs:199-210 | the text handlers set only the status, never the animating flag |
| ViewModels.Status.OnTextEvents | Logo_loading/ViewModels/LogoViewModel.cs:157-210 | a batch of text events never changes the flag, and the last event decides the status |
| ViewModels.Status.AfterStart | Logo_loading/ViewModels/LogoViewModel.cs:96-106 | after a start the view model animates if and only if the coordinator's start succeeded |
| ViewModels.Status.AfterStop | Logo_loading/ViewModels/LogoViewModel.cs:115-125 | after a stop the view model is never animating; the status is the stopped text if it was animating, else the old status on success or the stop error on failure |
| ViewModels.Status.AfterRestart | Logo_loading/ViewModels/LogoViewModel.cs:134-140 | after a restart the view model animates if and only if both the stop and the start succeeded; a failed stop ends not animating through the error handler |
| ViewModels.SetIsAnimatingUnchanged | Logo_loading/ViewModels/LogoViewModel.cs:36-41 | setting IsAnimating to its current value changes nothing and notifies nothing |
| ViewModels.OnServiceEventsAppend | Logo_loading/ViewModels/LogoViewModel.cs:157-164 | handling two batches of events one after the other is handling their concatenation |
| ViewModels.StartSucceeds | Logo_loading/ViewModels/LogoViewModel.cs:101-105 | a successful start leaves the flag true; the status becomes the running text unless it was already animating |
| ViewModels.StartFails | Logo_loading/ViewModels/LogoViewModel.cs:182-186 | a failed start leaves the flag false; the error text survives only when it was not animating |
| ViewModels.RestartSucceeds | Logo_loading/ViewModels/LogoViewModel.cs:134-140 | a successful restart, driven by the events alone, ends animating with the running text |
| ViewModels.RestartStartFails | Logo_loading/ViewModels/LogoViewModel.cs:134-140 | when stop succeeds and start fails, the flag is false and the start error text is kept |
| ViewModels.LogoViewModel.constructor | Logo_loading/ViewModels/LogoViewModel.cs:77-85 | after construction: not animating, status DEFAULT_STATUS_MESSAGE (one notification), fresh services with empty event logs |
| ViewModels.LogoViewModel.SetStatusMessage | Logo_loading/ViewModels/LogoViewModel.cs:51-58 | the state becomes that of the change-guarded status setter |
| ViewModels.LogoViewModel.SetIsAnimating | Logo_loading/ViewModels/LogoViewModel.cs:34-42 | the state becomes that of the change-guarded animating setter |
| ViewModels.LogoViewModel.UpdateStatusForAnimationState | Logo_loading/ViewModels/LogoViewModel.cs:170-175 | the status is set to the fixed text for the given flag |
| ViewModels.LogoViewModel.OnAnimationError | Logo_loading/ViewModels/LogoViewModel.cs:182-186 | the status is set to the error text, then the flag to false |
| ViewModels.LogoViewModel.OnAnimationStateChanged | Logo_loading/ViewModels/LogoViewModel.cs:191-194 | the flag is set through its setter |
| ViewModels.LogoViewModel.OnTextSetupError | Logo_loading/ViewModels/LogoViewModel.cs:199-202 | the status becomes "Text setup error: " and the message |
| ViewModels.LogoViewModel.OnTextSetupCompleted | Logo_loading/ViewModels/LogoViewModel.cs:207-210 | the status becomes the completion message |
| ViewModels.LogoViewModel.DeliverServiceEvents | Logo_loading/ViewModels/LogoViewModel.cs:157-164 | each new coordinator event reaches its handler, in the order raised |
| ViewModels.LogoViewModel.DeliverTextEvents | Logo_loading/ViewModels/LogoViewModel.cs:157-164 | each new text-service event reaches its handler, in the order raised |
| ViewModels.LogoViewModel.StartAnimations | Logo_loading/ViewModels/LogoViewModel.cs:96-106 | the coordinator's start appends exactly its one event to the service log, which is then handled, and the flag is set to true on success; the storyboards are begun up to the first exception and their timelines do not change |
| ViewModels.LogoViewModel.StopAnimations | Logo_loading/ViewModels/LogoViewModel.cs:115-125 | the coordinator's stop appends exactly its one event to the service log, which is then handled, and the flag is set to false on success; the storyboards are stopped up to the first exception and their timelines do not change |
| ViewModels.LogoViewModel.RestartAnimations | Logo_loading/ViewModels/LogoViewModel.cs:134-140 | the coordinator's restart; only its events, appended exactly as the restart raises them, change the state; after a failed stop the stop's flags hold, otherwise a storyboard runs exactly when the start reached it; timelines do not change |
| ViewModels.LogoViewModel.SetupLoadingText | Logo_loading/ViewModels/LogoViewModel.cs:147-150 | the text service's setup; its one event changes only the status; the text service's log grows by exactly that one event |
| LegacyViewModel.Status.SetStatusMessage | Logo_loading/LogoViewModel.cs:39-47 | the status is always written and always notified |
| LegacyViewModel.Status.SetIsAnimating | Logo_loading/LogoViewModel.cs:25-34 | the flag is always written and notified, and the status is rewritten, even when the value is unchanged |
| LegacyViewModel.Status.AfterStart | Logo_loading/LogoViewModel.cs:65-79 | a start animates if and only if no storyboard throws; a throwing start always ends with "Animations stopped", never the error text |
| LegacyViewModel.Status.AfterStop | Logo_loading/LogoViewModel.cs:84-97 | a stop that does not throw ends not animating with "Animations stopped"; a throwing stop shows "Stop animation error: …" and leaves the flag unchanged |
| LegacyViewModel.RestartOutcome | Logo_loading/LogoViewModel.cs:102-106 | restart runs stop then start unconditionally, so the start alone decides the final flag and status |
| LegacyViewModel.LogoViewModel.constructor | Logo_loading/LogoViewModel.cs:53-56 | after construction: not animating, status "Logo ready" |
| LegacyViewModel.LogoViewModel.SetStatusMessage | Logo_loading/LogoViewModel.cs:39-47 | the state becomes that of the unguarded status setter |
| LegacyViewModel.LogoViewModel.SetIsAnimating | Logo_loading/LogoViewModel.cs:25-34 | the state becomes that of the unguarded animating setter |
| LegacyViewModel.LogoViewModel.StartAnimations | Logo_loading/LogoViewModel.cs:65-79 | begins letters, dots, wave up to the first exception, then applies the start outcome to the state; no storyboard's timeline changes |
| LegacyViewModel.LogoViewModel.StopAnimations | Logo_loading/LogoViewModel.cs:84-97 | stops letters, dots, wave up to the first exception, then applies the stop outcome; no storyboard's timeline changes |
| LegacyViewModel.LogoViewModel.RestartAnimations | Logo_loading/LogoViewModel.cs:102-106 | stop then start, whatever stop did; a storyboard runs afterwards if the start reached it, or if it was running and the stop did not reach it; no storyboard's timeline changes |

## Left out

- The waveform geometry and the line-length calculation. The waveform service calls them, but they are not part of this model: their definitions are not in the constants file, so their ranges, segment counts and control points are unknown.
- The framework's runtime: key-frame interpolation, easing curves, the frame clock and the meaning of "repeat forever". Easing is a tag, and a storyboard is its timeline content plus a running flag.
- The visual-tree walk (`ContainerFromIndex`, `ApplyTemplate`, `FindName`). It is the input `lookup`. A container without a `ContentTemplate` makes Logo_loading/Views/MainWindow.xaml.cs:126 throw a NullReferenceException, which aborts the whole build and leaves the window's letter storyboard as it was; `SlotLookup` has no case for it, so the model always completes the build.
- Why the framework's `Begin`/`Stop` throw. Each storyboard carries a fixed fault oracle instead.
- Media.Storyboard.Begin: the render target passed to `Begin`/`Stop` is not modelled. Running is a per-storyboard flag, not a per-target one.
- LegacyViewModel.LogoViewModel.StartAnimations: the target parameter is dropped. That view model only forwards it to `Begin`/`Stop`, and their outcome is the fault oracle.
- The exception messages use the modern .NET wording of `ArgumentNullException`, with the "(Parameter 'target')" suffix. The wording of older runtimes is not modelled.
- The dot and colour-wave storyboards' contents. They come from resources this model does not include, so they are opaque storyboards.
- `INotifyPropertyChanged` and event delegates. They are notification and event logs. The log records the property name only, not the sender.
- The string `null` state of the view model's status before the constructor runs. The constructor sets the default status through the setter, and this is modelled as one write and one notification.
- Characters are UTF-16 code units. Surrogate pairs and grapheme clusters are not modelled.
- Window and application lifecycle: key handling, loading resources, closing, message boxes and debug logging.
- The letter model class, which the core does not use.
- These constants are declared with their values but no modelled operation reads them: `LETTER_FADE_DURATION`, `DOT_ANIMATION_DURATION`, `DOTS_START_TIME`, `DOT_INTERVAL`, `LETTER_RESET_TIME`, `LETTER_RESET_DURATION`, `WAVE_START_OFFSET`, `WAVE_END_OFFSET`, `WINDOW_TITLE`, `USER_INSTRUCTIONS` and the six colour constants. The source's key-frame code does not use them either; the lemmas in `constants.dfy` state how some of them relate to the cycle.
- Floating point: all times and opacities are exact reals.
