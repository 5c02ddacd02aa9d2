# Build-A-Badge provisioning core in Dafny

Build-A-Badge is a desktop wizard for personalising a conference badge.
The user picks a picture, an LED animation mode and a badge name. A
provisioning run then writes two local files and drives the `fwi-serial`
transport utility five times, to:

1. upload the configuration file;
2. upload the picture;
3. upload the application bundle;
4. upload the settings file;
5. run the bundle.

This project models the logic around that run and proves properties of it.

- `wrappers.dfy`: `Option` and `Result`.
- `text.dfy`: the sequence vocabulary the proofs use.
  - Substring containment.
  - Decimal rendering, proved to round-trip with reading digits back.
  - Splitting text at newlines, and joining lines.
- `artifacts.dfy`: the two files a run writes.
  - The LED mode numbering.
  - The configuration file (`<name>-WiLi`, then the pattern number).
  - The six-line settings file.
  - A reader for the configuration file, used to state its round trip.
- `transport.dfy`: the picture-to-asset table and the argument vector of
  each of the five utility invocations.
- `pipeline.dfy`: the provisioning state machine.
  - One tick is the pure function `Step(state, outcome)`. It gives an
    optional event, the next state, and the tick's external effect: the
    files it wrote, or the invocation it made.
  - `Run` folds `Step` over a scripted sequence of outcomes.
  - The method `Drive` is the loop that performs that fold tick by tick.
  - A tick's outcome stands for what the file system or the utility did.
    It is `Written`, `WriteFailed(file)`, `Exited(code, stdout, stderr)`,
    `SpawnError(reason)` or `TimedOut`.
- `app.dfy`: the application's update rules, without rendering.
  - The pure function `Apply(state, message)`, split one function per
    kind of message.
  - The class `BadgeApp`, whose fields its methods update in place. Each
    method's postcondition ties its new fields to the matching function.
  - Lemmas that feed a whole run's messages through the rules.

Events and effects are symbolic.

- A tick's event is `Progress(k)`, `Succeeded` or `Failed(diagnostic)`.
- A tick's effect is the list of files written, or the number of the
  invocation made.
- Separate renderers give the concrete values:
  - `NoticeOf` gives the message the interface receives: the step
    description and the progress in tenths, or the result text.
  - `ErrorText` gives a diagnostic's text.
  - `Invocations` and `Commands` give the command lines: the `fwi-serial` program and its arguments.
  - `Files` gives the file names and contents.
- The user's choices (`Request`) affect only the command lines and the
  file contents. So `Step` does not take them, and the renderers do.
- The run-level lemmas state the result both ways: as symbolic traces,
  and through the renderers.
  - `SuccessfulRunEffects` gives the concrete command lines and files.
  - `FatalRunDiagnostics` gives the concrete error text.

The application keeps progress as a floating-point fraction. Here it is a
whole number of tenths: 1, 3, 5, 7 and 9 for the five steps, and 10 on
completion.

## Model

| member | source | states |
|---|---|---|
| Artifacts.AsInteger | src/main.rs:116-133 | every LED mode has a pattern number between 0 and 13 |
| Artifacts.ModeNumbering | src/main.rs:116-133 | `ModeOf` inverts `AsInteger`: a mode's number leads back to that mode, and a number that names a mode is that mode's number |
| Artifacts.AsIntegerInjective | src/main.rs:116-133 | distinct LED modes have distinct pattern numbers |
| Artifacts.ConfigContent | src/main.rs:1655-1668 | the configuration file's text; its properties (the two lines, the placeholder, the default pattern, the round trip) are stated in ConfigRoundTrip |
| Artifacts.ConfigRoundTrip | src/main.rs:1655-1668 | for a name without newlines, the configuration text ends in a newline and has exactly two lines: `<name>-WiLi` (with `Boring` for an empty name) and the decimal pattern number (`0` with no mode). Reading it back gives that name and the selected mode, or Manual when none is selected |
| Artifacts.SettingsContent | src/main.rs:1670-1679 | the settings file's text; its properties are stated in SettingsIsTerminated and SettingsLines |
| Artifacts.SettingsIsTerminated | src/main.rs:1670-1679 | the settings text is its six lines, each ending in a newline |
| Artifacts.SettingsLines | src/main.rs:1670-1679 | for a name without newlines, the settings text ends in a newline and splits into exactly the six lines. The Wi-Fi SSID and Bluetooth name lines both carry `<name>-WiLi`, with no placeholder for an empty name. The four flag lines are fixed |
| Transport.ImageAsset | src/main.rs:1347-1365 | the asset uploaded for a picture is always a `.fwi` file under `assets/`; which asset each picture gets is stated in PlaceholderOnlyByDefault and KnownAssetsDistinct |
| Transport.PlaceholderOnlyByDefault | src/main.rs:1347-1365 | the placeholder asset is chosen exactly when no picture is selected or the picture is not one of the five known ones |
| Transport.KnownAssetsDistinct | src/main.rs:1347-1365 | the five known pictures map to five different asset files |
| Transport.ArgumentVectors | src/main.rs:1275-1282 | the configuration upload and the settings upload (1500-1507) send the file just written to the device root under its own name, with device index 1. The image upload (1371-1376) sends the chosen asset to `/images/build_a_badge.fwi` with no index. The bundle upload (1440-1443) and the bundle run (1571-1574) name the same bundle file |
| Transport.ConfigUploadArgs | src/main.rs:1275-1282 | the configuration upload's arguments; their form is stated in ArgumentVectors |
| Transport.ImageUploadArgs | src/main.rs:1371-1376 | the image upload's arguments; their form is stated in ArgumentVectors |
| Transport.WasmUploadArgs | src/main.rs:1440-1443 | the bundle upload's arguments; stated in ArgumentVectors and Pipeline.WasmUploadTolerated |
| Transport.SettingsUploadArgs | src/main.rs:1500-1507 | the settings upload's arguments; their form is stated in ArgumentVectors |
| Transport.WasmRunArgs | src/main.rs:1571-1574 | the bundle run's arguments; their form is stated in ArgumentVectors |
| Pipeline.Commands | src/main.rs:1273-1282 | the five command lines of a run, in order, each the `fwi-serial` program followed by its arguments (also 1369-1376, 1438-1443, 1498-1507, 1569-1574) |
| Pipeline.StateAt | src/main.rs:1645-1653 | the states in their fixed order, each at its own position |
| Pipeline.CapturedLine | src/main.rs:1292-1301 | a captured stream's line is empty exactly when the stream is, starts on a line of its own otherwise, and carries the captured text |
| Pipeline.ExitHeader | src/main.rs:1287 | the exit status line carries the displayed exit status |
| Pipeline.ExitReport | src/main.rs:1286-1301 | the report starts with the exit status line and carries the exit status, the stdout line and the stderr line (each only when its stream is not empty), and so the captured stdout and stderr |
| Pipeline.BuildExitReport | src/main.rs:1286-1301 | the report built line by line with appends equals ExitReport, so it has ExitReport's properties |
| Pipeline.WriteFailureMessage | src/main.rs:1237-1257 | the error of a failed write names the file that could not be written |
| Pipeline.ExitFailureMessage | src/main.rs:1303-1313 | the error of a non-zero exit starts with the whole exit report and contains the exit status, the captured stdout and stderr, and the failing step's title |
| Pipeline.SpawnFailureMessage | src/main.rs:1316-1320 | the error of an invocation that could not start contains the reason and the step's title |
| Pipeline.TimeoutMessage | src/main.rs:1321-1326 | the error of an invocation that timed out names the step |
| Pipeline.ErrorText | src/main.rs:1285-1327 | a diagnostic's text names the unwritable file; or contains the exit status, stdout and stderr of a non-zero exit, or the reason of a spawn failure; and, for any utility failure, names the step |
| Pipeline.NoticeOf | src/main.rs:1260-1264 | progress events, and only they, become step updates. The k-th carries the k-th step description and 2k+1 tenths (0.1 … 0.9, also at 1338, 1430, 1490 and 1561). Only success becomes `Complete(Ok("Configuration completed successfully!"))`. A failure becomes `Complete(Err(_))` |
| Pipeline.Step | src/main.rs:1229-1637 | Done is silent and absorbing. Every other state emits exactly one event, and moves to Done exactly when that event is the completion. Otherwise it moves to the next state in the fixed order, with that state's own progress update. A success (or anything, in the bundle upload) outside the run step moves on. The run step's success is the success event. A failure in any other state ends the run with its diagnostic |
| Pipeline.StepDiagnostics | src/main.rs:1237-1335 | a failed write's error names the file; a non-zero exit's error in a fatal step contains the captured stdout and stderr |
| Pipeline.StepEffects | src/main.rs:1229-1282 | the first tick writes a prefix of (configuration, settings): both exactly when it succeeds, none when the configuration write fails. Every later live state makes its own invocation |
| Pipeline.WasmUploadTolerated | src/main.rs:1434-1492 | whatever the bundle upload did, the run emits `Step 4: Uploading settings file...` at 0.7 and moves to the settings upload; the bundle upload's command line is `fwi-serial -s build_a_badge.wasm` |
| Pipeline.DoneIsSilent | src/main.rs:1633-1637 | any number of ticks from Done emit nothing, invoke nothing, write nothing and stay in Done |
| Pipeline.Run | src/main.rs:1219-1222 | the fold of Step over a script from a state, collecting events, invocations and writes; its properties are stated in RunOrder, SuccessfulRun, FatalStopsRun, FatalRunEffects and DoneIsSilent |
| Pipeline.RunOrder | src/main.rs:1219-1640 | for every script, a run emits at most six events. The completion occurs at most once: exactly when the run has reached Done, and as its last event. The k-th event, if a progress update, is update k at 2k+1 tenths. Six ticks always reach Done |
| Pipeline.SuccessFrom | src/main.rs:1229-1637 | from any state, when every required tick succeeds the run reaches Done. It emits the remaining progress updates in order, then the success |
| Pipeline.SuccessfulRun | src/main.rs:1229-1637 | when every write and every required invocation succeeds, the run emits the five updates then success. It invokes the five commands in order, writes both files, and ends in Done |
| Pipeline.FatalStopsRun | src/main.rs:1329-1335 | a failure at tick k in any state but the bundle upload (also 1250-1256, 1421-1427, 1552-1558 and 1626-1631) ends the run in Done. The events are the first k updates, then that failure's diagnostic, and nothing after it |
| Pipeline.FatalRunEffects | src/main.rs:1329-1335 | after a failure at tick k, exactly the invocations of the states before it were made, in order. Both files were written unless the failure was in writing them |
| Pipeline.FatalRunDiagnostics | src/main.rs:1303-1335 | the last message of a failed run is an error: it names the file for a failed write, names the step for a utility failure, and contains stdout and stderr for a non-zero exit |
| Pipeline.FatalRunInvocations | src/main.rs:1269-1282 | the command lines a failed run ran are the first k of the five, in order |
| Pipeline.SuccessfulRunEffects | src/main.rs:1234-1257 | a successful run runs all five command lines in order and writes `build_a_badge.txt` and `settings.txt` with the generated contents |
| Pipeline.Drive | src/main.rs:1219-1222 | the tick-by-tick loop over the scripted outcomes produces the trace of `Run` from Start |
| App.Previous | src/main.rs:311-318 | the back button leads one screen back, and nowhere from the welcome screen |
| App.Following | src/main.rs:325-332 | the forward button leads one screen on, and nowhere from the summary |
| App.TablesInverse | src/main.rs:311-331 | forward from a leads to b exactly when back from b leads to a |
| App.BackUndoesForward | src/main.rs:306-339 | pressing forward then back, or back then forward, returns to the screen shown, wherever the first press moved |
| App.KeepAlnum | src/main.rs:254 | the filtered name is no longer than the input, has only letters and digits, and keeps every letter and digit of the input as often as it occurs |
| App.KeepAlnumSingle | src/main.rs:254 | a single character is kept exactly when it is a letter or a digit |
| App.KeepAlnumAppend | src/main.rs:254 | filtering a concatenation is concatenating the filtered parts, so the kept characters stay in input order; with KeepAlnumSingle this fixes the filter completely |
| App.KeepAlnumOfAlnum | src/main.rs:254 | the filter leaves a letters-and-digits name unchanged, so filtering twice is filtering once |
| App.Navigation | src/main.rs:223-245 | going to a screen; its properties are stated in LeavingClearsStatus and FocusOnEnteringNameScreen |
| App.Renamed | src/main.rs:252-259 | a name change; its properties are stated in NameStaysValid |
| App.Started | src/main.rs:260-266 | the start of a run; what it leaves is stated in SuccessfulRunShown and FailedRunShown, which start from it |
| App.StepShown | src/main.rs:267-278 | a progress update; its console rule is stated in FeedConsole |
| App.Completed | src/main.rs:279-305 | a run's completion; its effect is stated in FeedToCompletion |
| App.Pressed | src/main.rs:306-339 | the back and forward buttons; their effect is stated in BackUndoesForward and TablesInverse |
| App.Apply | src/main.rs:221-350 | the update rules, one message at a time; their properties are stated in NameStaysValid, FocusOnEnteringNameScreen, LeavingClearsStatus, BackUndoesForward and the run lemmas below |
| App.NameStaysValid | src/main.rs:252-259 | every message keeps the name at most 23 letters and digits. A name change is taken as the filtered text when that has at most 23 characters, and otherwise changes nothing. Other messages keep the name |
| App.CharactersRemaining | src/main.rs:716-717 | for a valid name the characters left and the name's length add up to 23, so the counter never goes below zero |
| App.AppendLine | src/main.rs:271-275 | appending keeps the console as a prefix and ends with the text. It adds one separator exactly when the console was not empty |
| App.AppendToJoined | src/main.rs:271-275 | appending a text to a console of joined lines joins one more line |
| App.LeavingClearsStatus | src/main.rs:230-236 | moving to any screen but the summary clears status, error, progress and console, and keeps everything else |
| App.FocusOnEnteringNameScreen | src/main.rs:238-243 | the name input is focused exactly when a message moves from another screen to the name screen |
| App.FeedConsole | src/main.rs:267-304 | feeding a run's messages to a console that holds the earlier lines leaves all the lines, in order and one per line. The screen, the selections and the name are kept |
| App.FeedToCompletion | src/main.rs:279-304 | after a run's messages and its completion, the console holds all their lines. Progress is full and no run is in progress. Ok shows success with no error; Err shows failure and stores the error |
| App.SuccessfulRunShown | src/main.rs:260-304 | after StartConfiguration and a successful run, the console is the five step descriptions and the success text, one per line. Success is shown with full progress and no error |
| App.FailedRunShown | src/main.rs:260-304 | after StartConfiguration and a run that failed at tick k, the console is the first k step descriptions and the error text. Failure is shown with that error and full progress |
| App.BadgeApp.constructor | src/main.rs:193-215 | the application starts on the welcome screen, with the accelerometer mode selected, respecting the name invariant |
| App.BadgeApp.Navigate | src/main.rs:223-245 | the fields change as `Navigation` says: nothing when already there; otherwise the new screen, the clearing rule and the focus command |
| App.BadgeApp.AppendToConsole | src/main.rs:271-275 | only the console changes, by the append rule |
| App.BadgeApp.ChangeName | src/main.rs:252-259 | the fields change as `Renamed` says |
| App.BadgeApp.BeginConfiguration | src/main.rs:260-266 | the fields change as `Started` says: a run in progress, no progress, the starting status, no error, an empty console |
| App.BadgeApp.ShowStep | src/main.rs:267-278 | the fields change as `StepShown` says: the description becomes the status and a console line |
| App.BadgeApp.FinishConfiguration | src/main.rs:279-305 | the fields change as `Completed` says |
| App.BadgeApp.PressMouse | src/main.rs:306-339 | the fields change as `Pressed` says |
| App.BadgeApp.Update | src/main.rs:221-350 | handling a message changes the fields and returns the command exactly as `Apply` says, and keeps the name valid |
| App.BadgeApp.CharactersLeft | src/main.rs:716-717 | the counter shown on the name screen plus the name's length is 23 |

## Left out

- Rendering and styling (the view, the screen renderers, the style sheets, window settings, embedded image bytes) are not modelled. A picture is one of five known values or "other".
- Process spawning, the time limit and waiting are not modelled: each invocation's result is an input outcome. The 100 ms pause before the first tick, the subscription's identity key and the gating on a run in progress are framework behaviour, so they are left out too.
- Writing the files is an input outcome, `Written` or `WriteFailed(file)`, naming the first write that failed.
- Done waits forever in the application. Here a tick from Done emits nothing and stays in Done.
- Log lines printed to standard output are not modelled; they change no state. The bundle upload's message is therefore not modelled either: it is built and only printed.
- Pipeline.NoticeOf: progress is whole tenths, not a floating-point fraction.
- Pipeline.ExitStatusText: the exit status is `exit status: <code>`, the Unix form for a process that exited. A process ended by a signal is not modelled.
- Captured output is taken as text. Lossy UTF-8 decoding of the utility's bytes is not modelled.
- The time limit is 30 seconds for every step, but the diagnostics of three steps say 10 seconds. The model keeps the texts as written and does not model time.
- App.KeepAlnum: letters and digits are ASCII only. The application accepts any Unicode letter or digit.
- App.NameStaysValid: the 23 limit is on characters. The application counts bytes, and for ASCII names the two agree.
- App.BadgeApp.Navigate: the screen transition and opacity fields are not modelled; they only drive rendering. Focusing the name input is returned as a command value.
- Keyboard and mouse handling beyond Enter on the welcome screen and the back and forward buttons is not modelled.
