/**
 * The provisioning state machine: each tick takes the current state and the
 * result of the external effect it performed (the two local file writes in
 * Start, one fwi-serial invocation in the upload and run states) and yields
 * at most one event for the user interface and the next state.
 */
module Pipeline {
  import opened Wrappers
  import opened Text
  import opened Artifacts
  import opened Transport

  datatype State = Start | UploadConfig | UploadImage | UploadWasm | UploadSettings | RunWasm | Done

  /** Position of a state in the fixed provisioning order. */
  function Index(s: State): nat
  {
    match s
    case Start => 0
    case UploadConfig => 1
    case UploadImage => 2
    case UploadWasm => 3
    case UploadSettings => 4
    case RunWasm => 5
    case Done => 6
  }

  /** The state at a position of the fixed order. */
  function StateAt(i: nat): (s: State)
    requires i <= 6
    ensures Index(s) == i
  {
    if i == 0 then Start
    else if i == 1 then UploadConfig
    else if i == 2 then UploadImage
    else if i == 3 then UploadWasm
    else if i == 4 then UploadSettings
    else if i == 5 then RunWasm
    else Done
  }

  /** What the user chose; it is fixed for the whole run. */
  datatype Request = Request(image: Option<Picture>, ledMode: Option<LedMode>, badgeName: string)

  datatype Artifact = ConfigArtifact | SettingsArtifact

  function FileOf(a: Artifact): string
  {
    match a
    case ConfigArtifact => ConfigFile
    case SettingsArtifact => SettingsFile
  }

  /**
   * The result of a tick's external effect. Start writes the configuration
   * file and then the settings file: Written when both writes succeed,
   * WriteFailed naming the first one that fails. Every other state runs the
   * transport utility once: it exits with a status and its captured output,
   * cannot be spawned, or does not finish within the time limit.
   */
  datatype Outcome =
    | Written
    | WriteFailed(artifact: Artifact)
    | Exited(code: int, stdout: string, stderr: string)
    | SpawnError(reason: string)
    | TimedOut
  {
    predicate IsWrite() {
      Written? || WriteFailed?
    }

    predicate Succeeded() {
      Written? || (Exited? && code == 0)
    }
  }

  /** The outcome is of the kind the state's effect produces; Done performs nothing and accepts any. */
  predicate Fits(s: State, o: Outcome)
  {
    match s
    case Start => o.IsWrite()
    case Done => true
    case _ => !o.IsWrite()
  }

  /**
   * A scripted sequence of outcomes for ticks starting in `s`: the first suits
   * `s`, the later ones are process outcomes (no state after a tick is Start).
   */
  predicate ScriptFits(s: State, script: seq<Outcome>)
  {
    && (|script| > 0 ==> Fits(s, script[0]))
    && forall k | 1 <= k < |script| :: !script[k].IsWrite()
  }

  /** The five progress updates, numbered by the state they leave. */
  type StepNumber = k: nat | k < 5

  /** Why a run stopped: the file that could not be written, or how the utility failed in state `at`. */
  datatype Diagnostic =
    | CannotWrite(artifact: Artifact)
    | NonZeroExit(at: State, code: int, stdout: string, stderr: string)
    | CannotSpawn(at: State, reason: string)
    | NoAnswer(at: State)

  /**
   * What a tick reports: a progress update, or the run's completion, with
   * success or with the diagnostic of the failure. NoticeOf gives the
   * message the user interface receives for each.
   */
  datatype Event = Progress(step: StepNumber) | Succeeded | Failed(cause: Diagnostic)
  {
    predicate IsCompletion() {
      !Progress?
    }
  }

  /** The five invocations, numbered by their position in the run; Commands(req)[k] is the command line of the k-th. */
  type CommandNumber = k: nat | k < 5

  /** The external effect of one tick: the artifacts written, in order, or the command invoked. */
  datatype Effect = NoEffect | WroteFiles(files: seq<Artifact>) | Invoked(command: CommandNumber)

  datatype Transition = Transition(event: Option<Event>, next: State, effect: Effect)

  /** The five progress updates of a run in order; Updates()[Index(s)] is the one leaving s. */
  function Updates(): seq<Event>
  {
    [Progress(0), Progress(1), Progress(2), Progress(3), Progress(4)]
  }

  /**
   * The command lines of the five invocations of a run, in order: the
   * transport utility, then the argument vector. Commands(req)[Index(s) - 1]
   * is the one of s.
   */
  function Commands(req: Request): (lines: seq<seq<string>>)
    ensures |lines| == 5 && forall k | 0 <= k < 5 :: |lines[k]| > 1 && lines[k][0] == Program
  {
    [[Program] + ConfigUploadArgs(), [Program] + ImageUploadArgs(req.image), [Program] + WasmUploadArgs(),
     [Program] + SettingsUploadArgs(), [Program] + WasmRunArgs()]
  }

  /** The invocations in the order a run makes them. */
  function Order(): seq<CommandNumber>
  {
    [0, 1, 2, 3, 4]
  }

  /** The command lines of a sequence of invocations. */
  function Invocations(req: Request, commands: seq<CommandNumber>): (r: seq<seq<string>>)
    ensures |r| == |commands| && forall k | 0 <= k < |r| :: r[k] == Commands(req)[commands[k]]
  {
    if commands == [] then [] else [Commands(req)[commands[0]]] + Invocations(req, commands[1..])
  }

  /** The artifacts in the order a run writes them. */
  function WriteOrder(): seq<Artifact>
  {
    [ConfigArtifact, SettingsArtifact]
  }

  /** What is written for an artifact of a run for `req`: the file name and its content. */
  function FileContent(req: Request, a: Artifact): (string, string)
  {
    match a
    case ConfigArtifact => (ConfigFile, ConfigContent(req.ledMode, req.badgeName))
    case SettingsArtifact => (SettingsFile, SettingsContent(req.badgeName))
  }

  /** The local files a sequence of writes produces, with their contents. */
  function Files(req: Request, written: seq<Artifact>): (r: seq<(string, string)>)
    ensures |r| == |written| && forall k | 0 <= k < |r| :: r[k] == FileContent(req, written[k])
  {
    if written == [] then [] else [FileContent(req, written[0])] + Files(req, written[1..])
  }

  // ---------------------------------------------------------------------------
  // Messages

  const Step1 := "Step 1: Uploading configuration file..."
  const Step2 := "Step 2: Uploading image file..."
  const Step3 := "Step 3: Uploading WASM file..."
  const Step4 := "Step 4: Uploading settings file..."
  const Step5 := "Step 5: Running WASM application..."
  const SuccessMessage := "Configuration completed successfully!"
  /**
   * The mark the diagnostics start with, as the application spells it: the UTF-8
   * encoding of a cross mark read back as Windows-1252 text.
   */
  const FailMark := "\U{00E2}\U{0153}\U{2014}"
  const Stopped := "\nConfiguration stopped due to error."

  function Descriptions(): seq<string>
  {
    [Step1, Step2, Step3, Step4, Step5]
  }

  /** How an invoking step names its command and itself in diagnostics. */
  datatype StepTexts = StepTexts(command: string, title: string, timeoutSeconds: string)

  const ConfigTexts := StepTexts("command", "Configuration upload", "10")
  const ImageTexts := StepTexts("image upload", "Image upload", "10")
  const SettingsTexts := StepTexts("settings upload", "Settings upload", "10")
  const RunTexts := StepTexts("WASM run", "WASM execution", "30")

  /** How each invoking state names its command and itself in diagnostics. */
  function TextsOf(s: State): StepTexts
  {
    match s
    case UploadImage => ImageTexts
    case UploadSettings => SettingsTexts
    case RunWasm => RunTexts
    case _ => ConfigTexts
  }

  /** How the utility's exit status is displayed. */
  function ExitStatusText(code: int): string
  {
    "exit status: " + IntToString(code)
  }

  /**
   * The exit status line, then the captured stdout and stderr lines when they
   * are not empty: it starts with the status line and carries the status and
   * both captured streams.
   */
  function ExitReport(t: StepTexts, code: int, stdout: string, stderr: string): (report: string)
    ensures ExitHeader(t, code) <= report
    ensures Contains(report, ExitStatusText(code))
    ensures Contains(report, CapturedLine("stdout", stdout)) && Contains(report, stdout)
    ensures Contains(report, CapturedLine("stderr", stderr)) && Contains(report, stderr)
  {
    var header := ExitHeader(t, code);
    var outLine := CapturedLine("stdout", stdout);
    var errLine := CapturedLine("stderr", stderr);
    ContainsInLeft(header, outLine, ExitStatusText(code));
    ContainsInLeft(header + outLine, errLine, ExitStatusText(code));
    ContainsAtEnd(header, outLine);
    ContainsInLeft(header + outLine, errLine, outLine);
    ContainsInRight(header, outLine, stdout);
    ContainsInLeft(header + outLine, errLine, stdout);
    ContainsAtEnd(header + outLine, errLine);
    ContainsInRight(header + outLine, errLine, stderr);
    header + outLine + errLine
  }

  /** The exit status line; it carries the displayed status. */
  function ExitHeader(t: StepTexts, code: int): (header: string)
    ensures Contains(header, ExitStatusText(code))
  {
    var head := "Configuration: fwi-serial " + t.command + " completed with exit status: ";
    ContainsAtEnd(head, ExitStatusText(code));
    head + ExitStatusText(code)
  }

  /**
   * A line of captured output, on a line of its own; nothing when the stream
   * was empty. It carries the captured text.
   */
  function CapturedLine(stream: string, captured: string): (line: string)
    ensures line == [] <==> captured == []
    ensures line != [] ==> line[0] == '\n'
    ensures Contains(line, captured)
  {
    if captured == [] then
      assert OccursAt([], [], 0);
      []
    else
      ContainsAtEnd("\nConfiguration: " + stream + ": ", captured);
      "\nConfiguration: " + stream + ": " + captured
  }

  /** Builds the exit report line by line, as each step arm does. */
  method BuildExitReport(t: StepTexts, code: int, stdout: string, stderr: string)
    returns (full: string)
    ensures full == ExitReport(t, code, stdout, stderr)
  {
    var header := ExitHeader(t, code);
    var outLine := CapturedLine("stdout", stdout);
    var errLine := CapturedLine("stderr", stderr);
    full := header;
    if stdout != [] {
      full := full + outLine;
    } else {
      assert header + outLine == header;
    }
    assert full == header + outLine;
    if stderr != [] {
      full := full + errLine;
    } else {
      assert header + outLine + errLine == header + outLine;
    }
    assert full == header + outLine + errLine;
  }

  /**
   * The error text of an invocation that exited with a non-zero status: the
   * whole exit report, then the failing step's title and the captured stderr.
   */
  function ExitFailureMessage(t: StepTexts, code: int, stdout: string, stderr: string): (msg: string)
    ensures ExitReport(t, code, stdout, stderr) <= msg
    ensures Contains(msg, ExitStatusText(code)) && Contains(msg, stdout) && Contains(msg, stderr)
    ensures Contains(msg, t.title)
  {
    var report := ExitReport(t, code, stdout, stderr);
    var lead := "\nConfiguration ERROR: " + FailMark + " ";
    var rest := " failed: " + stderr + Stopped;
    var tail := lead + t.title + rest;
    ContainsInLeft(report, tail, ExitStatusText(code));
    ContainsInLeft(report, tail, stdout);
    ContainsInLeft(report, tail, stderr);
    ContainsMiddle(lead, t.title, rest);
    ContainsInRight(report, tail, t.title);
    report + tail
  }

  /** The error text of an invocation that could not be spawned. */
  function SpawnFailureMessage(t: StepTexts, reason: string): (msg: string)
    ensures Contains(msg, reason) && Contains(msg, t.title)
  {
    var withTitle := FailMark + " " + t.title;
    var beforeReason := withTitle + " error: ";
    ContainsAtEnd(FailMark + " ", t.title);
    ContainsInLeft(withTitle, " error: ", t.title);
    ContainsInLeft(beforeReason, reason, t.title);
    ContainsAtEnd(beforeReason, reason);
    ContainsInLeft(beforeReason + reason, Stopped, t.title);
    ContainsInLeft(beforeReason + reason, Stopped, reason);
    beforeReason + reason + Stopped
  }

  /** The error text of an invocation that did not finish in time. */
  function TimeoutMessage(t: StepTexts): (msg: string)
    ensures Contains(msg, t.title)
  {
    var tail := " timed out (" + t.timeoutSeconds + " seconds) - device may not be connected" + Stopped;
    ContainsMiddle(FailMark + " ", t.title, tail);
    FailMark + " " + t.title + tail
  }

  /** The error text of a failed local write; it names the file. */
  function WriteFailureMessage(a: Artifact): (msg: string)
    ensures Contains(msg, FileOf(a))
  {
    var prefix := match a
      case ConfigArtifact => "Failed to write configuration file: "
      case SettingsArtifact => "Failed to write settings file: ";
    ContainsMiddle(prefix, FileOf(a), "");
    assert prefix + FileOf(a) + "" == prefix + FileOf(a);
    prefix + FileOf(a)
  }

  /**
   * The error text of a diagnostic: a failed write names its file; a
   * non-zero exit carries the status and the captured stdout and stderr; a spawn
   * failure its reason; every utility failure names the step that failed.
   */
  function ErrorText(d: Diagnostic): (msg: string)
    ensures d.CannotWrite? ==> Contains(msg, FileOf(d.artifact))
    ensures d.NonZeroExit? ==> Contains(msg, ExitStatusText(d.code)) && Contains(msg, d.stdout)
                               && Contains(msg, d.stderr)
    ensures d.CannotSpawn? ==> Contains(msg, d.reason)
    ensures !d.CannotWrite? ==> Contains(msg, TextsOf(d.at).title)
  {
    match d
    case CannotWrite(a) => WriteFailureMessage(a)
    case NonZeroExit(at, code, stdout, stderr) => ExitFailureMessage(TextsOf(at), code, stdout, stderr)
    case CannotSpawn(at, reason) => SpawnFailureMessage(TextsOf(at), reason)
    case NoAnswer(at) => TimeoutMessage(TextsOf(at))
  }

  /** The messages the user interface receives: a step description with its progress in tenths, or the run's result. */
  datatype Notice = StepUpdate(description: string, tenths: nat) | Complete(result: Result<string, string>)

  /**
   * The message of an event: the k-th update carries the k-th description
   * and (2k + 1) tenths, so 0.1, 0.3, 0.5, 0.7, 0.9; a completion carries
   * the success text or the diagnostic's error text.
   */
  function NoticeOf(e: Event): (n: Notice)
    ensures n.StepUpdate? <==> e.Progress?
    ensures e.Progress? ==> n.description == Descriptions()[e.step] && n.tenths == 2 * e.step + 1
    ensures e == Succeeded <==> n == Complete(Ok(SuccessMessage))
    ensures e.Failed? ==> n.Complete? && n.result.Err?
  {
    match e
    case Progress(k) => StepUpdate(Descriptions()[k], 2 * k + 1)
    case Succeeded => Complete(Ok(SuccessMessage))
    case Failed(d) => Complete(Err(ErrorText(d)))
  }

  // ---------------------------------------------------------------------------
  // One tick

  /** The state a successful tick moves to. */
  function Successor(s: State): State
  {
    match s
    case Start => UploadConfig
    case UploadConfig => UploadImage
    case UploadImage => UploadWasm
    case UploadWasm => UploadSettings
    case UploadSettings => RunWasm
    case _ => Done
  }

  /** The diagnostic of a failed outcome in state `s`. */
  function Cause(s: State, o: Outcome): Diagnostic
    requires !o.Succeeded()
  {
    if o.WriteFailed? then CannotWrite(o.artifact)
    else if o.Exited? then NonZeroExit(s, o.code, o.stdout, o.stderr)
    else if o.SpawnError? then CannotSpawn(s, o.reason)
    else NoAnswer(s)
  }

  /** The first tick: write the configuration file, then the settings file; stop at the first write that fails. */
  function WriteStep(o: Outcome): Transition
  {
    match o
    case WriteFailed(ConfigArtifact) => Transition(Some(Failed(CannotWrite(ConfigArtifact))), Done, WroteFiles([]))
    case WriteFailed(SettingsArtifact) =>
      Transition(Some(Failed(CannotWrite(SettingsArtifact))), Done, WroteFiles([ConfigArtifact]))
    case _ => Transition(Some(Progress(0)), UploadConfig, WroteFiles(WriteOrder()))
  }

  /**
   * A tick of an invoking state: its own invocation, then on a zero exit (or
   * whatever happened, for the bundle upload) the state's own event and
   * the next state, otherwise the diagnostic and Done.
   */
  function InvokeStep(s: State, o: Outcome): Transition
    requires s != Start && s != Done && !o.IsWrite()
  {
    var command := Index(s) - 1;
    if s == RunWasm && o.Succeeded() then Transition(Some(Succeeded), Done, Invoked(command))
    else if o.Succeeded() || s == UploadWasm then Transition(Some(Progress(Index(s))), Successor(s), Invoked(command))
    else Transition(Some(Failed(Cause(s, o))), Done, Invoked(command))
  }

  /**
   * One tick. Done is silent and absorbing. Every other state emits exactly
   * one event and moves to the next state in the fixed order, or emits the
   * run's completion and moves to Done. A failure in Start, UploadConfig,
   * UploadImage, UploadSettings or RunWasm ends the run with its diagnostic;
   * UploadWasm moves on whatever its invocation did.
   */
  function Step(s: State, o: Outcome): (t: Transition)
    requires Fits(s, o)
    ensures s == Done ==> t == Transition(None, Done, NoEffect)
    ensures s != Done ==> t.event.Some? && (t.next == Done <==> t.event.value.IsCompletion())
    ensures t.next == Done || Index(t.next) == Index(s) + 1
    ensures t.next != Done ==> t.event == Some(Updates()[Index(s)])
    ensures s != Done && s != RunWasm && (o.Succeeded() || s == UploadWasm) ==> t.next != Done
    ensures s == RunWasm && o.Succeeded() ==> t.event == Some(Succeeded)
    ensures s != Done && s != UploadWasm && !o.Succeeded() ==> t.next == Done && t.event == Some(Failed(Cause(s, o)))
  {
    match s
    case Start => WriteStep(o)
    case Done => Transition(None, Done, NoEffect)
    case _ => InvokeStep(s, o)
  }

  /** The diagnostics of a fatal tick name the file that could not be written, or carry the utility's stdout and stderr. */
  lemma StepDiagnostics(s: State, o: Outcome)
    requires Fits(s, o)
    ensures s == Start && o.WriteFailed? ==>
              Contains(NoticeOf(Step(s, o).event.value).result.error, FileOf(o.artifact))
    ensures s != Start && s != Done && s != UploadWasm && o.Exited? && o.code != 0 ==>
              Contains(NoticeOf(Step(s, o).event.value).result.error, o.stdout)
              && Contains(NoticeOf(Step(s, o).event.value).result.error, o.stderr)
  {
  }

  /**
   * The first tick writes a prefix of the artifacts, all of them exactly
   * when it succeeds and none of them when the configuration file fails;
   * the others invoke their own command.
   */
  lemma StepEffects(s: State, o: Outcome)
    requires Fits(s, o)
    ensures s == Start ==> Step(s, o).effect.WroteFiles? && Step(s, o).effect.files <= WriteOrder()
                           && (Step(s, o).effect.files == WriteOrder() <==> o.Succeeded())
                           && (o == WriteFailed(ConfigArtifact) ==> Step(s, o).effect.files == [])
    ensures s != Start && s != Done ==> Step(s, o).effect == Invoked(Index(s) - 1)
  {
  }

  /** The tolerated step: whatever the bundle upload did, the run goes on to the settings upload. */
  lemma WasmUploadTolerated(req: Request, o: Outcome)
    requires !o.IsWrite()
    ensures Step(UploadWasm, o) == Transition(Some(Progress(3)), UploadSettings, Invoked(2))
    ensures NoticeOf(Step(UploadWasm, o).event.value) == StepUpdate(Step4, 7)
    ensures Commands(req)[2] == [Program] + WasmUploadArgs()
  {
  }

  // ---------------------------------------------------------------------------
  // A run

  /** What a sequence of ticks produced: events, invocations, files written, and the state reached. */
  datatype Trace = Trace(events: seq<Event>, spawned: seq<CommandNumber>, written: seq<Artifact>, final: State)

  function StepTrace(t: Transition): Trace
  {
    Trace(if t.event.Some? then [t.event.value] else [],
          if t.effect.Invoked? then [t.effect.command] else [],
          if t.effect.WroteFiles? then t.effect.files else [],
          t.next)
  }

  /** `a` followed by `b`. */
  function Then(a: Trace, b: Trace): Trace
  {
    Trace(a.events + b.events, a.spawned + b.spawned, a.written + b.written, b.final)
  }

  /** The ticks of a run from `s`, one per scripted outcome. */
  function Run(s: State, script: seq<Outcome>): Trace
    requires ScriptFits(s, script)
    decreases |script|
  {
    if script == [] then Trace([], [], [], s)
    else
      var t := Step(s, script[0]);
      Then(StepTrace(t), Run(t.next, script[1..]))
  }

  lemma RunCons(s: State, o: Outcome, rest: seq<Outcome>)
    requires ScriptFits(s, [o] + rest)
    ensures ScriptFits(Step(s, o).next, rest)
    ensures Run(s, [o] + rest) == Then(StepTrace(Step(s, o)), Run(Step(s, o).next, rest))
  {
    assert ([o] + rest)[1..] == rest;
  }

  /** Once Done, a run emits nothing, invokes nothing and writes nothing, however long it is polled. */
  lemma {:induction false} DoneIsSilent(script: seq<Outcome>)
    requires ScriptFits(Done, script)
    ensures Run(Done, script) == Trace([], [], [], Done)
  {
    if script != [] {
      DoneIsSilent(script[1..]);
    }
  }

  /** The first `n` events are the progress updates of the states from position `i` on. */
  predicate Progressing(i: nat, events: seq<Event>, n: nat)
  {
    n <= |events| && i + n <= 5 && forall k | 0 <= k < n :: events[k] == Updates()[i + k]
  }

  lemma ProgressingCons(i: nat, e: Event, events: seq<Event>, n: nat)
    requires i < 5 && e == Updates()[i] && Progressing(i + 1, events, n)
    ensures Progressing(i, [e] + events, n + 1)
  {
    var ev := [e] + events;
    forall k | 0 <= k < n + 1
      ensures ev[k] == Updates()[i + k]
    {
      if k > 0 {
        assert ev[k] == events[k - 1];
      }
    }
  }

  /**
   * The shape of a run from a live state: while it is live every tick
   * advanced one state and emitted that state's progress update; once it is
   * Done its last event, and only that one, is the completion.
   */
  predicate Shaped(s: State, script: seq<Outcome>)
    requires ScriptFits(s, script)
  {
    var tr := Run(s, script);
    && (tr.final != Done ==>
          Index(tr.final) == Index(s) + |script| && Progressing(Index(s), tr.events, |tr.events|))
    && (tr.final == Done ==>
          && 0 < |tr.events| && Progressing(Index(s), tr.events, |tr.events| - 1)
          && tr.events[|tr.events| - 1].IsCompletion())
  }

  /** Every run from a live state has that shape. */
  lemma {:induction false} RunShape(s: State, script: seq<Outcome>)
    requires ScriptFits(s, script) && s != Done
    ensures Shaped(s, script)
    decreases |script|
  {
    if script != [] {
      var t := Step(s, script[0]);
      if t.next == Done {
        EndsHere(s, script);
      } else {
        RunCons(s, script[0], script[1..]);
        assert [script[0]] + script[1..] == script;
        RunShape(t.next, script[1..]);
        ShapedLater(s, script);
      }
    }
  }

  /** RunShape when the first tick ends the run. */
  lemma EndsHere(s: State, script: seq<Outcome>)
    requires ScriptFits(s, script) && s != Done && script != []
    requires Step(s, script[0]).next == Done
    ensures Shaped(s, script)
  {
    var t := Step(s, script[0]);
    assert Run(s, script) == Then(StepTrace(t), Run(Done, script[1..]));
    DoneIsSilent(script[1..]);
  }

  /** RunShape when the first tick advances, given the shape of the rest of the run. */
  lemma ShapedLater(s: State, script: seq<Outcome>)
    requires ScriptFits(s, script) && s != Done && script != []
    requires Step(s, script[0]).next != Done
    requires ScriptFits(Step(s, script[0]).next, script[1..])
    requires Shaped(Step(s, script[0]).next, script[1..])
    ensures Shaped(s, script)
  {
    var i := Index(s);
    var t := Step(s, script[0]);
    var rest := Run(t.next, script[1..]);
    assert Run(s, script) == Then(StepTrace(t), rest);
    assert Run(s, script).events == [Updates()[i]] + rest.events;
    if rest.final == Done {
      ProgressingCons(i, Updates()[i], rest.events, |rest.events| - 1);
    } else {
      ProgressingCons(i, Updates()[i], rest.events, |rest.events|);
    }
  }

  lemma UpdateSteps(k: nat)
    requires k < 5
    ensures Updates()[k] == Progress(k)
  {
  }

  /** The order facts of RunOrder, for any event sequence of the shape RunShape gives. */
  lemma ShapeOrder(events: seq<Event>, done: bool)
    requires !done ==> |events| <= 5 && Progressing(0, events, |events|)
    requires done ==> 0 < |events| && Progressing(0, events, |events| - 1) && events[|events| - 1].IsCompletion()
    ensures |events| <= 6
    ensures forall k | 0 <= k < |events| :: events[k].IsCompletion() <==> done && k == |events| - 1
    ensures forall k | 0 <= k < |events| && events[k].Progress? :: events[k].step == k
  {
    forall k | 0 <= k < |events| && (!done || k < |events| - 1)
      ensures events[k] == Progress(k)
    {
      UpdateSteps(k);
    }
  }

  /**
   * The order of a run's events: the k-th is the k-th progress update,
   * whose message carries (2k + 1) tenths; a completion comes exactly
   * once, last, when the run is Done, and not at all before; every run of
   * six or more ticks is Done.
   */
  lemma RunOrder(script: seq<Outcome>)
    requires ScriptFits(Start, script)
    ensures var tr := Run(Start, script);
            && |tr.events| <= 6
            && (forall k | 0 <= k < |tr.events| ::
                  tr.events[k].IsCompletion() <==> tr.final == Done && k == |tr.events| - 1)
            && (forall k | 0 <= k < |tr.events| && tr.events[k].Progress? ::
                  tr.events[k].step == k && NoticeOf(tr.events[k]).tenths == 2 * k + 1)
            && (tr.final == Done ==> |tr.events| > 0)
            && (|script| >= 6 ==> tr.final == Done)
  {
    RunShape(Start, script);
    var tr := Run(Start, script);
    ShapeOrder(tr.events, tr.final == Done);
  }

  lemma SliceCons<T>(xs: seq<T>, a: nat, b: nat)
    requires a < b <= |xs|
    ensures xs[a..b] == [xs[a]] + xs[a + 1..b]
  {
  }

  /** A tick that advances: one progress update, the state's own effect, the next state. */
  lemma AdvancingTick(s: State, o: Outcome)
    requires Fits(s, o) && s != Done && s != RunWasm && (o.Succeeded() || s == UploadWasm)
    ensures var st := StepTrace(Step(s, o));
            && st.final != Done && Index(st.final) == Index(s) + 1
            && st.events == [Updates()[Index(s)]]
            && st.spawned == (if s == Start then [] else [Index(s) - 1])
            && st.written == (if s == Start then WriteOrder() else [])
  {
  }

  /** A tick that ends the run: one completion, the state's own effect, Done. */
  lemma FinalTick(s: State, o: Outcome)
    requires Fits(s, o) && s != Done && (s == RunWasm || (s != UploadWasm && !o.Succeeded()))
    ensures var st := StepTrace(Step(s, o));
            && st.final == Done
            && st.events == [if o.Succeeded() then Succeeded else Failed(Cause(s, o))]
            && st.spawned == (if s == Start then [] else [Index(s) - 1])
            && (s != Start ==> st.written == [])
  {
  }

  /** The precondition of SuccessFrom and SuccessInvocations: every required tick from `s` on succeeds. */
  predicate AllSucceedFrom(s: State, script: seq<Outcome>)
  {
    && ScriptFits(s, script) && s != Done
    && Index(s) + |script| >= 6
    && forall j | 0 <= j < 6 - Index(s) :: Index(s) + j == 3 || script[j].Succeeded()
  }

  lemma AllSucceedFromTail(s: State, script: seq<Outcome>)
    requires AllSucceedFrom(s, script) && s != RunWasm
    ensures Step(s, script[0]).next != Done
    ensures AllSucceedFrom(Step(s, script[0]).next, script[1..])
  {
    AdvancingTick(s, script[0]);
    var next := Step(s, script[0]).next;
    forall j | 0 <= j < 6 - Index(next)
      ensures Index(next) + j == 3 || script[1..][j].Succeeded()
    {
      assert script[1..][j] == script[j + 1];
    }
  }

  /**
   * When every required tick succeeds (the bundle upload may do anything), a
   * run from `s` emits the progress updates of the remaining states and then
   * the successful completion.
   */
  lemma {:induction false} SuccessFrom(s: State, script: seq<Outcome>)
    requires AllSucceedFrom(s, script)
    ensures var tr := Run(s, script);
            var i := Index(s);
            && tr.final == Done
            && |tr.events| == 6 - i
            && Progressing(i, tr.events, 5 - i)
            && tr.events[5 - i] == Succeeded
    decreases |script|
  {
    var i := Index(s);
    var t := Step(s, script[0]);
    var rest := Run(t.next, script[1..]);
    var tr := Run(s, script);
    assert tr == Then(StepTrace(t), rest);
    if s == RunWasm {
      FinalTick(s, script[0]);
      DoneIsSilent(script[1..]);
    } else {
      AdvancingTick(s, script[0]);
      AllSucceedFromTail(s, script);
      SuccessFrom(t.next, script[1..]);
      ProgressingCons(i, Updates()[i], rest.events, 5 - (i + 1));
    }
  }

  /**
   * When both writes succeed and every required invocation exits with status 0
   * (the bundle upload may do anything), the run writes both artifacts,
   * invokes the utility five times in the fixed order, emits the five progress
   * updates and then its one successful completion, and emits nothing more.
   */
  lemma SuccessfulRun(script: seq<Outcome>)
    requires ScriptFits(Start, script) && |script| >= 6
    requires forall j | 0 <= j < 6 && j != 3 :: script[j].Succeeded()
    ensures Run(Start, script)
            == Trace(Updates() + [Succeeded], Order(), WriteOrder(), Done)
  {
    assert AllSucceedFrom(Start, script);
    SuccessFrom(Start, script);
    ProgressingAll(Run(Start, script).events, Succeeded);
    SuccessfulInvocations(script);
    SuccessfulWrites(script);
  }

  /** The invocations of a successful run: all five commands, in order. */
  lemma SuccessfulInvocations(script: seq<Outcome>)
    requires AllSucceedFrom(Start, script)
    ensures Run(Start, script).spawned == Order()
  {
    var t := Step(Start, script[0]);
    var rest := Run(t.next, script[1..]);
    assert Run(Start, script).spawned == StepTrace(t).spawned + rest.spawned;
    AdvancingTick(Start, script[0]);
    AllSucceedFromTail(Start, script);
    SuccessFrom(t.next, script[1..]);
    InvocationsFollowEvents(t.next, script[1..]);
    assert rest.spawned == Order()[0..5];
  }

  /** The files of a successful run: both artifacts, written by its first tick. */
  lemma SuccessfulWrites(script: seq<Outcome>)
    requires AllSucceedFrom(Start, script)
    ensures Run(Start, script).written == WriteOrder()
  {
    var t := Step(Start, script[0]);
    assert Run(Start, script).written == StepTrace(t).written + Run(t.next, script[1..]).written;
    AdvancingTick(Start, script[0]);
    WritesOnlyAtStart(t.next, script[1..]);
  }

  lemma ProgressingAll(events: seq<Event>, last: Event)
    requires |events| == 6 && Progressing(0, events, 5) && events[5] == last
    ensures events == Updates() + [last]
  {
  }

  /** The precondition of FatalFrom and FatalInvocations: tick `k` is the first fatal failure. */
  predicate FirstFatalAt(s: State, script: seq<Outcome>, k: nat)
  {
    && ScriptFits(s, script) && s != Done
    && k < |script| && Index(s) + k <= 5 && Index(s) + k != 3
    && (forall j | 0 <= j < k :: Index(s) + j == 3 || script[j].Succeeded())
    && !script[k].Succeeded()
  }

  lemma FirstFatalAtTail(s: State, script: seq<Outcome>, k: nat)
    requires FirstFatalAt(s, script, k) && k > 0
    ensures Step(s, script[0]).next != Done
    ensures FirstFatalAt(Step(s, script[0]).next, script[1..], k - 1)
  {
    AdvancingTick(s, script[0]);
    var next := Step(s, script[0]).next;
    forall j | 0 <= j < k - 1
      ensures Index(next) + j == 3 || script[1..][j].Succeeded()
    {
      assert script[1..][j] == script[j + 1];
    }
  }

  /**
   * A failure ends the run at once: if the tick at position `k` of a run from
   * `s` fails in a fatal state and every earlier one succeeded (or was the
   * bundle upload), the run emits the updates of the earlier states, then
   * one error completion, and is Done.
   */
  lemma {:induction false} FatalFrom(s: State, script: seq<Outcome>, k: nat)
    requires FirstFatalAt(s, script, k)
    ensures StopsAt(s, script, k)
    decreases k
  {
    if k == 0 {
      FatalHere(s, script);
    } else {
      FirstFatalAtTail(s, script, k);
      FatalFrom(Step(s, script[0]).next, script[1..], k - 1);
      FatalLater(s, script, k);
    }
  }

  /**
   * The conclusion of FatalFrom: the run emits the updates of the `k` states
   * it passes, then one completion carrying the diagnostic of the failing
   * outcome in the state it failed in, and is Done.
   */
  predicate StopsAt(s: State, script: seq<Outcome>, k: nat)
    requires ScriptFits(s, script)
  {
    var tr := Run(s, script);
    && tr.final == Done
    && |tr.events| == k + 1
    && Progressing(Index(s), tr.events, k)
    && k < |script| && Index(s) + k <= 5 && !script[k].Succeeded()
    && tr.events[k] == Failed(Cause(StateAt(Index(s) + k), script[k]))
  }

  /** FatalFrom when the first tick is the failing one. */
  lemma FatalHere(s: State, script: seq<Outcome>)
    requires FirstFatalAt(s, script, 0)
    ensures StopsAt(s, script, 0)
  {
    var t := Step(s, script[0]);
    assert Run(s, script) == Then(StepTrace(t), Run(t.next, script[1..]));
    FinalTick(s, script[0]);
    DoneIsSilent(script[1..]);
  }

  /** FatalFrom when the first tick advances, given the rest of the run. */
  lemma FatalLater(s: State, script: seq<Outcome>, k: nat)
    requires FirstFatalAt(s, script, k) && k > 0
    requires Step(s, script[0]).next != Done
    requires ScriptFits(Step(s, script[0]).next, script[1..])
    requires StopsAt(Step(s, script[0]).next, script[1..], k - 1)
    ensures StopsAt(s, script, k)
  {
    var t := Step(s, script[0]);
    var rest := Run(t.next, script[1..]);
    assert Run(s, script) == Then(StepTrace(t), rest);
    AdvancingTick(s, script[0]);
    ProgressingCons(Index(s), Updates()[Index(s)], rest.events, k - 1);
    assert script[1..][k - 1] == script[k];
  }

  /** A tick from an invocation state: one event and that state's own invocation. */
  lemma InvocationTick(s: State, o: Outcome)
    requires Fits(s, o) && s != Start && s != Done
    ensures var st := StepTrace(Step(s, o));
            && |st.events| == 1 && st.spawned == [Index(s) - 1]
            && (st.final == Done || Index(st.final) == Index(s) + 1)
  {
  }

  /**
   * After the first tick, each tick that emits an event also invokes its
   * state's command and nothing else: a run from a later state invokes
   * the commands of the states it passes, in order, one per event.
   */
  lemma {:induction false} InvocationsFollowEvents(s: State, script: seq<Outcome>)
    requires ScriptFits(s, script) && s != Start
    ensures FollowsEvents(s, script)
    decreases |script|
  {
    if s == Done {
      DoneIsSilent(script);
    } else if script != [] {
      var t := Step(s, script[0]);
      if t.next == Done {
        LastInvocation(s, script);
      } else {
        InvocationTick(s, script[0]);
        InvocationsFollowEvents(t.next, script[1..]);
        NextInvocation(s, script);
      }
    }
  }

  /** The conclusion of InvocationsFollowEvents. */
  predicate FollowsEvents(s: State, script: seq<Outcome>)
    requires ScriptFits(s, script) && s != Start
  {
    var tr := Run(s, script);
    && Index(s) - 1 + |tr.events| <= 5
    && tr.spawned == Order()[Index(s) - 1..Index(s) - 1 + |tr.events|]
  }

  /** InvocationsFollowEvents for a tick that advances, given the rest of the run. */
  lemma NextInvocation(s: State, script: seq<Outcome>)
    requires ScriptFits(s, script) && s != Start && s != Done && script != []
    requires Step(s, script[0]).next != Done
    requires FollowsEvents(Step(s, script[0]).next, script[1..])
    ensures FollowsEvents(s, script)
  {
    var i := Index(s);
    var t := Step(s, script[0]);
    var rest := Run(t.next, script[1..]);
    assert Run(s, script) == Then(StepTrace(t), rest);
    InvocationTick(s, script[0]);
    SliceCons(Order(), i - 1, i + |rest.events|);
  }

  /** InvocationsFollowEvents for a tick that ends the run. */
  lemma LastInvocation(s: State, script: seq<Outcome>)
    requires ScriptFits(s, script) && s != Start && s != Done && script != []
    requires Step(s, script[0]).next == Done
    ensures FollowsEvents(s, script)
  {
    var i := Index(s);
    var t := Step(s, script[0]);
    InvocationTick(s, script[0]);
    DoneIsSilent(script[1..]);
    var tr := Run(s, script);
    assert tr == Then(StepTrace(t), Trace([], [], [], Done));
    assert |tr.events| == 1;
    assert tr.spawned == [i - 1] == Order()[i - 1..i];
  }

  /** Files are written only by the first tick: a run from any later state writes nothing. */
  lemma {:induction false} WritesOnlyAtStart(s: State, script: seq<Outcome>)
    requires ScriptFits(s, script) && s != Start
    ensures Run(s, script).written == []
    decreases |script|
  {
    if script != [] {
      var t := Step(s, script[0]);
      assert Run(s, script).written == StepTrace(t).written + Run(t.next, script[1..]).written;
      WritesOnlyAtStart(t.next, script[1..]);
    }
  }

  lemma ProgressingPrefix(events: seq<Event>, k: nat, last: Event)
    requires |events| == k + 1 && Progressing(0, events, k) && events[k] == last
    ensures events == Updates()[..k] + [last]
  {
  }

  /**
   * FatalFrom for a whole run: a fatal failure at tick `k` leaves the first
   * `k` progress updates and then the failure's diagnostic, and the run is Done.
   */
  lemma FatalStopsRun(script: seq<Outcome>, k: nat)
    requires ScriptFits(Start, script)
    requires k < |script| && k <= 5 && k != 3
    requires forall j | 0 <= j < k :: j == 3 || script[j].Succeeded()
    requires !script[k].Succeeded()
    ensures Run(Start, script).final == Done
    ensures Run(Start, script).events == Updates()[..k] + [Failed(Cause(StateAt(k), script[k]))]
  {
    FatalFrom(Start, script, k);
    ProgressingPrefix(Run(Start, script).events, k, Failed(Cause(StateAt(k), script[k])));
  }

  /**
   * The effects of a run that fails at tick `k`: the commands of the states
   * before the failing one, in order, and both artifacts once the first tick
   * has passed.
   */
  lemma FatalRunEffects(script: seq<Outcome>, k: nat)
    requires ScriptFits(Start, script)
    requires k < |script| && k <= 5 && k != 3
    requires forall j | 0 <= j < k :: j == 3 || script[j].Succeeded()
    requires !script[k].Succeeded()
    ensures Run(Start, script).spawned == Order()[..k]
    ensures k > 0 ==> Run(Start, script).written == WriteOrder()
  {
    if k == 0 {
      FatalAtStart(script);
    } else {
      FatalAfterStart(script, k);
    }
  }

  lemma FatalAtStart(script: seq<Outcome>)
    requires ScriptFits(Start, script) && script != [] && !script[0].Succeeded()
    ensures Run(Start, script).spawned == []
  {
    FinalTick(Start, script[0]);
    DoneIsSilent(script[1..]);
  }

  lemma FatalAfterStart(script: seq<Outcome>, k: nat)
    requires FirstFatalAt(Start, script, k) && k > 0
    ensures Run(Start, script).spawned == Order()[..k]
    ensures Run(Start, script).written == WriteOrder()
  {
    var t := Step(Start, script[0]);
    FirstFatalAtTail(Start, script, k);
    FatalFrom(t.next, script[1..], k - 1);
    AdvancingTick(Start, script[0]);
    InvocationsFollowEvents(t.next, script[1..]);
    WritesOnlyAtStart(t.next, script[1..]);
    assert Order()[..k] == Order()[0..k];
  }

  /**
   * What a failed run tells the user: a failed write names its file, a
   * failed invocation names its step, and a non-zero exit carries the
   * utility's stdout and stderr.
   */
  lemma FatalRunDiagnostics(script: seq<Outcome>, k: nat)
    requires ScriptFits(Start, script)
    requires k < |script| && k <= 5 && k != 3
    requires forall j | 0 <= j < k :: j == 3 || script[j].Succeeded()
    requires !script[k].Succeeded()
    ensures |Run(Start, script).events| == k + 1 && Run(Start, script).events[k].Failed?
    ensures var error := NoticeOf(Run(Start, script).events[k]).result.error;
            && (script[k].WriteFailed? ==> Contains(error, FileOf(script[k].artifact)))
            && (k > 0 ==> Contains(error, TextsOf(StateAt(k)).title))
            && (script[k].Exited? ==> Contains(error, script[k].stdout) && Contains(error, script[k].stderr))
  {
    FatalStopsRun(script, k);
  }

  lemma OrderedInvocations(req: Request, k: nat)
    requires k <= 5
    ensures Invocations(req, Order()[..k]) == Commands(req)[..k]
  {
  }

  /** A failed run has invoked the command lines of the states before the failing one, in order. */
  lemma FatalRunInvocations(req: Request, script: seq<Outcome>, k: nat)
    requires ScriptFits(Start, script)
    requires k < |script| && k <= 5 && k != 3
    requires forall j | 0 <= j < k :: j == 3 || script[j].Succeeded()
    requires !script[k].Succeeded()
    ensures Invocations(req, Run(Start, script).spawned) == Commands(req)[..k]
  {
    FatalRunEffects(script, k);
    OrderedInvocations(req, k);
  }

  /** A successful run runs the five command lines in order and writes both files with their contents. */
  lemma SuccessfulRunEffects(req: Request, script: seq<Outcome>)
    requires ScriptFits(Start, script) && |script| >= 6
    requires forall j | 0 <= j < 6 && j != 3 :: script[j].Succeeded()
    ensures Invocations(req, Run(Start, script).spawned) == Commands(req)
    ensures Files(req, Run(Start, script).written)
            == [(ConfigFile, ConfigContent(req.ledMode, req.badgeName)), (SettingsFile, SettingsContent(req.badgeName))]
  {
    SuccessfulRun(script);
  }

  // ---------------------------------------------------------------------------
  // The driver

  lemma ThenAssoc(a: Trace, b: Trace, c: Trace)
    ensures Then(Then(a, b), c) == Then(a, Then(b, c))
  {
  }

  /** One more tick of the driver keeps "what was collected, then the rest of the run" equal to the whole run. */
  lemma DriveTick(trace: Trace, s: State, script: seq<Outcome>, i: nat, whole: Trace)
    requires i < |script| && ScriptFits(s, script[i..])
    requires Then(trace, Run(s, script[i..])) == whole
    ensures ScriptFits(Step(s, script[i]).next, script[i + 1..])
    ensures Then(Then(trace, StepTrace(Step(s, script[i]))), Run(Step(s, script[i]).next, script[i + 1..]))
            == whole
  {
    var t := Step(s, script[i]);
    assert script[i..][1..] == script[i + 1..];
    assert Run(s, script[i..]) == Then(StepTrace(t), Run(t.next, script[i + 1..]));
    ThenAssoc(trace, StepTrace(t), Run(t.next, script[i + 1..]));
  }

  /** Feeds the scripted outcomes to Step one tick at a time and collects what the run does. */
  method Drive(script: seq<Outcome>) returns (trace: Trace)
    requires ScriptFits(Start, script)
    ensures trace == Run(Start, script)
  {
    var state := Start;
    trace := Trace([], [], [], Start);
    var i := 0;
    while i < |script|
      invariant 0 <= i <= |script|
      invariant trace.final == state
      invariant ScriptFits(state, script[i..])
      invariant Then(trace, Run(state, script[i..])) == Run(Start, script)
    {
      var t := Step(state, script[i]);
      DriveTick(trace, state, script, i, Run(Start, script));
      trace := Then(trace, StepTrace(t));
      state := t.next;
      i := i + 1;
    }
    assert script[i..] == [];
  }
}
