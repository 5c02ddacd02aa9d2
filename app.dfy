/**
 * The application state and its update rules, without rendering: screen
 * navigation by buttons, the mouse's back and forward buttons and the Enter
 * key; the badge name filter; and the configuration status, progress, error
 * and console that the provisioning run's messages update.
 */
module App {
  import opened Wrappers
  import opened Text
  import opened Artifacts
  import opened Transport
  import Pipeline

  datatype Screen = Welcome | CustomizeBadge | CustomizeLeds | NameBadge | Summary

  /** Position of a screen in the wizard. */
  function Position(s: Screen): nat
  {
    match s
    case Welcome => 0
    case CustomizeBadge => 1
    case CustomizeLeds => 2
    case NameBadge => 3
    case Summary => 4
  }

  /** Where the mouse's back button leads: one screen back, nowhere from the first. */
  function Previous(s: Screen): (p: Option<Screen>)
    ensures p.None? <==> s == Welcome
    ensures p.Some? ==> Position(p.value) + 1 == Position(s)
  {
    match s
    case Welcome => None
    case CustomizeBadge => Some(Welcome)
    case CustomizeLeds => Some(CustomizeBadge)
    case NameBadge => Some(CustomizeLeds)
    case Summary => Some(NameBadge)
  }

  /** Where the mouse's forward button leads: one screen on, nowhere from the last. */
  function Following(s: Screen): (n: Option<Screen>)
    ensures n.None? <==> s == Summary
    ensures n.Some? ==> Position(n.value) == Position(s) + 1
  {
    match s
    case Welcome => Some(CustomizeBadge)
    case CustomizeBadge => Some(CustomizeLeds)
    case CustomizeLeds => Some(NameBadge)
    case NameBadge => Some(Summary)
    case Summary => None
  }

  /** The two tables are inverse to each other. */
  lemma TablesInverse(a: Screen, b: Screen)
    ensures Following(a) == Some(b) <==> Previous(b) == Some(a)
  {
  }

  datatype MouseButton = BackButton | ForwardButton | OtherButton
  datatype Key = EnterKey | OtherKey

  /** What an update asks the runtime to do next. */
  datatype Command = NoCommand | FocusNameInput

  datatype Message =
    | NavigateTo(target: Screen)
    | SelectCustomizeImage(picture: Picture)
    | SelectLedMode(mode: LedMode)
    | BadgeNameChanged(name: string)
    | StartConfiguration
    | ConfigurationStepUpdate(description: string, tenths: nat)
    | ConfigurationComplete(result: Result<string, string>)
    | MouseButtonPressed(button: MouseButton)
    | KeyPressed(key: Key)

  // ---------------------------------------------------------------------------
  // The badge name

  const MaxNameLength := 23

  predicate IsAlnum(c: char)
  {
    'a' <= c <= 'z' || 'A' <= c <= 'Z' || '0' <= c <= '9'
  }

  predicate AllAlnum(s: string)
  {
    forall i | 0 <= i < |s| :: IsAlnum(s[i])
  }

  /** A name the name screen can hold: letters and digits only, at most 23 of them. */
  predicate ValidName(n: string)
  {
    |n| <= MaxNameLength && AllAlnum(n)
  }

  /** The letters and digits of `s`, in order; every other character dropped. */
  function KeepAlnum(s: string): (r: string)
    ensures |r| <= |s|
    ensures AllAlnum(r)
    ensures forall c :: multiset(r)[c] == if IsAlnum(c) then multiset(s)[c] else 0
  {
    if s == [] then []
    else
      assert s == [s[0]] + s[1..];
      if IsAlnum(s[0]) then [s[0]] + KeepAlnum(s[1..]) else KeepAlnum(s[1..])
  }

  /** A name that is letters and digits already passes the filter unchanged; so filtering twice is filtering once. */
  lemma {:induction false} KeepAlnumOfAlnum(s: string)
    requires AllAlnum(s)
    ensures KeepAlnum(s) == s
  {
    if s != [] {
      assert AllAlnum(s[1..]) by {
        forall i | 0 <= i < |s[1..]| ensures IsAlnum(s[1..][i]) {
          assert s[1..][i] == s[i + 1];
        }
      }
      KeepAlnumOfAlnum(s[1..]);
      assert s == [s[0]] + s[1..];
    }
  }

  /** One character passes the filter exactly when it is a letter or a digit. */
  lemma KeepAlnumSingle(c: char)
    ensures KeepAlnum([c]) == if IsAlnum(c) then [c] else []
  {
    assert [c][1..] == [];
  }

  /**
   * Filtering a text is filtering its parts and joining the results: the kept
   * characters stay in the order of the input.
   */
  lemma {:induction false} KeepAlnumAppend(a: string, b: string)
    ensures KeepAlnum(a + b) == KeepAlnum(a) + KeepAlnum(b)
    decreases |a|
  {
    if a == [] {
      assert a + b == b;
    } else {
      assert (a + b)[0] == a[0];
      assert (a + b)[1..] == a[1..] + b;
      KeepAlnumAppend(a[1..], b);
    }
  }

  // ---------------------------------------------------------------------------
  // The console

  /** The console with `text` appended on a line of its own (no separator before the first text). */
  function AppendLine(console: string, text: string): (r: string)
    ensures |r| >= |text| && r[|r| - |text|..] == text
    ensures console <= r
    ensures |r| == |console| + |text| + (if console == [] then 0 else 1)
  {
    if console == [] then text else console + "\n" + text
  }

  /** Appending to a joined console is joining one more text, once the console holds a non-empty first text. */
  lemma AppendToJoined(parts: seq<string>, text: string)
    requires parts == [] || parts[0] != []
    ensures AppendLine(Join(parts, "\n"), text) == Join(parts + [text], "\n")
  {
    if parts == [] {
      assert parts + [text] == [text];
    } else {
      JoinSnoc(parts, "\n", text);
      JoinNonEmpty(parts, "\n");
    }
  }

  // ---------------------------------------------------------------------------
  // The application state

  /** Everything the update rules read and write; progress is counted in tenths. */
  datatype AppState = AppState(
    screen: Screen,
    image: Option<Picture>,
    ledMode: Option<LedMode>,
    badgeName: string,
    configuring: bool,
    progress: nat,
    status: string,
    error: Option<string>,
    console: string)

  /** The state at launch: the welcome screen, the accelerometer pattern selected, nothing else. */
  function Initial(): AppState
  {
    AppState(Welcome, None, Some(Accel), [], false, 0, [], None, [])
  }

  const StartingStatus := "Starting configuration..."
  const SuccessStatus := "Configuration successful!"
  const FailureStatus := "Configuration failed"

  /**
   * Going to `target`: nothing when already there; otherwise the screen
   * changes, leaving for any screen but the summary clears the
   * configuration status, error, progress and console, and arriving at the
   * name screen asks for the name input to be focused.
   */
  function Navigation(st: AppState, target: Screen): (AppState, Command)
  {
    if st.screen == target then (st, NoCommand)
    else
      var moved := st.(screen := target);
      var cleared := if target != Summary then moved.(status := [], error := None, progress := 0, console := [])
                     else moved;
      (cleared, if target == NameBadge then FocusNameInput else NoCommand)
  }

  /** A name change: the letters and digits of the new text, taken only when there are at most 23 of them. */
  function Renamed(st: AppState, name: string): AppState
  {
    var filtered := KeepAlnum(name);
    if |filtered| <= MaxNameLength then st.(badgeName := filtered) else st
  }

  /** A run starts: in progress, no progress yet, the starting status, no error, an empty console. */
  function Started(st: AppState): AppState
  {
    st.(configuring := true, progress := 0, status := StartingStatus, error := None, console := [])
  }

  /** A progress update: its description becomes the status and a console line, its value the progress. */
  function StepShown(st: AppState, description: string, tenths: nat): AppState
  {
    st.(status := description, progress := tenths, console := AppendLine(st.console, description))
  }

  /** The run's completion: no longer in progress, full progress, and the result's status, error and console line. */
  function Completed(st: AppState, result: Result<string, string>): AppState
  {
    var done := st.(configuring := false, progress := 10);
    match result
    case Ok(message) => done.(status := SuccessStatus, error := None, console := AppendLine(st.console, message))
    case Err(e) => done.(status := FailureStatus, error := Some(e), console := AppendLine(st.console, e))
  }

  /** The mouse's back and forward buttons move one screen along the wizard, where there is one. */
  function Pressed(st: AppState, button: MouseButton): (AppState, Command)
  {
    if button == BackButton && Previous(st.screen).Some? then Navigation(st, Previous(st.screen).value)
    else if button == ForwardButton && Following(st.screen).Some? then Navigation(st, Following(st.screen).value)
    else (st, NoCommand)
  }

  /** The update rules, one message at a time. */
  function Apply(st: AppState, m: Message): (AppState, Command)
  {
    match m
    case NavigateTo(target) => Navigation(st, target)
    case SelectCustomizeImage(p) => (st.(image := Some(p)), NoCommand)
    case SelectLedMode(mode) => (st.(ledMode := Some(mode)), NoCommand)
    case BadgeNameChanged(name) => (Renamed(st, name), NoCommand)
    case StartConfiguration => (Started(st), NoCommand)
    case ConfigurationStepUpdate(description, tenths) => (StepShown(st, description, tenths), NoCommand)
    case ConfigurationComplete(result) => (Completed(st, result), NoCommand)
    case MouseButtonPressed(button) => Pressed(st, button)
    case KeyPressed(key) =>
      if key == EnterKey && st.screen == Welcome then Navigation(st, CustomizeBadge) else (st, NoCommand)
  }

  /**
   * The name on the state is always a valid name: a change is taken only
   * when its letters and digits number at most 23, and is then exactly those
   * letters and digits in order; otherwise the old name stays.
   */
  lemma NameStaysValid(st: AppState, m: Message)
    requires ValidName(st.badgeName)
    ensures ValidName(Apply(st, m).0.badgeName)
    ensures m.BadgeNameChanged? && |KeepAlnum(m.name)| <= MaxNameLength ==>
              Apply(st, m).0.badgeName == KeepAlnum(m.name)
    ensures m.BadgeNameChanged? && |KeepAlnum(m.name)| > MaxNameLength ==> Apply(st, m).0 == st
    ensures !m.BadgeNameChanged? ==> Apply(st, m).0.badgeName == st.badgeName
  {
  }

  /** Characters left for the name; the limit check keeps this from going below zero. */
  function CharactersRemaining(name: string): (k: nat)
    requires ValidName(name)
    ensures k + |name| == MaxNameLength
  {
    MaxNameLength - |name|
  }

  /**
   * Leaving for any screen but the summary forgets the last run's status,
   * error, progress and console; the rest of the state is kept.
   */
  lemma LeavingClearsStatus(st: AppState, target: Screen)
    requires st.screen != target && target != Summary
    ensures var r := Apply(st, NavigateTo(target)).0;
            && r.status == [] && r.error == None && r.progress == 0 && r.console == []
            && r == st.(screen := target, status := [], error := None, progress := 0, console := [])
  {
  }

  /** The name input is focused exactly when the name screen is entered from another screen. */
  lemma FocusOnEnteringNameScreen(st: AppState, m: Message)
    ensures Apply(st, m).1 == FocusNameInput <==>
              st.screen != NameBadge && Apply(st, m).0.screen == NameBadge
  {
  }

  /** Back undoes forward, and forward undoes back, on the screen shown. */
  lemma BackUndoesForward(st: AppState)
    ensures Following(st.screen).Some? ==>
              Apply(Apply(st, MouseButtonPressed(ForwardButton)).0, MouseButtonPressed(BackButton)).0.screen
              == st.screen
    ensures Previous(st.screen).Some? ==>
              Apply(Apply(st, MouseButtonPressed(BackButton)).0, MouseButtonPressed(ForwardButton)).0.screen
              == st.screen
  {
  }

  // ---------------------------------------------------------------------------
  // A run seen from the application

  predicate IsRunMessage(m: Message)
  {
    m.ConfigurationStepUpdate? || m.ConfigurationComplete?
  }

  /** How an event of the provisioning run reaches the update rules. */
  function FromRun(e: Pipeline.Event): (m: Message)
    ensures IsRunMessage(m)
  {
    match Pipeline.NoticeOf(e)
    case StepUpdate(description, tenths) => ConfigurationStepUpdate(description, tenths)
    case Complete(result) => ConfigurationComplete(result)
  }

  /** The messages of a run, in order. */
  function Messages(events: seq<Pipeline.Event>): (ms: seq<Message>)
    ensures |ms| == |events| && forall k | 0 <= k < |events| :: ms[k] == FromRun(events[k])
  {
    if events == [] then [] else [FromRun(events[0])] + Messages(events[1..])
  }

  /** The text a run message adds to the console: the step description, the success text or the error. */
  function ConsoleLine(m: Message): string
    requires IsRunMessage(m)
  {
    if m.ConfigurationStepUpdate? then m.description
    else match m.result
      case Ok(message) => message
      case Err(error) => error
  }

  /** Messages of a run, each adding a non-empty line to the console. */
  predicate RunMessages(ms: seq<Message>)
  {
    forall k | 0 <= k < |ms| :: IsRunMessage(ms[k]) && ConsoleLine(ms[k]) != []
  }

  /** No event of a run leaves an empty line on the console. */
  lemma RunLineNonEmpty(e: Pipeline.Event)
    ensures ConsoleLine(FromRun(e)) != []
  {
    if e.Failed? {
      var d := e.cause;
      if d.CannotWrite? {
        ContainsLength(Pipeline.ErrorText(d), Pipeline.FileOf(d.artifact));
      } else {
        ContainsLength(Pipeline.ErrorText(d), Pipeline.TextsOf(d.at).title);
      }
    }
  }

  lemma MessagesOfRun(events: seq<Pipeline.Event>)
    ensures RunMessages(Messages(events))
  {
    forall k | 0 <= k < |events|
      ensures ConsoleLine(Messages(events)[k]) != []
    {
      RunLineNonEmpty(events[k]);
    }
  }

  function ConsoleLines(ms: seq<Message>): (lines: seq<string>)
    requires forall k | 0 <= k < |ms| :: IsRunMessage(ms[k])
    ensures |lines| == |ms| && forall k | 0 <= k < |ms| :: lines[k] == ConsoleLine(ms[k])
  {
    if ms == [] then [] else [ConsoleLine(ms[0])] + ConsoleLines(ms[1..])
  }

  /** The state after each message in turn. */
  function Feed(st: AppState, ms: seq<Message>): AppState
    decreases |ms|
  {
    if ms == [] then st else Feed(Apply(st, ms[0]).0, ms[1..])
  }

  /** Feeding one more message applies it to the state fed so far. */
  lemma {:induction false} FeedSnoc(st: AppState, ms: seq<Message>, m: Message)
    ensures Feed(st, ms + [m]) == Apply(Feed(st, ms), m).0
    decreases |ms|
  {
    if ms == [] {
      assert [m][1..] == [];
    } else {
      assert (ms + [m])[1..] == ms[1..] + [m];
      FeedSnoc(Apply(st, ms[0]).0, ms[1..], m);
    }
  }

  /** A run message adds its line to the console and leaves the screen, the selections and the name alone. */
  lemma ApplyRunMessage(st: AppState, m: Message)
    requires IsRunMessage(m)
    ensures Apply(st, m).0.console == AppendLine(st.console, ConsoleLine(m))
    ensures Apply(st, m).0.screen == st.screen && Apply(st, m).0.image == st.image
    ensures Apply(st, m).0.ledMode == st.ledMode && Apply(st, m).0.badgeName == st.badgeName
  {
  }

  lemma RunMessagesSnoc(done: seq<Message>, m: Message)
    requires RunMessages(done) && IsRunMessage(m) && ConsoleLine(m) != []
    ensures RunMessages(done + [m])
    ensures ConsoleLines(done + [m]) == ConsoleLines(done) + [ConsoleLine(m)]
    ensures ConsoleLines(done) == [] || ConsoleLines(done)[0] != []
  {
    forall k | 0 <= k < |done + [m]|
      ensures IsRunMessage((done + [m])[k]) && ConsoleLine((done + [m])[k]) != []
    {
      if k < |done| {
        assert (done + [m])[k] == done[k];
      }
    }
  }

  lemma RunMessagesTail(ms: seq<Message>)
    requires RunMessages(ms) && ms != []
    ensures IsRunMessage(ms[0]) && ConsoleLine(ms[0]) != [] && RunMessages(ms[1..])
  {
    forall k | 0 <= k < |ms[1..]|
      ensures IsRunMessage(ms[1..][k]) && ConsoleLine(ms[1..][k]) != []
    {
      assert ms[1..][k] == ms[k + 1];
    }
  }

  /**
   * Fed to a console holding the lines of the messages so far, a run's
   * messages leave all their lines on the console, one per line and in
   * order, and leave the screen, the selections and the name as they were.
   */
  lemma {:induction false} FeedConsole(st: AppState, done: seq<Message>, ms: seq<Message>)
    requires RunMessages(done) && RunMessages(ms)
    requires st.console == Join(ConsoleLines(done), "\n")
    ensures RunMessages(done + ms)
    ensures Feed(st, ms).console == Join(ConsoleLines(done + ms), "\n")
    ensures Feed(st, ms).screen == st.screen && Feed(st, ms).image == st.image
    ensures Feed(st, ms).ledMode == st.ledMode && Feed(st, ms).badgeName == st.badgeName
    decreases |ms|
  {
    if ms != [] {
      var m := ms[0];
      var next := Apply(st, m).0;
      ApplyRunMessage(st, m);
      RunMessagesTail(ms);
      RunMessagesSnoc(done, m);
      AppendToJoined(ConsoleLines(done), ConsoleLine(m));
      assert done + ms == (done + [m]) + ms[1..];
      FeedConsole(next, done + [m], ms[1..]);
    } else {
      assert done + ms == done;
    }
  }

  /**
   * Fed, from a cleared console, messages of a run and then its completion,
   * the application holds all their lines on the console, shows full
   * progress and no run in progress, and shows the result: success and no
   * error, or failure and the error.
   */
  lemma FeedToCompletion(st: AppState, ms: seq<Message>, last: Message)
    requires RunMessages(ms) && last.ConfigurationComplete? && ConsoleLine(last) != []
    requires st.console == []
    ensures var fed := Feed(st, ms + [last]);
            && fed.console == Join(ConsoleLines(ms) + [ConsoleLine(last)], "\n")
            && fed.progress == 10 && !fed.configuring
            && (last.result.Ok? ==> fed.status == SuccessStatus && fed.error == None)
            && (last.result.Err? ==> fed.status == FailureStatus && fed.error == Some(last.result.error))
            && fed.screen == st.screen && fed.image == st.image && fed.ledMode == st.ledMode
            && fed.badgeName == st.badgeName
  {
    assert ConsoleLines([]) == [];
    FeedConsole(st, [], ms);
    assert [] + ms == ms;
    FeedSnoc(st, ms, last);
    AppendToJoined(ConsoleLines(ms), ConsoleLine(last));
  }

  /** The messages of the first `k` progress updates: their lines are the first `k` step descriptions. */
  lemma UpdateLines(k: nat)
    requires k <= 5
    ensures RunMessages(Messages(Pipeline.Updates()[..k]))
    ensures ConsoleLines(Messages(Pipeline.Updates()[..k])) == Pipeline.Descriptions()[..k]
  {
    var events := Pipeline.Updates()[..k];
    MessagesOfRun(events);
    forall j | 0 <= j < k
      ensures ConsoleLines(Messages(events))[j] == Pipeline.Descriptions()[j]
    {
      assert events[j] == Pipeline.Progress(j);
    }
  }

  lemma {:induction false} MessagesAppend(a: seq<Pipeline.Event>, e: Pipeline.Event)
    ensures Messages(a + [e]) == Messages(a) + [FromRun(e)]
  {
    assert |Messages(a + [e])| == |a| + 1;
    forall j | 0 <= j < |a| + 1
      ensures Messages(a + [e])[j] == (Messages(a) + [FromRun(e)])[j]
    {
      if j < |a| {
        assert (a + [e])[j] == a[j];
      }
    }
  }

  /**
   * A successful run as the application shows it: after StartConfiguration
   * and the messages of the events Pipeline.SuccessfulRun gives, the console
   * lists the five step descriptions and the success text, one per line; the
   * status says the configuration succeeded, progress is full, there is no
   * error and no run in progress; the screen, the selections and the name
   * are untouched.
   */
  lemma SuccessfulRunShown(st: AppState)
    ensures var fed := Feed(Apply(st, StartConfiguration).0, Messages(Pipeline.Updates() + [Pipeline.Succeeded]));
            && fed.console == Join(Pipeline.Descriptions() + [Pipeline.SuccessMessage], "\n")
            && fed.status == SuccessStatus && fed.progress == 10 && fed.error == None && !fed.configuring
            && fed.screen == st.screen && fed.image == st.image && fed.ledMode == st.ledMode
            && fed.badgeName == st.badgeName
  {
    assert Pipeline.Updates()[..5] == Pipeline.Updates();
    assert Pipeline.Descriptions()[..5] == Pipeline.Descriptions();
    UpdateLines(5);
    MessagesAppend(Pipeline.Updates(), Pipeline.Succeeded);
    FeedToCompletion(Apply(st, StartConfiguration).0, Messages(Pipeline.Updates()), FromRun(Pipeline.Succeeded));
  }

  /**
   * A failed run as the application shows it: after StartConfiguration and
   * the messages of the events Pipeline.FatalStopsRun gives (the first `k`
   * progress updates, then the failure), the console lists the first `k`
   * step descriptions and then the error; the status says the configuration
   * failed, the error is the diagnostic's text, progress is full and no run
   * is in progress; the screen, the selections and the name are untouched.
   */
  lemma FailedRunShown(st: AppState, k: nat, cause: Pipeline.Diagnostic)
    requires k <= 5
    ensures var fed := Feed(Apply(st, StartConfiguration).0, Messages(Pipeline.Updates()[..k] + [Pipeline.Failed(cause)]));
            var error := Pipeline.ErrorText(cause);
            && fed.console == Join(Pipeline.Descriptions()[..k] + [error], "\n")
            && fed.status == FailureStatus && fed.error == Some(error) && fed.progress == 10 && !fed.configuring
            && fed.screen == st.screen && fed.image == st.image && fed.ledMode == st.ledMode
            && fed.badgeName == st.badgeName
  {
    var last := Pipeline.Failed(cause);
    UpdateLines(k);
    MessagesAppend(Pipeline.Updates()[..k], last);
    RunLineNonEmpty(last);
    FeedToCompletion(Apply(st, StartConfiguration).0, Messages(Pipeline.Updates()[..k]), FromRun(last));
  }

  // ---------------------------------------------------------------------------
  // The application object

  /** The application, whose fields the update rules change in place. */
  class BadgeApp {
    var screen: Screen
    var selectedImage: Option<Picture>
    var selectedLedMode: Option<LedMode>
    var badgeName: string
    var isConfiguring: bool
    var progress: nat
    var status: string
    var error: Option<string>
    var console: string

    function Snapshot(): AppState
      reads this
    {
      AppState(screen, selectedImage, selectedLedMode, badgeName, isConfiguring, progress, status, error, console)
    }

    /** The name-screen counter never goes below zero. */
    predicate Valid()
      reads this
    {
      ValidName(badgeName)
    }

    constructor()
      ensures Snapshot() == Initial()
      ensures Valid()
    {
      screen := Welcome;
      selectedImage := None;
      selectedLedMode := Some(Accel);
      badgeName := [];
      isConfiguring := false;
      progress := 0;
      status := [];
      error := None;
      console := [];
    }

    method Navigate(target: Screen) returns (cmd: Command)
      requires Valid()
      modifies this
      ensures (Snapshot(), cmd) == Navigation(old(Snapshot()), target)
      ensures Valid()
    {
      cmd := NoCommand;
      if screen != target {
        screen := target;
        if target != Summary {
          status := [];
          error := None;
          progress := 0;
          console := [];
        }
        if target == NameBadge {
          cmd := FocusNameInput;
        }
      }
    }

    /** Appends a text to the console, on a line of its own unless the console is empty. */
    method AppendToConsole(text: string)
      requires Valid()
      modifies this
      ensures Snapshot() == old(Snapshot()).(console := AppendLine(old(console), text))
      ensures Valid()
    {
      if console != [] {
        console := console + "\n";
      }
      console := console + text;
    }

    method ChangeName(name: string)
      requires Valid()
      modifies this
      ensures Snapshot() == Renamed(old(Snapshot()), name)
      ensures Valid()
    {
      var filtered := KeepAlnum(name);
      if |filtered| <= MaxNameLength {
        badgeName := filtered;
      }
    }

    method BeginConfiguration()
      requires Valid()
      modifies this
      ensures Snapshot() == Started(old(Snapshot()))
      ensures Valid()
    {
      isConfiguring := true;
      progress := 0;
      status := StartingStatus;
      error := None;
      console := [];
    }

    method ShowStep(description: string, tenths: nat)
      requires Valid()
      modifies this
      ensures Snapshot() == StepShown(old(Snapshot()), description, tenths)
      ensures Valid()
    {
      status := description;
      progress := tenths;
      AppendToConsole(description);
    }

    method FinishConfiguration(result: Result<string, string>)
      requires Valid()
      modifies this
      ensures Snapshot() == Completed(old(Snapshot()), result)
      ensures Valid()
    {
      isConfiguring := false;
      progress := 10;
      var text;
      match result {
        case Ok(message) =>
          status := SuccessStatus;
          error := None;
          text := message;
        case Err(e) =>
          status := FailureStatus;
          error := Some(e);
          text := e;
      }
      AppendToConsole(text);
    }

    method PressMouse(button: MouseButton) returns (cmd: Command)
      requires Valid()
      modifies this
      ensures (Snapshot(), cmd) == Pressed(old(Snapshot()), button)
      ensures Valid()
    {
      cmd := NoCommand;
      if button == BackButton && Previous(screen).Some? {
        cmd := Navigate(Previous(screen).value);
      } else if button == ForwardButton && Following(screen).Some? {
        cmd := Navigate(Following(screen).value);
      }
    }

    /** Handles one message, as the update rules say, and keeps the name valid. */
    method Update(m: Message) returns (cmd: Command)
      requires Valid()
      modifies this
      ensures (Snapshot(), cmd) == Apply(old(Snapshot()), m)
      ensures Valid()
    {
      NameStaysValid(Snapshot(), m);
      cmd := NoCommand;
      match m {
        case NavigateTo(target) =>
          cmd := Navigate(target);
        case SelectCustomizeImage(p) =>
          selectedImage := Some(p);
        case SelectLedMode(mode) =>
          selectedLedMode := Some(mode);
        case BadgeNameChanged(name) =>
          ChangeName(name);
        case StartConfiguration =>
          BeginConfiguration();
        case ConfigurationStepUpdate(description, tenths) =>
          ShowStep(description, tenths);
        case ConfigurationComplete(result) =>
          FinishConfiguration(result);
        case MouseButtonPressed(button) =>
          cmd := PressMouse(button);
        case KeyPressed(key) =>
          if key == EnterKey && screen == Welcome {
            cmd := Navigate(CustomizeBadge);
          }
      }
    }

    /** Characters left for the name, as the name screen shows them. */
    function CharactersLeft(): (k: nat)
      reads this
      requires Valid()
      ensures k + |badgeName| == MaxNameLength
    {
      CharactersRemaining(badgeName)
    }
  }
}
