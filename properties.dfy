/**
 Properties of the GuiReader state machine: what one frame does in each state,
 and what holds along every interleaving of frames, the init thread's signal
 and the engine's utterance callbacks.

 A frame reads the shared `running` flag once, at its start, and never writes
 it; so a callback that fires in the middle of a frame has the same effect as
 one that fires right after it, and runs can treat callbacks as events between
 frames.
 */
module GuiReaderRuns {
  import opened Text
  import opened GuiReader

  /** Something that happens to the application. */
  datatype Event =
    | Frame(input: Input)          // eframe calls `update`
    | InitSignalled                // the init thread stores `true` into its signal
    | Utterance(callback: Callback) // the engine invokes a registered callback

  /** The process is alive in some state, or a panic in `update` has ended it. */
  datatype Process = Alive(state: Main) | Crashed

  /** The effect of one event on a state. */
  function Apply(m: Main, e: Event): Outcome {
    match e
    case Frame(f) => FrameStep(m, f)
    case InitSignalled => Outcome(Signalled(m), [])
    case Utterance(c) => Outcome(Notified(m, c), [])
  }

  /** The process after the events `es`; a frame that panics ends it. */
  function Run(p: Process, es: seq<Event>): Process
    decreases |es|
  {
    if es == [] || p.Crashed? then p
    else
      var o := Apply(p.state, es[0]);
      Run(if Abort in o.calls then Crashed else Alive(o.next), es[1..])
  }

  /** The engine commands among `calls`, in order. */
  function Commands(calls: seq<Call>): (r: seq<Call>)
    ensures |r| <= |calls|
    ensures forall i :: 0 <= i < |r| ==> (r[i].StopSpeech? || r[i].Speak?) && r[i] in calls
    decreases |calls|
  {
    if calls == [] then []
    else
      var head := if calls[0].StopSpeech? || calls[0].Speak? then [calls[0]] else [];
      head + Commands(calls[1..])
  }

  // ---------------------------------------------------------------- Init

  /** While the signal reads `false` a frame changes nothing and joins nothing. */
  lemma InitWaitsForSignal(attempt: nat, f: Input)
    ensures FrameStep(Init(false, attempt), f) == Outcome(Init(false, attempt), [])
  {
  }

  /** A thread panic on an attempt at or past the bound gives up: `Panicked`, no new attempt. */
  lemma ThreadPanicGivesUp(attempt: nat, f: Input)
    requires attempt >= RetryLimit && f.join == ThreadPanicked
    ensures FrameStep(Init(true, attempt), f) == Outcome(Panicked, [Join])
  {
  }

  /**
   A thread panic below the bound starts attempt `attempt + 1` and then unwraps
   the `Err`: the frame panics, so no `Running` or `Error` state ever follows.
   */
  lemma ThreadPanicRetryAborts(attempt: nat, f: Input, rest: seq<Event>)
    requires attempt < RetryLimit && f.join == ThreadPanicked
    ensures FrameStep(Init(true, attempt), f) ==
              Outcome(Inited(attempt + 1), [Join, Spawn(attempt + 1), Abort])
    ensures Run(Alive(Init(true, attempt)), [Frame(f)] + rest) == Crashed
  {
  }

  /** A construction error becomes `Error(message)` whatever the attempt; no new attempt is spawned. */
  lemma ConstructionErrorNotRetried(attempt: nat, f: Input, message: string)
    requires f.join == ConstructionFailed(message)
    ensures FrameStep(Init(true, attempt), f) == Outcome(Error(message), [Join, RequestRepaint])
  {
  }

  /**
   After a successful construction, a failed registration leads to `Panicked`;
   begin, stop and end are tried in that order and none after the first failure.
   */
  lemma RegistrationFailurePanics(attempt: nat, f: Input)
    requires f.join == Constructed && !(f.beginOk && f.stopOk && f.endOk)
    ensures var o := FrameStep(Init(true, attempt), f);
      && o.next == Panicked
      && o.calls[0] == Join
      && Register(Begin) in o.calls
      && (Register(Stop) in o.calls <==> f.beginOk)
      && (Register(End) in o.calls <==> f.beginOk && f.stopOk)
      && !RegistrationOk(f, o.calls[|o.calls| - 1].callback)
      && RequestRepaint !in o.calls
  {
  }

  /** When all three registrations succeed, the session starts: empty text, `0..0`, not running. */
  lemma RegistrationsStartSession(attempt: nat, f: Input)
    requires f.join == Constructed && f.beginOk && f.stopOk && f.endOk
    ensures FrameStep(Init(true, attempt), f) ==
              Outcome(Running([], Range(0, 0), false),
                      [Join, Register(Begin), Register(Stop), Register(End), RequestRepaint])
  {
  }

  // ---------------------------------------------------------------- Running

  /**
   A click issues exactly one engine command, chosen by the flag read at the
   start of the frame; a failed command leads to `Panicked`, and the frame
   never writes the flag.
   */
  lemma ClickIssuesOneCommand(text: string, position: Range, running: bool, f: Input)
    requires f.clicked
    ensures var o := FrameStep(Running(text, position, running), f);
      && Commands(o.calls) == [if running then StopSpeech else Speak(text, true)]
      && (o.next == Panicked <==> !f.commandOk)
      && (o.next.Running? <==> f.commandOk)
      && (o.next.Running? ==> o.next.running == running)
  {
    var o := FrameStep(Running(text, position, running), f);
    var command := if running then StopSpeech else Speak(text, true);
    assert Commands([command]) == [command] by {
      assert Commands([command][1..]) == [];
    }
    assert Commands([RequestRepaint]) == [];
    assert Commands([RequestRepaint, Abort]) == [] by {
      assert [RequestRepaint, Abort][1..] == [Abort];
      assert Commands([Abort]) == [];
    }
    assert [command] + [RequestRepaint] == [command, RequestRepaint];
    assert [command, RequestRepaint][1..] == [RequestRepaint];
    assert ([command] + [RequestRepaint]) + [Abort] == [command, RequestRepaint, Abort];
    assert [command, RequestRepaint, Abort][1..] == [RequestRepaint, Abort];
  }

  /** Without a click no engine command is issued and the state stays `Running` or the frame panics. */
  lemma NoClickNoCommand(text: string, position: Range, running: bool, f: Input)
    requires !f.clicked
    ensures var o := FrameStep(Running(text, position, running), f);
      && o.next.Running? && o.next.running == running
      && Commands(o.calls) == []
  {
    assert Commands([Abort]) == [];
  }

  /**
   An edit replaces the text and resets the selection to `0..len-1` (saturating),
   also in a frame whose click issued a command that succeeded.
   */
  lemma EditResetsSelection(text: string, position: Range, running: bool, f: Input, t: string)
    requires !(f.clicked && !f.commandOk) && f.edit == Changed(t) && position.start == 0
    ensures FrameStep(Running(text, position, running), f) ==
              Outcome(Running(t, ResetSelection(t), running),
                      if f.clicked then [Toggle(text, running), RequestRepaint] else [])
  {
    ZeroIsCharBoundary(text);
  }

  /**
   Without an edit the text and the selection stay as they were: `*position`
   is assigned only when the editor reports a change.
   */
  lemma NoEditKeepsSelection(text: string, position: Range, running: bool, f: Input)
    requires !(f.clicked && !f.commandOk) && f.edit == Unchanged && SplitsInBounds(text, position)
    ensures FrameStep(Running(text, position, running), f) ==
              Outcome(Running(text, position, running),
                      if f.clicked then [Toggle(text, running), RequestRepaint] else [])
  {
  }

  /** Editing "hello" into "hello world" selects `0..10`. */
  lemma HelloWorldEdit(running: bool, f: Input)
    requires !f.clicked && f.edit == Changed("hello world")
    ensures FrameStep(Running("hello", ResetSelection("hello"), running), f).next ==
              Running("hello world", Range(0, 10), running)
  {
    HelloWorldSelection();
    EditResetsSelection("hello", ResetSelection("hello"), running, f, "hello world");
  }

  /** A failed `stop()` while speaking ends the session in `Panicked`. */
  lemma StopFailurePanics(text: string, position: Range, f: Input)
    requires f.clicked && !f.commandOk
    ensures FrameStep(Running(text, position, true), f) == Outcome(Panicked, [StopSpeech])
  {
  }

  // ---------------------------------------------------------------- runs

  /** `Error` and `Panicked` have no outgoing transitions, whatever happens. */
  lemma {:induction false} TerminalStatesStay(m: Main, es: seq<Event>)
    requires m.Error? || m.Panicked?
    ensures Run(Alive(m), es) == Alive(m)
    decreases |es|
  {
    if es != [] {
      TerminalStatesStay(m, es[1..]);
    }
  }

  /**
   The flag seen in `Running` after the events `es`, starting from `flag`: the
   value stored by the last utterance callback, or `flag` if there was none.
   */
  function FlagAfter(flag: bool, es: seq<Event>): bool
    decreases |es|
  {
    if es == [] then flag
    else FlagAfter(if es[0].Utterance? then es[0].callback == Begin else flag, es[1..])
  }

  /**
   Only the callbacks write the `running` flag: after any interleaving of
   frames and callbacks that leaves the session running, the flag is what the
   last callback stored (begin `true`, stop and end `false`).
   */
  lemma {:induction false} FlagFollowsCallbacks(
      text: string, position: Range, flag: bool, es: seq<Event>)
    ensures var p := Run(Alive(Running(text, position, flag)), es);
      p.Alive? && p.state.Running? ==> p.state.running == FlagAfter(flag, es)
    decreases |es|
  {
    if es != [] {
      var o := Apply(Running(text, position, flag), es[0]);
      if Abort !in o.calls {
        match o.next
        case Running(t, q, r) =>
          if es[0].Frame? {
            NoCommandWritesFlag(text, position, flag, es[0].input);
          }
          FlagFollowsCallbacks(t, q, r, es[1..]);
        case Panicked =>
          TerminalStatesStay(Panicked, es[1..]);
        case Error(_) =>
        case Init(_, _) =>
      }
    }
  }

  /** A frame in `Running` that stays `Running` keeps the flag. */
  lemma NoCommandWritesFlag(text: string, position: Range, flag: bool, f: Input)
    ensures var o := FrameStep(Running(text, position, flag), f);
      (o.next.Running? && o.next.running == flag) || o.next == Panicked
  {
  }

  /**
   What holds of every state reached from `Main::new()`: no retry ever starts,
   so every `Init` is the first attempt; in `Running` the selection starts at 0
   and ends inside the text.
   */
  ghost predicate Reachable(m: Main) {
    && (m.Init? ==> m.attempt == 0)
    && (m.Running? ==> m.position.start == 0 && m.position.end <= ByteLen(m.text))
  }

  /** One event keeps `Reachable` unless it ends the process. */
  lemma StepKeepsReachable(m: Main, e: Event)
    requires Reachable(m)
    ensures var o := Apply(m, e); Abort !in o.calls ==> Reachable(o.next)
  {
  }

  /**
   Along every run from `Main::new()`: every `Init` is attempt 0, so the
   `try >= 3` branch is never taken; in `Running` the selection starts at 0,
   ends inside the text, and both `split_at_mut(position.start)` calls are in
   bounds.
   */
  lemma {:induction false} RunsStayReachable(m: Main, es: seq<Event>)
    requires Reachable(m)
    ensures var p := Run(Alive(m), es);
      p.Alive? ==>
        && (p.state.Init? ==> p.state.attempt == 0 && p.state.attempt < RetryLimit)
        && (p.state.Running? ==>
              p.state.position.start == 0 && p.state.position.end <= ByteLen(p.state.text)
              && SplitsInBounds(p.state.text, p.state.position))
    decreases |es|
  {
    if es == [] {
      if m.Running? {
        ZeroIsCharBoundary(m.text);
      }
    } else {
      var o := Apply(m, es[0]);
      StepKeepsReachable(m, es[0]);
      if Abort !in o.calls {
        RunsStayReachable(o.next, es[1..]);
      }
    }
  }

  /** The first state is reachable. */
  lemma NewIsReachable()
    ensures Reachable(Inited(0))
  {
  }

  /**
   From a reachable state, a frame panics only when it is the first attempt
   joining a thread that panicked; the text cuts never panic.
   */
  lemma AbortOnlyOnThreadPanic(m: Main, f: Input)
    requires Reachable(m)
    requires Abort in FrameStep(m, f).calls
    ensures m == Init(true, 0) && f.join == ThreadPanicked
  {
    if m.Running? {
      ZeroIsCharBoundary(m.text);
    }
  }

  /**
   A run from a reachable state that ends by a panic reaches, at some event
   `i`, the first attempt with its signal set, and event `i` is the frame whose
   join reports a thread panic and which ends the process.
   */
  lemma {:induction false} CrashNeedsThreadPanic(m: Main, es: seq<Event>)
    requires Reachable(m)
    requires Run(Alive(m), es) == Crashed
    ensures exists i :: 0 <= i < |es| && es[i].Frame? && es[i].input.join == ThreadPanicked
                        && Run(Alive(m), es[..i]) == Alive(Init(true, 0))
                        && Run(Alive(m), es[..i + 1]) == Crashed
    decreases |es|
  {
    var o := Apply(m, es[0]);
    if Abort in o.calls {
      AbortOnlyOnThreadPanic(m, es[0].input);
      assert es[..0] == [];
      assert es[..1] == [es[0]];
      assert Run(Alive(m), es[..1]) == Crashed;
    } else {
      StepKeepsReachable(m, es[0]);
      CrashNeedsThreadPanic(o.next, es[1..]);
      var j :| 0 <= j < |es[1..]| && es[1..][j].Frame? && es[1..][j].input.join == ThreadPanicked
               && Run(Alive(o.next), es[1..][..j]) == Alive(Init(true, 0))
               && Run(Alive(o.next), es[1..][..j + 1]) == Crashed;
      RunFirst(m, es[..j + 1], o.next);
      RunFirst(m, es[..j + 2], o.next);
      assert es[..j + 1][1..] == es[1..][..j];
      assert es[..j + 2][1..] == es[1..][..j + 1];
      assert es[j + 1] == es[1..][j];
    }
  }

  /** A run of a non-empty sequence whose first event does not panic goes on from its next state. */
  lemma RunFirst(m: Main, es: seq<Event>, next: Main)
    requires es != [] && Abort !in Apply(m, es[0]).calls && next == Apply(m, es[0]).next
    ensures Run(Alive(m), es) == Run(Alive(next), es[1..])
  {
  }
}
