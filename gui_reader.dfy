/**
 The `Main` state machine of the GuiReader window: a speech engine is built on
 a background thread, then a text editor is read aloud with a Play/Pause button.

 Everything the frame function learns from the outside world is an input of one
 frame (`Input`): the result of joining the init thread, the results of the
 three callback registrations, whether the button was clicked, the result of
 the engine command, and the editor's change. What the frame does to the outside
 world is returned as a list of `Call`s. The init thread setting its signal and
 the engine's utterance callbacks are events that happen between frames.
 */
module GuiReader {
  import opened Text

  /** The `try >= 3` bound of the retry path. */
  const RetryLimit: nat := 3

  /** What `handle.join()` returns for the init thread. */
  datatype JoinOutcome =
    | ThreadPanicked                        // `Err(_)`: the thread panicked
    | Constructed                           // `Ok(Ok(tts))`
    | ConstructionFailed(message: string)   // `Ok(Err(e))`, `message` is `format!("{}", e)`

  /** The three utterance callbacks registered with the engine. */
  datatype Callback = Begin | Stop | End

  /** What the text editor reports in a frame. */
  datatype Edit = Unchanged | Changed(text: string)

  /** The inputs one frame may consult; each is read only on the path that needs it. */
  datatype Input = Input(
    join: JoinOutcome,
    beginOk: bool, stopOk: bool, endOk: bool,  // results of `on_utterance_begin/stop/end`
    clicked: bool,                             // the Play/Pause button
    commandOk: bool,                           // result of `stop()` or `speak(text, true)`
    edit: Edit)

  /** The effects of a frame on the world outside the state. */
  datatype Call =
    | Join                                  // `handle.join()` on the init thread
    | Spawn(attempt: nat)                   // a new init thread, from `Main::inited(attempt)`
    | Register(callback: Callback)          // `on_utterance_*`
    | StopSpeech                            // `tts.stop()`
    | Speak(text: string, interrupt: bool)  // `tts.speak(text, interrupt)`
    | RequestRepaint                        // `ctx.request_repaint()`
    | Abort                                 // a Rust panic inside `update`

  /**
   The `Main` enum. The join handle and the engine are left out; `signal` is the
   value of the init thread's `AtomicBool`, `running` that of the flag shared
   with the utterance callbacks.
   */
  datatype Main =
    | Init(signal: bool, attempt: nat)
    | Error(message: string)
    | Panicked
    | Running(text: string, position: Range, running: bool)

  /** A frame's new state together with the calls it made, in order. */
  datatype Outcome = Outcome(next: Main, calls: seq<Call>)

  /** `Main::inited(attempt)`: a fresh attempt whose thread has not signalled yet. */
  function Inited(attempt: nat): (m: Main)
    ensures m.Init? && m.attempt == attempt && !m.signal
  {
    Init(false, attempt)
  }

  /** The registration of `c` succeeds in this frame. */
  predicate RegistrationOk(f: Input, c: Callback) {
    match c
    case Begin => f.beginOk
    case Stop => f.stopOk
    case End => f.endOk
  }

  /**
   The registrations attempted after a successful construction: begin, stop,
   end, joined by a short-circuiting `||`, so none is attempted after a failure.
   */
  function Registrations(f: Input): (r: seq<Call>)
    ensures 1 <= |r| <= 3
    ensures r == [Register(Begin), Register(Stop), Register(End)][..|r|]
    ensures forall i :: 0 <= i < |r| - 1 ==> RegistrationOk(f, r[i].callback)
    ensures |r| == 3 || !RegistrationOk(f, r[|r| - 1].callback)
  {
    if !f.beginOk then [Register(Begin)]
    else if !f.stopOk then [Register(Begin), Register(Stop)]
    else [Register(Begin), Register(Stop), Register(End)]
  }

  /** The engine command a click issues, chosen by the flag read at the start of the frame. */
  function Toggle(text: string, running: bool): (c: Call)
    ensures c == StopSpeech <==> running
    ensures !running ==> c.Speak? && c.text == text && c.interrupt
  {
    if running then StopSpeech else Speak(text, true)
  }

  /** One call of `App::update` on the `Init` state. */
  function InitFrame(signal: bool, attempt: nat, f: Input): (o: Outcome)
    ensures !signal ==> o == Outcome(Init(signal, attempt), [])
    ensures Join in o.calls <==> signal
    ensures Abort in o.calls <==> signal && f.join == ThreadPanicked && attempt < RetryLimit
    ensures o.next.Error? <==> signal && f.join.ConstructionFailed?
    ensures o.next.Error? ==> o.next.message == f.join.message
    ensures o.next.Running? <==> signal && f.join == Constructed && f.beginOk && f.stopOk && f.endOk
    ensures o.next.Running? ==> o.next == Running([], Range(0, 0), false)
  {
    if !signal then Outcome(Init(signal, attempt), [])
    else
      match f.join
      case ThreadPanicked =>
        if attempt >= RetryLimit then Outcome(Panicked, [Join])
        // `*self = Self::inited(try + 1)`, then `handle.unwrap()` on the `Err`
        else Outcome(Inited(attempt + 1), [Join, Spawn(attempt + 1), Abort])
      case ConstructionFailed(message) =>
        Outcome(Error(message), [Join, RequestRepaint])
      case Constructed =>
        if f.beginOk && f.stopOk && f.endOk then
          Outcome(Running([], Range(0, 0), false), [Join] + Registrations(f) + [RequestRepaint])
        else
          Outcome(Panicked, [Join] + Registrations(f))
  }

  /** One call of `App::update` on the `Running` state. */
  function RunningFrame(text: string, position: Range, running: bool, f: Input): (o: Outcome)
    ensures o.next.Panicked? || o.next.Running?
    ensures o.next.Panicked? <==> f.clicked && !f.commandOk
    ensures o.next.Running? ==> o.next.running == running
    ensures Abort in o.calls <==> !(f.clicked && !f.commandOk) && !SplitsInBounds(text, position)
    ensures f.clicked ==> |o.calls| > 0 && o.calls[0] == Toggle(text, running)
    ensures o.next.Running? && o.next.text != text ==> f.edit == Changed(o.next.text)
    ensures o.next.Running? && f.edit == Unchanged ==> o.next == Running(text, position, running)
    ensures o.next.Running? && f.edit.Changed? && Abort !in o.calls ==>
              o.next == Running(f.edit.text, ResetSelection(f.edit.text), running)
  {
    var command := if f.clicked then [Toggle(text, running)] else [];
    if f.clicked && !f.commandOk then Outcome(Panicked, command)
    else
      var calls := if f.clicked then command + [RequestRepaint] else [];
      if !SplitsInBounds(text, position) then
        Outcome(Running(text, position, running), calls + [Abort])
      else
        match f.edit
        case Unchanged => Outcome(Running(text, position, running), calls)
        case Changed(t) => Outcome(Running(t, ResetSelection(t), running), calls)
  }

  /** One call of `App::update`; `Error` and `Panicked` only draw themselves. */
  function FrameStep(m: Main, f: Input): (o: Outcome)
    ensures m.Error? || m.Panicked? ==> o == Outcome(m, [])
    ensures o.next.Init? ==> m.Init?
    ensures o.next.Error? ==> m.Init? || m == o.next
    ensures Join in o.calls ==> m.Init? && m.signal
    ensures m.Running? ==> o.next.Running? || o.next.Panicked?
  {
    match m
    case Init(signal, attempt) => InitFrame(signal, attempt, f)
    case Error(_) => Outcome(m, [])
    case Panicked => Outcome(m, [])
    case Running(text, position, running) => RunningFrame(text, position, running, f)
  }

  /** The init thread's `signal.store(true)`, once `Tts::default()` has returned. */
  function Signalled(m: Main): (r: Main)
    ensures m.Init? ==> r.Init? && r.signal && r.attempt == m.attempt
    ensures !m.Init? ==> r == m
  {
    match m
    case Init(_, attempt) => Init(true, attempt)
    case _ => m
  }

  /** An utterance callback: begin stores `true`, stop and end store `false`. */
  function Notified(m: Main, c: Callback): (r: Main)
    ensures r.Running? <==> m.Running?
    ensures r.Running? ==> r.text == m.text && r.position == m.position && (r.running <==> c == Begin)
    ensures !m.Running? ==> r == m
  {
    match m
    case Running(text, position, _) => Running(text, position, c == Begin)
    case _ => m
  }

  /** The application object that eframe drives once per frame. */
  class App {
    var state: Main

    /** `Main::new()`: the first attempt, whose thread has not signalled. */
    constructor ()
      ensures state == Inited(0)
    {
      state := Inited(0);
    }

    /** `App::update`: one frame. */
    method Update(f: Input) returns (calls: seq<Call>)
      modifies this
      ensures Outcome(state, calls) == FrameStep(old(state), f)
    {
      calls := [];
      match state
      case Init(signal, attempt) =>
        if signal {
          state := Panicked;  // `swap(self, &mut Main::Panicked)`
          calls := calls + [Join];
          match f.join {
          case ThreadPanicked =>
            if attempt >= RetryLimit {
              return;
            }
            state := Inited(attempt + 1);
            calls := calls + [Spawn(attempt + 1), Abort];
            return;
          case ConstructionFailed(message) =>
            state := Error(message);
          case Constructed =>
            calls := calls + [Register(Begin)];
            var failed := !f.beginOk;
            if !failed {
              calls := calls + [Register(Stop)];
              failed := !f.stopOk;
            }
            if !failed {
              calls := calls + [Register(End)];
              failed := !f.endOk;
            }
            if failed {
              state := Panicked;
              return;
            }
            state := Running([], Range(0, 0), false);
          }
          calls := calls + [RequestRepaint];
        }
      case Error(_) =>
      case Panicked =>
      case Running(text, position, running) =>
        if f.clicked {
          if running {
            calls := calls + [StopSpeech];
          } else {
            calls := calls + [Speak(text, true)];
          }
          if !f.commandOk {
            state := Panicked;
            return;
          }
          calls := calls + [RequestRepaint];
        }
        if !SplitsInBounds(text, position) {
          calls := calls + [Abort];
          return;
        }
        match f.edit
        case Unchanged =>
        case Changed(t) =>
          state := Running(t, ResetSelection(t), running);
    }

    /** The init thread stores `true` into its signal. */
    method StoreSignal()
      modifies this
      ensures state == Signalled(old(state))
    {
      if state.Init? {
        state := Init(true, state.attempt);
      }
    }

    /** The engine invokes the callback `c` from one of its own threads. */
    method Notify(c: Callback)
      modifies this
      ensures state == Notified(old(state), c)
    {
      if state.Running? {
        state := state.(running := c == Begin);
      }
    }
  }
}
