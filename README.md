# GuiReader: the init-and-play state machine

GuiReader is a small eframe/egui window that reads a text editor aloud through the
`tts` crate. All of its logic lives in the `Main` enum of `src/main.rs`. The enum
has four variants: `Init`, `Error`, `Panicked` and `Running`. `App::update` runs
once per frame and moves the window from one variant to the next:

- `Init{handle, signal, try}` waits until the init thread stores `true` into its
  signal. It then swaps itself out for `Panicked` and joins the thread.
  - If the thread panicked and `try >= 3`, the window stays `Panicked`.
  - If the thread panicked and `try < 3`, `update` assigns `Main::inited(try + 1)`
    (which spawns a new thread) and then calls `unwrap()` on the `Err`. That frame
    panics, so this path never retries.
  - A construction error becomes `Error(message)`. It is never retried.
  - A constructed engine gets its begin, stop and end callbacks registered, in that
    order. The `||` stops at the first failure, and any failure leads to `Panicked`.
    If all three succeed, the window becomes `Running` with an empty text, selection
    `0..0` and the flag `false`.
- `Running{tts, text, position, running}` reads the shared flag once. A click issues
  `stop()` if the flag is set and `speak(text, true)` if not. A failed command leads
  to `Panicked`. The frame then builds the editor hint by cutting the text twice
  with `split_at_mut(position.start)`. An edit replaces the text and sets the
  selection to `0.min(len)..len.min(len.saturating_sub(1))`.
- The callbacks run on the engine's threads. Begin stores `true`; stop and end
  store `false`.
- `Error` and `Panicked` only draw a message.

The model has three modules:

- `Text` (`text.dfy`): the UTF-8 byte length that `String::len` returns, the
  character boundaries that `split_at_mut` needs, and the selection reset.
- `GuiReader` (`gui_reader.dfy`): the `Main` datatype and `FrameStep`, a pure
  function giving the next state and the calls one frame makes. Class `App` holds
  the state. Its `Update` method follows the code of `update` step by step and is
  proved equal to `FrameStep`.
- `GuiReaderRuns` (`properties.dfy`): lemmas about single frames, and about runs.
  A run is any interleaving of frames, the init thread's signal and utterance
  callbacks. A frame that panics ends the run (`Crashed`).

The outside world is turned into frame inputs. `Input` holds:

- the join outcome: thread panicked, `Ok(Err(message))` or `Ok(Ok(engine))`;
- the result of each of the three registrations;
- whether the button was clicked;
- the result of the engine command;
- the editor's change.

What a frame does to the outside world is returned as a sequence of `Call`s: join,
spawn, register, stop, speak, request repaint, abort.

Points where the code does less than its own structure suggests. The model
follows what the code does.

- The `try` counter and the `try >= 3` bound suggest that failed attempts were
  meant to be retried. But `src/main.rs:91` turns a construction error into
  `Error` at once, and only a thread panic reaches the retry code.
- The `try >= 3` branch at `src/main.rs:64-65` is never taken. `RunsStayReachable`
  shows every `Init` reached from `Main::new()` has `try == 0`: the first thread
  panic aborts the frame instead of retrying. `Panicked` itself is reachable, by a
  failed registration (`src/main.rs:80`) or a failed command (`src/main.rs:148`).
  So the message at `src/main.rs:109`, "Panicked while or failed to load TTS 3
  times", is shown only after failures that it does not describe.
- The join can report a thread panic only if the thread panics after it stored its
  signal. A panic inside `Tts::default()` leaves the signal `false`, and the window
  shows "Loading" forever. The model keeps the three-way join outcome because
  `update` handles all three.

## Model

| member | source | states |
|---|---|---|
| `Text.CharLen` | src/main.rs:174 | a character takes 1 to 4 bytes in UTF-8, and exactly 1 when it is ASCII |
| `Text.ByteLen` | src/main.rs:174 | `text.len()` is at least the number of characters and at most four times it, and is 0 exactly for the empty text |
| `Text.AsciiByteLen` | src/main.rs:174 | for an ASCII text, `len()` equals the number of characters |
| `Text.ZeroIsCharBoundary` | src/main.rs:162-163 | offset 0 is a character boundary of every text |
| `Text.CharBoundaryInText` | src/main.rs:162-163 | a character boundary is never past the end of the text, so a cut there is in bounds |
| `Text.ResetSelection` | src/main.rs:174 | the reset selection starts at 0 and ends inside the text; it is non-empty exactly when the text has 2 or more bytes; it ends one byte before the end of a non-empty text; both `split_at_mut(position.start)` cuts are in bounds for it |
| `Text.HelloWorldSelection` | src/main.rs:174 | "hello world" gets the selection `0..10` |
| `Text.EndMayFallInsideCharacter` | src/main.rs:174 | the end of the reset selection can fall inside a character ("é" gives `0..1`); it is never used to cut, so this cannot panic |
| `GuiReader.Inited` | src/main.rs:35-47 | `inited(n)` is an `Init` with attempt `n`, unchanged, whose signal is still `false` |
| `GuiReader.Registrations` | src/main.rs:75-78 | the registrations tried are a prefix of begin, stop, end, with 1 to 3 entries; every one before the last succeeded; the last one failed unless all three were tried |
| `GuiReader.Toggle` | src/main.rs:127-131 | the command is `stop()` exactly when the flag is set, and otherwise `speak` of the current text with interrupt on |
| `GuiReader.InitFrame` | src/main.rs:54-99 | without the signal, `Init` is unchanged and nothing is called; the join happens exactly when the signal is set; the frame panics exactly on a thread panic with `try < 3`; it ends in `Error` exactly on a construction error, carrying its message; it ends in `Running([], 0..0, false)` exactly when construction and all three registrations succeed |
| `GuiReader.RunningFrame` | src/main.rs:112-177 | the frame ends in `Panicked` or `Running`, and in `Panicked` exactly when a click's command fails; the flag is kept; it panics exactly when the command did not fail and the text cuts are out of bounds; a click makes the toggle command its first call; without an edit, text and selection are kept; after an edit, the text is the new one and the selection is reset from it |
| `GuiReader.FrameStep` | src/main.rs:51-180 | `Error` and `Panicked` stay put with no call; only `Init` can lead to `Init`; `Error` is reached only from `Init`; a join happens only in `Init` with the signal set; `Running` leads only to `Running` or `Panicked` |
| `GuiReader.Signalled` | src/main.rs:41 | the init thread's store sets the signal of an `Init` and keeps its attempt; every other state is unchanged |
| `GuiReader.Notified` | src/main.rs:76-78 | in `Running`, the flag becomes `true` exactly for begin (stop and end store `false`), with text and selection kept; other states are unchanged |
| `GuiReader.App.constructor` | src/main.rs:31-33 | `Main::new()` is `inited(0)`: attempt 0, signal `false` |
| `GuiReader.App.Update` | src/main.rs:51-180 | one frame changes the state and makes calls exactly as `FrameStep` prescribes |
| `GuiReader.App.StoreSignal` | src/main.rs:39-43 | the init thread's store sets the signal of the current `Init` and changes nothing else |
| `GuiReader.App.Notify` | src/main.rs:75-78 | in `Running`, begin sets the flag, and stop and end clear it; text and selection stay; other states are unchanged |
| `GuiReaderRuns.InitWaitsForSignal` | src/main.rs:54-55 | while the signal is `false`, a frame leaves `Init` unchanged and makes no call, in particular no join |
| `GuiReaderRuns.ThreadPanicGivesUp` | src/main.rs:56-66 | a thread panic with `try >= 3` leaves `Panicked` after the join, with no new attempt and no repaint |
| `GuiReaderRuns.ThreadPanicRetryAborts` | src/main.rs:63-69 | a thread panic with `try < 3` assigns `Init(try + 1)` and spawns its thread, then the unwrap aborts; the run ends and never reaches `Running` or `Error` |
| `GuiReaderRuns.ConstructionErrorNotRetried` | src/main.rs:70-91 | a construction error becomes `Error(message)` whatever the attempt, with a join and a repaint and no new attempt |
| `GuiReaderRuns.RegistrationFailurePanics` | src/main.rs:75-82 | a failed registration leads to `Panicked` without repaint; begin is always tried; stop only after begin succeeded; end only after both succeeded; the last one tried is the one that failed |
| `GuiReaderRuns.RegistrationsStartSession` | src/main.rs:72-89 | if all three registrations succeed, the state is `Running` with empty text, selection `0..0` and flag `false`, after join, the three registrations in order, and a repaint |
| `GuiReaderRuns.ClickIssuesOneCommand` | src/main.rs:118-150 | a click issues exactly one engine command: `stop()` if the flag read at frame start is set, otherwise `speak(text, true)`; the state becomes `Panicked` exactly when that command fails; otherwise it stays `Running` with the flag untouched |
| `GuiReaderRuns.NoClickNoCommand` | src/main.rs:118-150 | without a click no engine command is issued, and the state stays `Running` with the same flag |
| `GuiReaderRuns.EditResetsSelection` | src/main.rs:127-175 | in a frame with no click, or with a click whose command succeeded, an edit (with selection start 0) replaces the text and resets the selection from the new text; the calls are the command and a repaint if there was a click, and none otherwise |
| `GuiReaderRuns.NoEditKeepsSelection` | src/main.rs:153-175 | in a frame with no edit and no failed command, text and selection stay as they were (`*position` is assigned only when the editor reports a change); the calls are the command and a repaint if there was a click, and none otherwise |
| `GuiReaderRuns.HelloWorldEdit` | src/main.rs:174 | editing "hello" into "hello world" gives the selection `0..10` |
| `GuiReaderRuns.StopFailurePanics` | src/main.rs:127-149 | a failed `stop()` while speaking ends in `Panicked` after one stop command |
| `GuiReaderRuns.TerminalStatesStay` | src/main.rs:101-111 | `Error` and `Panicked` stay unchanged under any events |
| `GuiReaderRuns.FlagFollowsCallbacks` | src/main.rs:72-78 | in any interleaving of frames and callbacks that leaves the session running, the flag holds what the last callback stored, or its earlier value if no callback ran; frames never write it |
| `GuiReaderRuns.NoCommandWritesFlag` | src/main.rs:118-150 | a frame in `Running` either keeps the flag or ends in `Panicked` |
| `GuiReaderRuns.StepKeepsReachable` | src/main.rs:51-180 | every event that does not panic preserves the invariant: `Init` has attempt 0, and the selection starts at 0 and lies inside the text |
| `GuiReaderRuns.RunsStayReachable` | src/main.rs:63-174 | along every run, every `Init` is attempt 0, so the `try >= 3` branch is never taken; in `Running` the selection starts at 0, ends inside the text, and both `split_at_mut(position.start)` cuts are in bounds |
| `GuiReaderRuns.NewIsReachable` | src/main.rs:31-33 | `Main::new()` satisfies the invariant |
| `GuiReaderRuns.AbortOnlyOnThreadPanic` | src/main.rs:60-69 | from a reachable state, a frame panics only if the state is the first attempt with its signal set and the join reports a thread panic; the text cuts at lines 162-163 never panic |
| `GuiReaderRuns.CrashNeedsThreadPanic` | src/main.rs:60-69 | a run from a reachable state that ends by a panic has an event `i` where the state is the first attempt with its signal set, and event `i` is a frame whose join reports a thread panic and which ends the run |

## Left out

- egui rendering and layout are left out: panels, headings, labels, the scroll
  area, the `LayoutJob` and its colours, and the editor widget. A click and an edit
  (with the new text) are frame inputs instead. The button label and status text
  are only drawings of the flag.
- Threads, `JoinHandle`, `Arc<AtomicBool>` and `Ordering::Relaxed` are left out.
  The signal and the flag are plain booleans in the state, and the join outcome is
  an input. A frame reads the flag once and never writes it, so callbacks between
  frames cover every interleaving.
- The `tts` crate is left out: `Tts::default`, `speak`, `stop` and
  `on_utterance_*` are foreign calls. Their results are inputs, and an engine
  error's text is an opaque string. The engine handle is not stored in `Running`.
- `ctx.request_repaint()` is recorded as a call, but what it does is not modelled.
  `name()`, `main()`/`eframe::run_native` and the `f32::INFINITY` width are
  process and layout plumbing.
- GuiReader.App.constructor: `Main::new()` spawns the first init thread, but the
  constructor returns no calls, so no `Spawn(0)` is recorded. Only the thread
  spawned on the retry path appears, as `Spawn(try + 1)`.
- The spawned thread's body is modelled only as the event that stores its signal.
  A panic inside `Tts::default()`, which would leave the signal unset forever, is
  not a separate event.
- src/talker.rs is left out. `Talker` is never used by `src/main.rs`, and its one
  getter is a field read under a lock.
- A run stops at the first panic in `update`. What eframe does after such a panic
  is not part of this model.
