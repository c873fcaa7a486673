# Portal command recording and replay, in Dafny

This project models the core of the portal client: a sandboxed guest draws
by calling a fixed set of host functions. Each call is recorded as an event
in a per-instance queue. Once per tick the queue is drained and replayed into
the primitives of the scene: centre-origin rectangles, filled paths and text
labels. A small lifecycle record decides when the guest's `setup` and
`update` entry points run, and how a newly loaded instance replaces the
active one.

Modules, one per component:

- `Events` (`events.dfy`): the queued `HostEvent`s and their argument
  records, points, colours and the default red.
- `Host` (`host.dfy`): the ten host functions as one `Invoke` over a
  `HostCall`, and `Record`, a guest making a sequence of calls.
- `Replay` (`replay.dfy`): the path/shape state machine. `Step` replays one
  event. `Run` folds it over a queue. `Drain` is one tick's drain, which
  starts from the fresh state (no fill, empty path, size -1 by -1).
- `ReplayLemmas` (`replay_lemmas.dfy`): what each event does after any
  history, reference characterisations of the emitted scene, and worked
  cases of the state machine's quirks.
- `Lifecycle` (`lifecycle.dfy`): the bindings and store resources, the swap
  after a load, the setup, update, drain and clear systems, and runs of them.

Coordinates are `real`. The colour parser lives in a file that is not part
of this model, so it is a parameter `parse: string -> Color` of the replay
about which nothing is assumed. The guest's `setup` and `update` are also
not modelled as code. Each invocation is given as the sequence of host calls
the guest made before it returned or trapped.

The update system unwraps the store whenever the bindings exist. The setup
system unwraps it when the bindings exist and their setup flag is also
raised. Both rely on the precondition `Consistent`: bindings and store are present
together and belong to the same instance. Every transition preserves it
(`Lifecycle.Exec`), starting from the empty world.

A failed `Fill` leaves the pending path in place (portal/src/main.rs:354-356).
So a stray path command before `BeginPath` stays at the head of the path, and
every later path of the same drain is not drawn either
(`ReplayLemmas.StrayCommandBlocksLaterPaths`).

## Model

| member | source | states |
|---|---|---|
| Host.Invoke | portal/src/main.rs:105-192 | every host call returns `Ok`, the only value of the result type; `print` leaves the queue unchanged; every other call appends exactly one event, keeps earlier entries, and that event decodes back to the call with its arguments |
| Host.Record | portal/src/main.rs:105-192 | a sequence of guest calls keeps the earlier queue as a prefix and adds one event per non-`print` call, and those events are the calls in call order |
| Host.RecordAppend | portal/src/main.rs:110-113 | recording two call sequences one after the other is recording their concatenation (the queue is FIFO across invocations) |
| Host.RecordsUnique | portal/src/main.rs:105-192 | the calls determine the recorded event sequence uniquely |
| ReplayLemmas.RunAppend | portal/src/main.rs:256 | replaying a concatenated queue is replaying its parts in order, outputs concatenated: the drain consumes events strictly front to back |
| ReplayLemmas.EmittedCount | portal/src/main.rs:256-391 | each event emits at most one primitive, and every `FillRect` and `Label` emits one |
| ReplayLemmas.FillStyleSetsFill | portal/src/main.rs:258-261 | after any history a fill style sets the pending fill to the parsed colour and emits nothing |
| ReplayLemmas.FillRectEmitsOneRect | portal/src/main.rs:262-283 | after any history `FillRect` emits one rectangle with extents (x+width, y+height) in the pending fill or red, records width and height, clears the fill, and keeps the path |
| ReplayLemmas.BeginPathKeepsPath | portal/src/main.rs:284-286 | `BeginPath` appends a start marker to the existing path without resetting it |
| ReplayLemmas.PathEventAppends | portal/src/main.rs:287-363 | `MoveTo`, `CubicBezierTo`, `Arc` and `ClosePath` append their own entry to the path and change nothing else |
| ReplayLemmas.FillSucceeds | portal/src/main.rs:293-353 | a `Fill` on a path starting with `Begin` emits one path built from the remaining entries with the current rectangle size, in the pending fill or red, then empties the path and clears the fill |
| ReplayLemmas.FillFails | portal/src/main.rs:354-356 | a `Fill` on an empty path, or one not starting with `Begin`, emits nothing, keeps path and fill, and logs one warning |
| ReplayLemmas.LabelEmitsText | portal/src/main.rs:364-389 | a `Label` emits one text primitive with its text, size, parsed colour and position, and leaves fill, path and size untouched |
| ReplayLemmas.SizeIsLastRect | portal/src/main.rs:254-269 | the size arcs are offset by is that of the latest `FillRect` replayed so far, or -1 by -1 without one |
| ReplayLemmas.BuildAppend | portal/src/main.rs:298-339 | the builder calls for a path are those of its entries, in order |
| ReplayLemmas.BuildIgnoresBegins | portal/src/main.rs:315-317 | later `Begin` markers add no builder call, and each one is reported once |
| ReplayLemmas.RectsFollowFillRects | portal/src/main.rs:262-283 | the rectangles of a drain correspond one-to-one, in order, to its `FillRect` events, with extents (x+width, y+height) |
| ReplayLemmas.TextsFollowLabels | portal/src/main.rs:364-389 | the text primitives of a drain correspond one-to-one, in order, to its `Label` events |
| ReplayLemmas.LabelsIndependent | portal/src/main.rs:364-389 | removing every `Label` from a queue leaves the final state and all rectangles and paths unchanged |
| ReplayLemmas.DefaultFillWithoutStyle | portal/src/main.rs:279-282 | with no fill style set, every rectangle and path is red |
| ReplayLemmas.OpenPathDiscarded | portal/src/main.rs:252-256 | path commands and styles still pending when the queue ends change neither the scene nor the log |
| ReplayLemmas.LoneFillWarns | portal/src/main.rs:294-356 | a `Fill` without `BeginPath` emits nothing and logs exactly one warning |
| ReplayLemmas.EmptyPathFill | portal/src/main.rs:296-353 | `BeginPath` then `Fill` on an empty path emits one empty path in the pending fill, with no warning |
| ReplayLemmas.FillRectConsumesStyle | portal/src/main.rs:262-283 | `FillRect(10,10,20,20)` gives extents (30,30); a style is used by the next rectangle only, and the following one is red |
| ReplayLemmas.ArcUsesSizeAtFill | portal/src/main.rs:300-313 | an arc is offset by the rectangle size current at `Fill` time, not at `Arc` time |
| ReplayLemmas.ArcWithoutRect | portal/src/main.rs:254-313 | without any rectangle an arc is offset by the -1 by -1 sentinel: a move to (x+0.5, y-0.5), then an arc centred at (x+r+0.5, y+r-0.5) with radii (r, r) |
| ReplayLemmas.NestedBeginIgnored | portal/src/main.rs:315-317 | a second `BeginPath` inside a path neither restarts it nor adds a segment, and is logged |
| ReplayLemmas.StrayCommandBlocksLaterPaths | portal/src/main.rs:293-356 | after a stray `MoveTo` before `BeginPath`, a later well-formed path in the same drain is not drawn either |
| Lifecycle.Install | portal/src/main.rs:495-510 | after a load, the new instance is active with setup pending and a fresh empty queue; bindings and store agree |
| Lifecycle.CompleteLoad | portal/src/main.rs:495-513 | a failed load leaves the world unchanged; a successful one installs the new instance |
| Lifecycle.RunSetup | portal/src/main.rs:423-434 | setup runs exactly when an instance is installed with the flag raised; then the same instance stays installed, the flag is lowered and only the queue gains the recorded calls; otherwise nothing changes |
| Lifecycle.RunUpdate | portal/src/main.rs:413-421 | update runs exactly when an instance is installed, and only the queue changes |
| Lifecycle.Clear | portal/src/main.rs:241-245 | all guest primitives are removed from the scene and the resources are kept |
| Lifecycle.HandleGuestEvent | portal/src/main.rs:247-256 | without a store nothing happens; otherwise the queue is emptied and the scene gains exactly what the drain of that queue emitted |
| Lifecycle.Exec | portal/src/main.rs:212-216 | any order of the systems and load completions keeps bindings and store consistent |
| Lifecycle.SetupAtMostOnce | portal/src/main.rs:427-432 | between two installs, setup is called at most once, and never again once it has run |
| Lifecycle.InstanceKept | portal/src/main.rs:413-434 | without a successful load, no run of the setup, update, drain and clear systems or failed loads removes or swaps the active instance, in bindings or store |
| Lifecycle.UpdateWhileInstalled | portal/src/main.rs:417-420 | once installed, an instance is never removed, and every update-system run calls update |
| Lifecycle.NothingRunsBeforeLoad | portal/src/main.rs:413-434 | before any successful load neither setup nor update is called |
| Lifecycle.LastAppliedWins | portal/src/main.rs:495-510 | of two loads applied in turn the last one is active with an empty queue; a failure applied later changes nothing |
| Lifecycle.FirstTicks | portal/src/main.rs:413-434 | after the first load, the first tick runs setup and update, the next only update; the queue holds exactly their calls |
| Lifecycle.TickSceneIsDrain | portal/src/main.rs:241-256 | a tick whose clear precedes its drain shows exactly the primitives that drain emitted |

## Left out

- Fetching the artifact over WebTransport, the handshake and the read loop (portal/src/main.rs:440-465). This is asynchronous network I/O; its only effect here is a `LoadOutcome`.
- Brotli decompression and the Wasmtime compile, link and instantiate steps (portal/src/main.rs:467-493). These are foreign library calls. A failure of any of them is a `LoadFailed`, and a success is an opaque `InstanceId`.
- Panics of the background task on `unwrap` of a failed connection. These also end before the swap, so they are treated like any other failed load.
- The guest's code. `setup` and `update` are given as the host calls they made; their results, including traps, are ignored as in the source.
- `string_to_bevy_color` lives in a file that is not part of this model. It is the parameter `parse`.
- Bevy ECS machinery: entity spawning, bundles, z-offsets, the main-thread handoff and system scheduling. The scene is a sequence of primitives. No order between the setup, update and drain systems is assumed.
- f32 rounding and lyon's geometry. A built path is the sequence of builder calls it was given.
- The `print` host function's debug output. It is I/O; the model records only that the queue is unchanged.
- The `handle_enter` keyboard handler (portal/src/main.rs:394-411). It only starts background loads, whose completions are the `LoadDone` actions.
- The startup system `setup` that builds the text-entry UI (registered at portal/src/main.rs:217). It lives in `ui.rs`, which is not part of this model, and it touches neither the bindings nor the store.
