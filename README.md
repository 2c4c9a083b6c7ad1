# W11Boost worker progress, selection defaults and catalog integrity — a Dafny model

W11Boost applies a catalog of Windows registry tweaks. A background worker does the work, and an egui interface watches it.
This project models three parts of that program:

- **The progress record and its reporter** (`src/gui/shared_state.rs`). `SharedState` is the record the worker writes and the interface reads: the operation counters, a status line, an append-only log, the running and complete flags, and an optional error. `WorkerContext` owns one run. It resets the record, then drives it through `post_status`, `report_progress`, `post_complete` and `post_error`.
  - Both are Dafny classes whose methods update fields in place (module `SharedProgress`).
  - Each method states the exact new value of every field.
  - Each method is also tied to a value-level step function (`Step` over a `Run`), and the lemmas about whole runs are stated over that function: the log only grows, the counter counts the calls, the flags stay consistent, and the terminal outcome.
- **The selection defaults** (`src/gui/state.rs`, module `GuiState`). `TweakStates::default` builds the checked-state map from the recommended tweak ids with a loop of inserts. The module also holds the `ViewMode` enum and its derived default `Tweaks` (the constant `DefaultViewMode`), the `SelectionState` record and its derived default with nothing selected and nothing expanded (the constant `DefaultSelection`), and the `NavigationEntry` history record, which has no default.
- **The catalog integrity check** (`tests/tweak_definitions.rs`, module `TweakIntegrity`). This is a single pass over the tweaks with a set of ids already seen. It is proved to pass exactly when the declarative predicate `WellFormed` holds. On failure it reports the first offending tweak and the first assertion that tweak fails.

Rust's `u32` is the newtype `SharedProgress.u32`. The worker counter wraps at 2^32, as `AtomicU32::fetch_add` does.

## Model

| member | source | states |
|---|---|---|
| `SharedProgress.SharedState.constructor` | src/gui/shared_state.rs:9-20 | The default record: zero counters, empty status, empty log, not running, not complete, no error. |
| `SharedProgress.SharedState.Reset` | src/gui/shared_state.rs:24-34 | Whatever the prior state, `reset(n)` leaves `total_ops = n`, `completed_ops = 0`, an empty status and log, running, not complete, and no error. |
| `SharedProgress.WorkerContext.constructor` | src/gui/shared_state.rs:49-67 | `new` leaves the shared record in the `reset(n)` state, starts the worker counter at 0, and stores `n` and the input-value snapshot. |
| `SharedProgress.WorkerContext.PostStatus` | src/gui/shared_state.rs:70-78 | Sets the status to the text and appends exactly that text to the log. The earlier log, the counters, the flags and the error are unchanged. |
| `SharedProgress.WorkerContext.ReportProgress` | src/gui/shared_state.rs:81-90 | The worker counter goes up by exactly one (wrapping at 2^32), and the new value is published as `completed_ops`. All other fields are unchanged. |
| `SharedProgress.WorkerContext.PostComplete` | src/gui/shared_state.rs:93-103 | Sets not-running, complete and the fixed "Done! Reboot for changes to take full effect." message. The counters, the log and the error are untouched. |
| `SharedProgress.WorkerContext.PostError` | src/gui/shared_state.rs:106-116 | Sets not-running, `error = Some(e)` and status "Error: " + e, and appends exactly one log line "ERROR: " + e. `is_complete` and the counters are untouched. |
| `SharedProgress.IdleAndStartedConsistent` | src/gui/shared_state.rs:9-34 | Both the default record and a freshly reset one are never running and complete at once, and hold no error while running. |
| `SharedProgress.ReplayConsistent` | src/gui/shared_state.rs:70-116 | No sequence of reporter calls can make the record running and complete at once, or running with an error. |
| `SharedProgress.ReplayLog` | src/gui/shared_state.rs:70-116 | After any reporter calls, the log is the earlier log followed by one line per `post_status` (the text) and per `post_error` ("ERROR: " + e), in call order. |
| `SharedProgress.LogPrefixStable` | src/gui/shared_state.rs:70-116 | A log observed at any point of a run is a prefix of the log at every later point. |
| `SharedProgress.ReplayCounts` | src/gui/shared_state.rs:49-90 | After `new(n)` and k `report_progress` calls (k < 2^32), the worker counter and the published `completed_ops` both equal k, and `total_ops` is still n. |
| `SharedProgress.ReplayCountsWrap` | src/gui/shared_state.rs:49-90 | With no bound on the number of calls, the worker counter and the published `completed_ops` agree, and both equal the number of `report_progress` calls modulo 2^32. |
| `SharedProgress.CompletedNeverDecreases` | src/gui/shared_state.rs:81-90 | Below 2^32 calls, the published `completed_ops` at an earlier point of a run is at most its value at any later point. |
| `SharedProgress.CompletedWithinTotal` | src/gui/shared_state.rs:81-90 | `report_progress` does not clamp: `completed_ops <= total_ops` holds if and only if the caller made at most `total_ops` calls. |
| `SharedProgress.RunningUntilTerminal` | src/gui/shared_state.rs:49-90 | From `new` until a terminal call, the record stays running, not complete and error-free. |
| `SharedProgress.RunOutcome` | src/gui/shared_state.rs:93-116 | A run ending in its one terminal call is stopped. With `post_complete`, it is complete, has no error and shows the fixed message. With `post_error(e)`, it is incomplete, holds `e`, shows "Error: " + e, and its last log line is "ERROR: " + e. |
| `GuiState.DefaultTweakStates` | src/gui/state.rs:35-48 | The keys of `states` are exactly the recommended ids, and each maps to `true`. `input_values` is empty. A non-empty recommended list gives a non-empty map. |
| `TweakIntegrity.WellFormedExtend` | tests/tweak_definitions.rs:13-41 | A well-formed prefix stays well-formed after appending a tweak exactly when that tweak passes all five assertions, given the ids seen before it. |
| `TweakIntegrity.CheckIntegrity` | tests/tweak_definitions.rs:6-43 | Passes if and only if ids are pairwise distinct, and every tweak has a non-empty name and description, a known category, and non-empty subkeys in its enabled ops. On failure it names the first offending tweak and the first assertion it fails, and every tweak before it is sound. Disabled ops are never inspected. |

## Left out

- The `progress: f32` field and its division (src/gui/shared_state.rs:12, 26, 87, 99): floating point, and a division by zero when `total_ops` is 0.
- `Mutex`, `Arc` and the `AtomicU32` memory ordering: the model has a single sequential owner. Cross-thread safety cannot be expressed here.
- The egui `Context` and `request_repaint`: a fire-and-forget redraw signal with no effect on the record.
- `SharedProgress.WorkerContext.ReportProgress`: wraps at 2^32 the way a release build does. A debug build panics in the `+ 1` instead. `ReplayCounts`, `CompletedNeverDecreases` and `CompletedWithinTotal` assume fewer than 2^32 progress calls. `ReplayCountsWrap` states the wrapped count with no such bound.
- The catalog contents (`get_all_tweaks`, `CATEGORIES`, `RECOMMENDED_TWEAKS`): they become parameters. The full definitions of the tweak, category and operation types are not part of this model. Only the fields the check reads are kept, plus `disabled_ops`, which is kept to show that the check never inspects it.
- The run loop that calls the reporter, restore-point creation, the registry write primitive and the navigation-history operations are not part of this model. Their source is not among the modelled files.
- Three properties one would expect of the record are not enforced by the code. The model follows the code:
  - One would expect that `completed_ops` never exceeds `total_ops`. `report_progress` does not clamp, so this holds only when the caller makes at most `total_ops` calls (`CompletedWithinTotal`).
  - One would expect that completion is never seen together with an error. `post_complete` does not clear `error`, so a `post_error` followed by a `post_complete` shows both. What is proved is narrower: a run whose single terminal call is `post_complete` ends complete with no error (`RunOutcome`).
  - One would expect that the published `completed_ops` never decreases. With several threads sharing one `WorkerContext`, the `fetch_add` and the locked publish are separate steps. Thread A can take 1, then thread B takes 2 and publishes 2, then A publishes 1. `CompletedNeverDecreases` holds only for the single sequential owner modelled here.
