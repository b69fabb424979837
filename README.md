# birbwatch: the refresh, validation and proxy rules

birbwatch is a desktop viewer for live bird-camera streams. It fetches a stream list, probes each
stream's health in the background, and plays the selected stream through a local `streamlink`
proxy process. This project models the sequential rules under the Qt wiring:

- `AppState`: the three application flags (`streaming`, `getting`, `validating`), the derived
  `idle` and `refreshing` predicates, and the fixed handlers that flip the flags. The handlers are a
  reducer over hub signals, and the class `State` applies them in place.
- `ValidationCycle`: the signals of one validation cycle as a function of the item count `n` and the
  number of delivered probe results `m`. It proves what each cycle emits: `(0, n)`, one `(k, n)`
  per completion, and `done` exactly at `k == n`, so never when `n == 0`. It also proves what
  those signals do to the flags. Both GUI versions share this specification.
- `Probe`: the probe of the later GUI. It selects the first preferred quality label that the
  resolver offers and then asks `is_healthy` about that variant. The resolver and `is_healthy`
  are oracles.
- `StreamDb`: `get_streams_db`. Sources are tried in order: HTTP(S) sources and `file://` paths
  are loaded, and the first source that loads wins. One record is built per `streamlist` entry.
  Loading is an oracle.
- `Server`: `StreamServer`. It holds an optional `Popen` handle, and a ghost log records every
  spawn and every `terminate` sent. A process is live from its spawn until it is sent
  `terminate`; the invariant says that the held handle is the only live process, and that no
  process was spawned while another one was live. `terminate` does not wait for the process to
  exit, so this is a statement about the calls the server makes, not about the OS.
- `Gui`: the widgets of `src/birbwatch/gui.py` and the hub `C` that connects them (class `App`).
  A signal delivery is a method call, and connected slots run in connection order.
- `OldGui`: the older list widget of `birbwatch/gui.py`, with its two-valued health and its
  `'worst'`-only probe.
- `Decimal`: the decimal text of the port in the command line and in `loc`.

## Behaviour the model keeps as written

These are consequences of the code that a reader might not expect; the model keeps each of them:

- `refresh_streams_done` clears `getting` as well as `validating`.
- With zero streams, `done` is never emitted, so `validating` stays set.
- A selected variant that `is_healthy` rejects is still reported with its label as quality.
- Results from a superseded cycle still increment the counter: there is no generation guard.
- In the later GUI the list keeps the fetch order: each `StreamItem` is created with the tree as parent, which appends it, and `insertTopLevelItem(0, ...)` then ignores an item already in the tree. The older GUI creates items without a parent, so its list is in reverse fetch order.
- In the later GUI, a probe result reaches the list's counter before the item. So the play
  button, which is refreshed on the progress signal, still sees the item's previous health
  (`Gui.App.ProbeCompleted`).

## Model

| member | source | states |
|---|---|---|
| `AppState.State.constructor` | src/birbwatch/gui.py:35-39 | all three flags start false |
| `AppState.State.Handle` | src/birbwatch/gui.py:52-58 | the flags after a signal are the reducer applied to the flags before it |
| `AppState.RunByLastEvent` | src/birbwatch/gui.py:52-58 | after any signal sequence, each flag is decided by the last signal that sets or clears it, or keeps its start value |
| `AppState.IdleByLastEvent` | src/birbwatch/gui.py:41-58 | after any signal sequence, `refreshing` holds iff the last signal touching `getting` was `refresh_streams` or the last touching `validating` was `refresh_streams_validating` (or the start value decides); `idle` holds iff `refreshing` does not and the last of `show_player` and `show_settings` was not `show_player` (with no such signal, the start value of `streaming` decides) |
| `AppState.RefreshValidateDone` | src/birbwatch/gui.py:52-56 | after refresh, validating, done both refresh flags are false and `streaming` is unchanged |
| `ValidationCycle.ProgressSequence` | src/birbwatch/gui.py:170-185 | a cycle emits one progress signal per count 0, 1, ..., m, in increasing order, all with total n |
| `ValidationCycle.DoneExactlyAtN` | src/birbwatch/gui.py:179-185 | `done` is emitted once when a completion brings the counter to n, never otherwise, and never for n = 0 |
| `ValidationCycle.DoneFollowsFinalProgress` | src/birbwatch/gui.py:181-185 | `done` comes immediately after `(n, n)` |
| `ValidationCycle.CycleSignalsPrefix` | src/birbwatch/gui.py:179-181 | later completions only append signals; earlier ones are never changed |
| `ValidationCycle.CompletionFlags` | src/birbwatch/gui.py:183-185 | one completion changes the flags only when it is the n-th, and then clears both refresh flags |
| `ValidationCycle.FlagsAfterCycle` | src/birbwatch/gui.py:170-185 | after a cycle `getting` is false and `streaming` is unchanged; `validating` stays set until n ≥ 1 completions arrived, so it stays set forever when n = 0 |
| `ValidationCycle.IdleAfterCycle` | src/birbwatch/gui.py:41-58 | on the settings view, after a cycle of n items with m results the application is idle iff 1 ≤ n ≤ m, and refreshing otherwise |
| `Probe.FirstPreferredIsFirst` | src/birbwatch/gui.py:111-115 | the selected label is the first preferred label the resolver offers; there is none iff no preferred label is offered |
| `Probe.SelectQuality` | src/birbwatch/gui.py:111-115 | the loop with `break` returns the first offered preferred label and that label's variant, or nothing |
| `Probe.Run` | src/birbwatch/gui.py:105-128 | the probe's emitted pair equals the verdict specification; failures are reported, not raised |
| `Probe.VerdictCases` | src/birbwatch/gui.py:117-128 | the quality is None iff the resolver failed or offered no preferred label, and then healthy is false; otherwise the label is reported with `is_healthy`'s answer, including false |
| `Probe.SelectsFirstOffered` | src/birbwatch/gui.py:110-115 | offered 240p and 480p, with preferences 360p, 480p, worst, the probe selects 480p |
| `StreamDb.SourceDispatch` | src/birbwatch/stream.py:32-41 | http(s) sources go to the HTTP loader, `file://` sources to the file loader with the first 7 characters dropped, others are skipped |
| `StreamDb.SearchStopsAtFirstLoaded` | src/birbwatch/stream.py:30-45 | sources are tried in order, the first that loads is used and later ones are not tried; if none loads, all were tried and `data` is None |
| `StreamDb.UnrecognisedSkipped` | src/birbwatch/stream.py:32-41 | removing a source with no recognised prefix does not change the outcome |
| `StreamDb.NothingLoadedGivesEmptyList` | src/birbwatch/stream.py:47-49 | when no source loads a document, the result is the empty list |
| `StreamDb.BuildStreams` | src/birbwatch/stream.py:16-22 | one record per entry, in order, iff every entry has the three keys |
| `StreamDb.FromDocument` | src/birbwatch/stream.py:47-52 | `None` gives the empty list; otherwise a list is returned iff the document is an object whose `streamlist` can be iterated and every element has the three fields, with one record per element |
| `StreamDb.MalformedDocumentRaises` | src/birbwatch/stream.py:43-52 | a loaded document without `streamlist` or with an incomplete entry raises instead of falling through |
| `StreamDb.SucceedsWithOneRecordPerEntry` | src/birbwatch/stream.py:16-54 | on success there is one record per entry, in order, with copied fields and unknown health and quality |
| `StreamDb.GetStreamsDb` | src/birbwatch/stream.py:26-54 | the loop returns what the search specification selects, after examining exactly the sources up to the first that loads |
| `Decimal.ParseIntRoundTrip` | birbwatch/server.py:28 | the decimal text of the port reads back as the port |
| `Server.CommandLayout` | birbwatch/server.py:25-29 | the command is `python -m streamlink --loglevel debug --player-external-http --player-external-http-port=<port> <url> <quality>` |
| `Server.LocNamesPort` | birbwatch/server.py:13-15 | `loc` is `http://127.0.0.1:` followed by the port, the same port the proxy is told to listen on |
| `Server.LiveAfterStop` | birbwatch/server.py:33-40 | stopping sends `terminate` to the held process and no other |
| `Server.StartLeavesOneLive` | birbwatch/server.py:21-25 | stop then spawn leaves the new process as the only live one, spawned after every earlier one was sent `terminate` |
| `Server.StreamServer.constructor` | birbwatch/server.py:7-10 | port and quality are stored and no process is held |
| `Server.StreamServer.Running` | birbwatch/server.py:17-19 | in a valid state, `running` holds iff a spawned process has not yet been sent `terminate` |
| `Server.StreamServer.Location` | birbwatch/server.py:13-15 | `loc` starts with `http://127.0.0.1:` and the rest reads back as the port |
| `Server.StreamServer.Stop` | birbwatch/server.py:33-40 | the handle is always cleared; the held process, if any, is terminated; a stopped server is left as it was; port and quality are unchanged |
| `Server.StreamServer.Start` | birbwatch/server.py:21-31 | a running proxy is stopped first, then one fresh process with the fixed command is spawned and held; port and quality are unchanged |
| `Server.StartTwice` | birbwatch/server.py:21-25 | from any valid state, two starts send `terminate` to whatever was held, then to the first new process before spawning the second, leaving exactly one live process |
| `Gui.StatusColumnShowsHealth` | src/birbwatch/gui.py:73-76 | the status column is `?`, `OK` or `ERR` and tells the health exactly; the quality column is `?` for None, otherwise the label |
| `Gui.PlayEnabledWhenShownOK` | src/birbwatch/gui.py:216-218 | the play button is enabled iff a stream is selected and its status column shows `OK` |
| `Gui.StreamItem.constructor` | src/birbwatch/gui.py:62-71 | a new item holds its stream and shows its columns |
| `Gui.StreamItem.Update` | src/birbwatch/gui.py:73-76 | the columns show the stream's current name, status and quality |
| `Gui.StreamItem.ValidateCallback` | src/birbwatch/gui.py:78-81 | the verdict is stored in the shared stream and shown |
| `Gui.StreamListWidget.constructor` | src/birbwatch/gui.py:130-149 | the list starts empty, with no current item, before any cycle |
| `Gui.StreamListWidget.Validate` | src/birbwatch/gui.py:162-177 | old items and the current item are discarded; there is one fresh, distinct item per stream in fetch order (each item is appended by its constructor, so the insert at 0 is a no-op); the counter is 0 and the cycle has emitted `validating`, `(0, n)` |
| `Gui.StreamListWidget.ValidatePartialCallback` | src/birbwatch/gui.py:179-185 | the counter grows by one and `(k, n)` is emitted, followed by `done` when k = n; the cycle invariant is kept |
| `Gui.StreamActionWidget.constructor` | src/birbwatch/gui.py:195-214 | play is disabled, refresh is enabled, and no stream is current |
| `Gui.StreamActionWidget.UpdatePlayBtn` | src/birbwatch/gui.py:216-218 | the current stream is remembered, and play is enabled iff it is present and healthy |
| `Gui.BirbwatchMain.constructor` | src/birbwatch/gui.py:267-293 | the window starts on the settings view, which stops the player and the proxy |
| `Gui.BirbwatchMain.StopStream` | src/birbwatch/gui.py:308-311 | the player is stopped, then the server, which is left not running |
| `Gui.BirbwatchMain.StartStream` | src/birbwatch/gui.py:298-306 | it always stops first; it starts the proxy with the selected url iff a stream is selected and healthy, otherwise nothing is started |
| `Gui.BirbwatchMain.SetSelectedStream` | src/birbwatch/gui.py:330-332 | the selection is replaced |
| `Gui.BirbwatchMain.ShowPlayer` | src/birbwatch/gui.py:313-315 | showing the player runs the guarded start: stop, then a proxy for the selected url only when it is healthy, with the process log and command line that implies |
| `Gui.BirbwatchMain.ShowSettings` | src/birbwatch/gui.py:323-328 | the settings view stops the player, then the player and the proxy again; the held process is sent `terminate` and none is live |
| `Gui.App.constructor` | src/birbwatch/gui.py:28-49 | fresh hub, flags, widgets and a stopped server with the configured port and quality; the window's settings view stops the player twice and the proxy once; with `refresh_on_start`, `refresh_streams` is emitted at once |
| `Gui.App.Record` | src/birbwatch/gui.py:52-58 | a signal is recorded and the flags move by the reducer |
| `Gui.App.Emit` | src/birbwatch/gui.py:147-211 | a signal updates the flags by the reducer, then runs the widget slots in connection order; it states the new buttons, the window's calls and the process log for every signal, and what each signal leaves untouched |
| `Gui.App.RefreshClicked` | src/birbwatch/gui.py:155-159 | refresh sets `getting`, emits `getting` from the list's slot, disables the refresh button and touches nothing else |
| `Gui.App.FetchCompleted` | src/birbwatch/gui.py:92-95 | a fetch that returns repopulates the list in fetch order, drops the selection, disables play and moves the flags to validating; a fetch that raises emits only `getting` and changes nothing else |
| `Gui.App.Repopulate` | src/birbwatch/gui.py:149-177 | `clear()` drops the current item, which reaches the action widget and the window as no selection, so play is disabled; the list holds the streams in fetch order and the cycle starts with `validating` and `(0, n)` |
| `Gui.App.ProbeCompleted` | src/birbwatch/gui.py:172-176 | a result counts once, emits the completion signals, stores the verdict in its item, updates the play button from the item's previous health, and re-enables refresh and clears both refresh flags exactly on the n-th result |
| `Gui.App.Select` | src/birbwatch/gui.py:149 | the list's current item, the action widget and then the window take the new selection, one of the list's items or none |
| `Gui.App.PlayClicked` | src/birbwatch/gui.py:205 | the player view sets `streaming`, disables play, and runs the guarded start of the window |
| `Gui.App.ServerStarted` | src/birbwatch/gui.py:212 | the proxy's start signal re-enables play |
| `Gui.App.PlayerClicked` | src/birbwatch/gui.py:251-252 | returning to settings clears `streaming`, stops the player and the proxy, and leaves the buttons as they were |
| `OldGui.ValidateJob` | birbwatch/gui.py:60-63 | a result exists iff the resolver answered and offered `'worst'`; it carries that variant and `is_healthy`'s answer about it |
| `OldGui.ValidateJobIsWorstPreference` | birbwatch/gui.py:60-63 | the old probe always uses `'worst'`; it delivers nothing exactly when the later probe with preferences `[worst]` reports unhealthy without a label |
| `OldGui.StatusAgreesWithLaterVersion` | birbwatch/gui.py:55-58 | the old status column shows `?` before a result and then `OK` or `ERR`, as the later version does |
| `OldGui.StreamItem.constructor` | birbwatch/gui.py:45-53 | a new item shows `[name, '?', '']` and is unhealthy |
| `OldGui.StreamItem.Update` | birbwatch/gui.py:55-58 | columns are the name, `OK`/`ERR` and a blank third column |
| `OldGui.StreamItem.ValidateCallback` | birbwatch/gui.py:65-68 | `healthy` and `sl_stream` are copied from the result and shown |
| `OldGui.StreamListWidget.constructor` | birbwatch/gui.py:72-81 | the list starts empty, before any cycle |
| `OldGui.StreamListWidget.RefreshCallback` | birbwatch/gui.py:92-105 | one fresh item per fetched stream in reverse order, counter 0, and the cycle has emitted `validating`, `(0, n)` |
| `OldGui.StreamListWidget.ValidatePartialCallback` | birbwatch/gui.py:107-113 | the counter grows by one and `(k, n)` is emitted, followed by `done` when k = n |
| `OldGui.ProbeFinished` | birbwatch/gui.py:39-41 | a raising probe delivers nothing and changes nothing; otherwise the item takes the result first and the counter grows by one |

## Left out

- Threads: `QThreadPool`, the runnables and `TaskManager`'s executor. A finished background job is a method call made in some order.
- Qt layout, icons, status-bar texts, `PlayerWidget` and `QMediaPlayer`. Stopping the player is an entry in the window's ghost action record, and the player restart on `show_player_callback` is not modelled.
- The streamlink resolver and `is_healthy`'s open and read are oracles: a map from label to an opaque handle, and a function from handle to bool.
- `requests`, `json` and file reading are loader oracles. A loaded document is abstracted to null, an object with an optional list of string-keyed entries, or anything else. The list is what `data['streamlist']` iterates as: an empty object or empty string gives no entries, like an empty array.
- `StreamDb.BuildStreams`: member values are taken to be strings. A `name`, `description` or `url` of another JSON type, which Python would copy into the record unchanged, is not represented.
- `subprocess.Popen` and `terminate` are the `Process` objects and the ghost spawn and termination log. The process's output and `__del__` are not modelled.
- `Server.StreamServer.Stop`: a `Terminate` event records that SIGTERM was sent, not that the process exited; `stop` does not wait, so the old `streamlink` may still hold the port when `start` spawns the next one. `Server.StreamServer.Start` assumes `Popen` succeeds: a `Popen` that raises (no `python` on the path, say) leaves `_proc` as None after the stop and propagates the exception, which the model does not represent.
- Readiness detection: the module `.server` that src/birbwatch/gui.py imports is not part of this model. `Gui.App.ServerStarted` is an external event.
- The `.config` module: the preference list, port, quality string and sources are parameters. `Gui.App.constructor` takes the quality string already joined with commas. `refresh_on_start` is a parameter of `Gui.App.constructor`.
- Logging.
- The `SERVER` object of the later GUI is modelled by the `StreamServer` of birbwatch/server.py, on the assumption that the `.server` module it imports starts, stops and builds its command line the same way.
- `Gui.StreamItem.ValidateCallback`: passes the probe's quality through as an optional value. How Qt converts the `None` emitted through a `Signal(bool, str)` is not modelled.
- `Gui.App.Select`: a selection change made by the user is an external event. The one the program makes itself, `clear()` dropping the current item in `Gui.App.Repopulate`, is modelled; whether Qt makes a new item current on its own after the list is refilled is not.
- The old GUI's action, player and main-window widgets are button wiring only and are not modelled. The old single-URL `get_streams_db` of birbwatch/stream.py, birbwatch/streams.py, birbwatch_old and the `__main__` modules are not part of this model.
- The `status` field of `TaskResult` (always 0) and the unused `playing` field are carried but play no role.
