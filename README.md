# Self-parking IPC client: a verified model

This project models the client side of a driving simulator link. A student's
parking planner connects to the simulator over TCP and receives
newline-delimited JSON. It gets one static map packet and then one observation
per tick. It answers each observation with a command
`{steer, accel, brake, gear}` and records every answered tick. At the end of
the session it writes a replay file named after the map.

The model covers:

- `ipc_client.py`: the slug and replay naming, the newline framer, message
  routing and session bookkeeping in `run_session`, and the reconnect backoff
  in `run_client`.
- `student_planner.py`: the demo control law `compute_control`, the fallback
  in `planner_step`, `set_map` and `compute_path` on the planner object, and
  the free-slot count of the map summary.

Modules:

| module | file | what it holds |
|---|---|---|
| `Json` | `json.dfy` | decoded JSON values and the Python built-ins applied to them (truthiness, `dict.get`, `float()`, `len()`) |
| `StudentPlanner` | `planner.dfy` | commands, the control law, the fallback, the map summary, and the `Planner` class with `SetMap` and `ComputePath` |
| `Framing` | `framing.dfy` | `Lines` and `Rest` of a byte buffer, and the lemmas that nothing is lost and that chunk boundaries do not matter |
| `Replay` | `replay.dfy` | frames, session metadata, the slug, the file name and `SaveReplay` |
| `Session` | `session.dfy` | `run_session`: the functional specification (`StepLine`, `Feed`, `Run`, `Finish`) and the imperative loop `RunSession`, which is proved equal to it |
| `SessionLaws` | `session_laws.dfy` | what a session promises: chunking independence, skipped lines, sound frames and commands, the fallback-only session, a reset keeping frames, and the end-to-end scenario |
| `Client` | `client.dfy` | `run_client` as a loop over connection outcomes, proved against `Sleeps`, with the backoff laws |

The outside world is passed in as parameters rather than performed:

- `Env.decode` is the JSON parser together with the UTF-8 decoding.
- `Env.send(n)` is what the n-th `sendall` does.
- `Env.render` is Python's `str()` of a map key that is not a string.
- `Env.disk` says whether the directory and the file can be written.
- `Clock` holds the three timestamps a session reads.
- A sequence of `Recv` events says what each `recv` call returned. The sequence ending means the peer closed.

The global planner instance is an explicit `Planner` object handed to `RunSession`.

Some behaviours of the source that are easy to miss, all modelled as the code has them:

- Runs of underscores in a slug are not collapsed: the slug of `"Lot #7!"` is `"lot__7"` (`Replay.SlugExamples`).
- When `compute_control` raises, `planner_step` returns the fallback command `{0, 0, 0.5, "D"}`, and the session sends it like any other command (`StudentPlanner.PlannerStep`).
- A line that is not valid UTF-8 ends the session. The decoding error is not a `JSONDecodeError`, so it reaches the outer handler. A line of malformed JSON is skipped (`Session.StepLine`).
- A JSON value that is not an object is still answered, with the fallback command. No frame is recorded for it, because `packet.get("t")` raises after the send (`Session.StepObservation`).
- A map payload that `set_map` cannot read (for example a non-numeric extent, or a "grid" that is not an object) ends the session. So does `len()` of its "slots" raising.
- An `OSError` raised by `settimeout` or `getpeername` after connecting takes the connection-failure branch of `run_client`: it sleeps and lengthens the backoff (`Client.Attempt.ConnectFailed`).

## Model

| member | source | states |
|---|---|---|
| StudentPlanner.TimeOf | student_planner.py:62 | an observation without "t" reads as time 0.0 |
| StudentPlanner.SpeedOf | student_planner.py:63 | an observation without "state", or whose "state" dict has no "v", reads as speed 0.0; a "state" that is not a dict raises |
| StudentPlanner.ComputeControl | student_planner.py:58-76 | the law yields a command exactly when time and speed convert to floats, and the command is safe (gear "D", never throttle and brake together). Before t=2 it is throttle 0.6 with no steer or brake. From t=2 to t<3 it is brake 0.3 with no throttle or steer. From t=3 it is steer 0.07 with no brake, and throttle 0.2 exactly when v<1, else 0. An observation without "t" and "state" gets throttle 0.6 |
| StudentPlanner.PlannerStep | student_planner.py:89-96 | the fallback `{0, 0, 0.5, "D"}` exactly when the control law raises, otherwise the law's command; always safe |
| StudentPlanner.CountTruthy | student_planner.py:16 | the count of truthy entries never exceeds the number of entries |
| StudentPlanner.CountTruthyIsIndexCount | student_planner.py:16 | the count of truthy occupancy entries equals the number of positions holding a truthy entry |
| StudentPlanner.OccupiedCount | student_planner.py:15-16 | a list counts its truthy entries; a falsy value counts 0 |
| StudentPlanner.GridSize | student_planner.py:19-23 | the row count of a truthy stationary list is its length |
| StudentPlanner.MapSummaryOf | student_planner.py:12-23 | free slots = slot count − number of truthy occupancy entries; the slot count is the length of the "slots" list, and 0 when "slots" is falsy; when "occupied_idx" is absent or falsy, every slot is free |
| StudentPlanner.FloatsOf | student_planner.py:44-46 | the conversion succeeds exactly when every item converts, keeps the length, and converts item by item |
| StudentPlanner.ExtentOf | student_planner.py:44-46 | a payload without "extent" gets the all-zero extent |
| StudentPlanner.CellSizeOf | student_planner.py:47 | a payload without "cellSize" gets 0.5 |
| StudentPlanner.Planner.constructor | student_planner.py:26-38 | a fresh planner has no map, no extent, no grid, cell size 0.5 and no waypoints |
| StudentPlanner.Planner.SetMap | student_planner.py:40-50 | returns normally exactly when every step reads the payload (`MapSet` holds afterwards). It stores the payload; the extent, cell size and grid are updated only if every step up to their own succeeded, and otherwise keep their old values; the waypoints are cleared only on success |
| StudentPlanner.Planner.ComputePath | student_planner.py:52-56 | leaves no waypoints |
| StudentPlanner.SetMapDefaults | student_planner.py:40-50 | a payload with only slots and occupancy is accepted, with the all-zero extent, cell size 0.5, and free slots = slots − truthy occupancy entries |
| StudentPlanner.IndexZeroCountsAsFree | student_planner.py:14-16 | a single slot listed as occupied by its index 0 is reported free: the summary gives one free slot |
| StudentPlanner.IntendedFreeSlots | student_planner.py:14-16 | the free count as the map format means it: when every listed index is a slot index, free = slots − listed indices, and never more than the slot count |
| StudentPlanner.IndexZeroIsOccupied | student_planner.py:14-16 | with the intended count, one slot listed as occupied by index 0 leaves no free slot |
| Json.ToFloat | student_planner.py:62-63 | the model's `float()`: a number converts to itself, and conversion succeeds exactly on numbers and booleans (numeric strings and integer overflow are under "Left out") |
| Json.PyLen | ipc_client.py:101 | `len()` of a list is its length; it succeeds exactly on strings, lists and dicts |
| Framing.NewlineAt | ipc_client.py:83-84 | the split point is at or before the end of the buffer; if before, a newline stands there, and no newline precedes it |
| Framing.HasNewline | ipc_client.py:83 | `b"\n" in buffer` holds exactly when the split point is inside the buffer |
| Framing.Rest | ipc_client.py:81-84 | what stays in the buffer holds no newline |
| Framing.LinesHaveNoNewline | ipc_client.py:84 | no framed line holds a newline |
| Framing.NewlineAtIs | ipc_client.py:84 | a newline with no newline before it is the split point |
| Framing.SplitFirst | ipc_client.py:83-84 | one split takes the first line off the buffer and leaves the bytes after the newline |
| Framing.JoinLinesRest | ipc_client.py:81-84 | (`Lines` and `Rest`) the lines, each followed by a newline, then the remaining buffer, give back exactly the bytes received |
| Framing.SplitIsUnique | ipc_client.py:81-84 | (`Lines` and `Rest`) any newline-free lines and newline-free tail that join to the buffer are exactly its lines and rest |
| Framing.LinesAppend | ipc_client.py:81-84 | framing `p` and then the chunk `c` appended to what remains yields the same lines and rest as framing `p + c` at once |
| Framing.NoNewlineNoLines | ipc_client.py:83 | a buffer with no newline yields no line and stays as it is |
| Replay.SlugChar | ipc_client.py:26 | each slug character is a lower-case alphanumeric or `_`, and is `_` exactly when the input character is not alphanumeric |
| Replay.StripLeadingSpec | ipc_client.py:27 | stripping leading underscores removes only underscores and keeps a suffix that does not start with one |
| Replay.StripTrailingSpec | ipc_client.py:27 | stripping trailing underscores removes only underscores and keeps a prefix that does not end with one |
| Replay.StripSpan | ipc_client.py:27 | stripping both ends leaves one contiguous span, with only underscores outside it and none at its ends |
| Replay.SlugifyStrips | ipc_client.py:26-27 | the stripped text is empty exactly when the key has no alphanumeric character, and otherwise spans the first to the last alphanumeric character |
| Replay.Slugify | ipc_client.py:25-28 | every slug is non-empty, neither starts nor ends with `_`, and holds only lower-case alphanumerics and `_` |
| Replay.SlugifySpec | ipc_client.py:25-28 | the slug is "session" when the key has no alphanumeric character, and otherwise the lower-cased span from the first to the last alphanumeric character, never longer than the key |
| Replay.SlugExamples | ipc_client.py:25-28 | "Lot #7!" → "lot__7", "" → "session", "___" → "session", "session" → "session" |
| Replay.ChosenKey | ipc_client.py:41 | the key the name is built from is always truthy |
| Replay.ReplayFileNameChain | ipc_client.py:40-42 | the name uses the map key if it is a non-empty string, else the map name, else "session" |
| Replay.KeyText | ipc_client.py:26 | `str()` of a string key is the string itself, and of `True` is "True" |
| Replay.ReplayFileName | ipc_client.py:42 | every replay file name is `<timestamp>_<slug>.json` with a well-formed slug |
| Replay.SaveReplay | ipc_client.py:31-55 | nothing is written without frames. A file is written exactly when there are frames and both the directory and the file can be written. It holds the metadata and frames, at `student_replays/<timestamp>_<slug>.json` |
| Session.StepMap | ipc_client.py:94-102 | a map packet records no frame, sends nothing and makes no send attempt. If `set_map` raises, the session crashes with the metadata untouched. Otherwise the metadata takes the payload's key, name and extent, and `slots_total` becomes `len(slots)` (0 when absent); if that `len` raises, the session crashes. No other metadata changes |
| Session.StepObservation | ipc_client.py:104-119 | exactly one send attempt, metadata untouched. A broken pipe ends the session with nothing recorded; another send error records nothing and goes on. A delivered send adds the planner's command to the commands sent and, for a dict, the frame `{t, obs, cmd}` |
| Session.StepLine | ipc_client.py:83-119 | a blank line or malformed JSON changes nothing; a line that is not UTF-8 ends the session as a crash; a map packet sends nothing; any other parsed line makes one send attempt. A line only appends to frames and commands, and ends the session only by a crash or a broken pipe |
| Session.Feed | ipc_client.py:83-119 | an ended session routes nothing more; routing only appends to frames and commands, and ends the session only by a crash or a broken pipe |
| Session.Run | ipc_client.py:72-86 | the receive loop always ends, for one of the four reasons |
| Session.Finish | ipc_client.py:125-128 | the final metadata counts the frames. No replay is written without frames, and a replay holds exactly the session's frames and metadata |
| Session.HandleMap | ipc_client.py:94-102 | updates the session exactly as the map step specifies, and leaves the planner as `set_map` of the payload does (`MapSet`) |
| Session.RouteLine | ipc_client.py:85-119 | routes one line exactly as the line step specifies; a map packet leaves the planner as `set_map` of its payload does, and any other line leaves the planner unchanged |
| Session.RunSession | ipc_client.py:58-128 | the loop's frames, metadata, commands sent, end reason and replay are those of the specification over the same receive events |
| SessionLaws.FeedAppend | ipc_client.py:83-86 | routing two batches of lines one after the other is routing them at once |
| SessionLaws.SkippedLineChangesNothing | ipc_client.py:85-92 | a blank or malformed line between other lines changes nothing: the session goes on as if it had not been received |
| SessionLaws.StepLineSound | ipc_client.py:104-114 | each line keeps every frame well formed and every sent command safe. It only appends to the frames and commands, and adds a frame only with a delivered command |
| SessionLaws.Heard | ipc_client.py:72-81 | the bytes a session reads are the data of the events up to the one that ends it; for a session that only receives data, they are the whole stream |
| SessionLaws.SessionKeeps | ipc_client.py:72-119 | a property of the frames and commands that holds at the start, and that every line the session reads keeps, holds when the session ends |
| SessionLaws.SessionSound | ipc_client.py:104-128 | every frame of a session pairs an object observation with its "t" and the planner's command for it. Every command sent is safe, there are never more frames than commands sent, and the metadata counts the frames |
| SessionLaws.StepLineFallback | student_planner.py:89-96 | a line whose answered packet makes the control law raise adds only the fallback to the commands sent |
| SessionLaws.SessionFallback | student_planner.py:89-96 | when the control law raises on every packet the session reads and answers (map packets and skipped lines may come in between), every command sent is the fallback |
| SessionLaws.NoObservationNoReplay | ipc_client.py:31-33 | a session none of whose lines read before it ends is a non-map dict records no frame and writes no replay |
| SessionLaws.CommandsAppend | ipc_client.py:105-107 | the commands for two batches of packets are those of each batch in turn |
| SessionLaws.FramesAppend | ipc_client.py:108-114 | the frames for two batches of packets are those of each batch in turn |
| SessionLaws.StepRecords | ipc_client.py:104-114 | a line whose send is delivered and that does not end the session adds the command and, for a dict, the frame of its answered packet |
| SessionLaws.FeedRecords | ipc_client.py:83-114 | with every send delivered and the session still open, routing lines adds the planner's command for each answered packet to the commands sent, and one frame per dict to the frames, in line order |
| SessionLaws.RunPrefix | ipc_client.py:72-86 | after data and timeouts, the session stands where routing all complete lines received so far leaves it, with the remaining bytes in the buffer |
| SessionLaws.SessionOfStream | ipc_client.py:72-86 | a session that only receives data is the routing of the complete lines of the whole byte stream, then the peer closing |
| SessionLaws.ChunkingIrrelevant | ipc_client.py:74-84 | two sessions receiving the same bytes, cut into chunks and interleaved with timeouts differently, end the same |
| SessionLaws.SessionRecords | ipc_client.py:72-128 | a session that only receives data, whose sends are all delivered and that ends with the peer closing, has sent exactly the planner's commands for the stream's non-map packets, and recorded exactly one frame per dict among them, in arrival order |
| SessionLaws.ResetKeepsFrames | ipc_client.py:121-128 | a connection reset after some data keeps the frames routed so far and ends the session as a lost connection |
| SessionLaws.MapPacketAccepted | student_planner.py:40-50 | the map payload of the end-to-end scenario is accepted and has one slot |
| SessionLaws.ScenarioCommands | student_planner.py:58-76 | t=0.5, v=0 gives throttle 0.6; t=2.5, v=0 gives brake 0.3; t=3.5, v=0.5 gives steer 0.07 with throttle 0.2 |
| SessionLaws.EndToEndScenario | ipc_client.py:58-128 | the scenario's map packet and three observations, in one chunk: the three commands in order, three frames, one slot in the metadata, and the peer closing |
| Client.Sleeps | ipc_client.py:134-153 | the loop sleeps at most once per attempt |
| Client.NextBackoff | ipc_client.py:148 | the wait grows by 0.5 up to the cap of 5.0 and never beyond it |
| Client.RunClient | ipc_client.py:131-153 | the loop's sleeps are those `Sleeps` specifies from the initial wait of 1.0, and it stops exactly when an interrupt comes |
| Client.FailureStreak | ipc_client.py:145-149 | n failures in a row wait 1.0, 1.5, 2.0, … seconds, capped at 5.0 |
| Client.SleepsBounded | ipc_client.py:134-153 | every sleep lies between 1.0 and 5.0 seconds |
| Client.SessionResets | ipc_client.py:140-153 | after a session ran, the loop pauses 1.0 seconds and continues from the initial wait, whatever the wait was before |
| Client.InterruptStops | ipc_client.py:142-144 | until an interrupt the loop sleeps once per attempt, and after it nothing more happens |

## Left out

- Sockets, the file system, the wall clock, `time.sleep` and `print` are not performed. They are parameters or outputs of the model.
- JSON parsing and serialisation: `json.loads` is the parameter `Env.decode`, and `json.dumps` of a command is not modelled; `sent` holds the commands themselves.
- `main`, `argparse` and the SIGINT handler are not part of this model. An interrupt is the `Interrupted` attempt of the reconnect loop. An interrupt during a session is not modelled; in the source the `finally` block still saves the replay then.
- Session.Run: the end of the event sequence is read as the peer closing the connection, because the source loops forever and a model needs a finite run.
- The 4096-byte receive size and the socket timeouts (2.0 s to connect, 0.2 s per receive) are not modelled. A chunk may be any non-empty byte sequence, and a timeout is an event.
- `my_agent.py` is not part of this model.
- Json.ToFloat: Python's `float()` also converts numeric strings such as "1.5" or "0"; the model treats every string as not convertible. This reaches `StudentPlanner.TimeOf`, `StudentPlanner.SpeedOf`, `StudentPlanner.CellSizeOf`, `StudentPlanner.FloatsOf` and `StudentPlanner.ExtentOf`. So an observation with a numeric-string "t" or "v" gets the fallback command in the model, not the control law's. A map payload with a string extent such as `["0", "10", "0", "10"]` is accepted by `set_map` in the source, but in the model `Session.StepMap` ends the session as `Crashed`.
- Json.ToFloat: `float()` of a JSON integer literal beyond the float range raises `OverflowError` in Python; the model's numbers are unbounded reals and always convert. An observation with such a "t" gets the fallback in the source and the control law's command in the model.
- Json.Value: JSON integers and floats are both `Num`, so `5` and `5.0` are the same value. The model cannot tell `str(5) == "5"` from `str(5.0) == "5.0"` in `Replay.KeyText`'s `render`.
- StudentPlanner.ExtentOf: iterating a non-empty string or dict extent and converting its characters or keys is not modelled; such an extent is taken as raising.
- StudentPlanner.ComputeControl: numbers are real numbers. NaN and infinities, which Python's JSON parser accepts, are not modelled. The backoff values 1.0 + 0.5·k are exact in binary floating point, so `Client` loses nothing.
- Replay.SlugChar: `isalnum` and `lower` are modelled for ASCII only. Python's Unicode rules, including `lower` making some strings longer, are not.
- Replay.KeyText: `str()` of a map key that is neither a string nor `True` is the parameter `render`.
- The map summary's printing is not modelled. The figures it prints (slot count, free slots, grid size) are computed by `StudentPlanner.MapSummaryOf`, and whether the summary raises decides whether `set_map` returns.
- Session.RunSession: the planner's state after the session is not stated. Each map line leaves it as `StudentPlanner.MapSet` says (`Session.RouteLine`), but the loop does not carry that across lines, because nothing in a session reads the planner: `compute_control` uses only the observation.
- `handle_map_payload` is the call `planner.SetMap` in `Session.HandleMap`. The single global planner is passed explicitly.
- Exceptions the source never raises on purpose, such as running out of memory or recursion limits inside the parser, are not modelled.

## Findings

| source | as written | input that shows it | evidently intended | confidence | as-written member | corrected member |
|---|---|---|---|---|---|---|
| student_planner.py:16 | free slots = `len(slots)` minus the number of truthy entries of `occupied_idx`; the slot index 0 is falsy, so it is never counted | slots `[[]]`, occupied_idx `[0]`: one slot, listed as occupied, reported as 1 free | `occupied_idx` holds indices into `slots`, so every listed index is an occupied slot and free = `len(slots)` − the number of listed indices | not executed; high: the field is named `occupied_idx` and its entries are slot indices | StudentPlanner.IndexZeroCountsAsFree | StudentPlanner.IntendedFreeSlots |

The free-slot figure is only printed, so nothing else in the model consumes it. `StudentPlanner.MapSummaryOf` keeps the as-written count, because it also decides whether `set_map` raises.
