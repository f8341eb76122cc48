/** One session with the simulator (`run_session`): bytes are framed into
    lines, each line is parsed and routed — a map payload updates the planner
    and the session metadata, anything else is answered with the planner's
    command and recorded as a frame — and at the end the metadata is
    finalised and the replay saved.

    `Run` and `Feed` specify the session as functions of everything the
    transport delivers; `RunSession` is the loop itself, proved to compute
    exactly that. The lemmas after it state what the source promises. */
module Session {
  import opened Json
  import opened Framing
  import opened StudentPlanner
  import opened Replay

  /** Why the session loop stopped. */
  datatype End =
    | PeerClosed      // recv returned no bytes
    | ConnectionLost  // recv raised ConnectionResetError or ConnectionAbortedError
    | PipeBroken      // sendall raised BrokenPipeError
    | Crashed         // any other exception reached the outer handler

  /** What one call of `sock.recv(4096)` does. */
  datatype Recv =
    | Chunk(data: Bytes)  // an empty chunk means the peer closed the connection
    | RecvTimeout
    | RecvReset
    | RecvFailed

  /** What `json.loads(line.decode("utf-8"))` does with one line. */
  datatype Decoded = Parsed(packet: Value) | BadJson | BadUtf8

  /** What one call of `sock.sendall` does. */
  datatype Sent = Delivered | Broken | SendFailed

  /** The outside world of a session: the JSON parser, the outcome of the
      n-th `sendall`, Python's `str()` for map keys that are not strings, and
      the file system the replay goes to. */
  datatype Env = Env(decode: Bytes -> Decoded, send: nat -> Sent, render: Value -> string, disk: Disk)

  /** The three wall-clock readings a session takes. */
  datatype Clock = Clock(startTime: string, endTime: string, timestamp: string)

  /** The session's state between lines: frames, metadata, the commands
      delivered, how many sends were attempted and whether the loop ended. */
  datatype St = St(frames: seq<Frame>, meta: Meta, sent: seq<Command>, attempts: nat, end: Option<End>)

  /** What a finished session leaves behind. */
  datatype Outcome = Outcome(frames: seq<Frame>, meta: Meta, sent: seq<Command>, end: End, replay: Option<ReplayFile>)

  function InitialMeta(host: string, port: int, startTime: string): Meta
  {
    Meta(host, port, startTime, Null, Null, None, None, None, None)
  }

  function Initial(host: string, port: int, startTime: string): St
  {
    St([], InitialMeta(host, port, startTime), [], 0, None)
  }

  // ---------------------------------------------------------------------
  // Specification

  /** A map payload: handed to the planner, then its key, name, extent and
      slot count copied into the metadata. A payload `set_map` rejects ends
      the session before anything is copied; a "slots" entry without a
      length ends it after the key, name and extent are copied. Nothing is
      sent and no frame is recorded. */
  function StepMap(st: St, payload: Value): (r: St)
    ensures r.frames == st.frames && r.sent == st.sent && r.attempts == st.attempts
    ensures !MapAccepted(payload) ==> r.end == Some(Crashed) && r.meta == st.meta
    ensures MapAccepted(payload) ==>
              && r.meta.mapKey == Get(payload, "key", Null)
              && r.meta.mapName == Get(payload, "name", Null)
              && r.meta.mapExtent == Some(Get(payload, "extent", Null))
    ensures MapAccepted(payload) && PyLen(Get(payload, "slots", Arr([]))).Some? ==>
              r.meta.slotsTotal == PyLen(Get(payload, "slots", Arr([]))) && r.end == st.end
    ensures MapAccepted(payload) && PyLen(Get(payload, "slots", Arr([]))).None? ==> r.end == Some(Crashed)
    ensures r.meta.(mapKey := st.meta.mapKey, mapName := st.meta.mapName,
                    mapExtent := st.meta.mapExtent, slotsTotal := st.meta.slotsTotal) == st.meta
  {
    if !MapAccepted(payload) then st.(end := Some(Crashed))
    else
      var meta := st.meta.(mapKey := Get(payload, "key", Null),
                           mapName := Get(payload, "name", Null),
                           mapExtent := Some(Get(payload, "extent", Null)));
      match PyLen(Get(payload, "slots", Arr([])))
      case Some(n) => st.(meta := meta.(slotsTotal := Some(n)))
      case None => st.(meta := meta, end := Some(Crashed))
  }

  /** Any other packet: the planner's command is sent, and once it is sent
      the frame `{t, obs, cmd}` is recorded. `packet.get("t")` raises on a
      packet that is not a dict, after the send, so no frame is recorded. A
      broken pipe ends the session with nothing recorded; any other send
      error drops the tick and the session goes on. */
  function StepObservation(st: St, packet: Value, env: Env): (r: St)
    ensures r.attempts == st.attempts + 1 && r.meta == st.meta
    ensures env.send(st.attempts).Broken? ==>
              r.end == Some(PipeBroken) && r.sent == st.sent && r.frames == st.frames
    ensures env.send(st.attempts).SendFailed? ==>
              r.end == st.end && r.sent == st.sent && r.frames == st.frames
    ensures env.send(st.attempts).Delivered? ==>
              r.end == st.end && r.sent == st.sent + [PlannerStep(packet)]
    ensures env.send(st.attempts).Delivered? && packet.Obj? ==>
              r.frames == st.frames + [Frame(Get(packet, "t", Null), packet, PlannerStep(packet))]
    ensures env.send(st.attempts).Delivered? && !packet.Obj? ==> r.frames == st.frames
  {
    var cmd := PlannerStep(packet);
    var tried := st.(attempts := st.attempts + 1);
    match env.send(st.attempts)
    case Broken => tried.(end := Some(PipeBroken))
    case SendFailed => tried
    case Delivered =>
      var delivered := tried.(sent := st.sent + [cmd]);
      if packet.Obj? then delivered.(frames := st.frames + [Frame(Get(packet, "t", Null), packet, cmd)])
      else delivered
  }

  /** The payload of a map packet: a non-blank line holding a dict with a
      "map" entry. */
  function MapPayload(line: Bytes, env: Env): Option<Value>
  {
    if IsBlank(line) then None
    else
      match env.decode(line)
      case Parsed(packet) => if packet.Obj? && "map" in packet.fields then Some(packet.fields["map"]) else None
      case _ => None
  }

  /** The line is answered with a command: it parses, and is not a map packet. */
  predicate Answered(line: Bytes, env: Env)
  {
    !IsBlank(line) && env.decode(line).Parsed? && MapPayload(line, env).None?
  }

  /** Routing of one framed line. Blank lines and malformed JSON are passed
      over; a line that is not UTF-8 ends the session; a map packet sends
      nothing; an answered line makes one send attempt. A line only appends
      to the frames and commands, and ends the session only by a crash or a
      broken pipe. */
  function StepLine(st: St, line: Bytes, env: Env): (r: St)
    ensures IsBlank(line) || env.decode(line).BadJson? ==> r == st
    ensures !IsBlank(line) && env.decode(line).BadUtf8? ==> r == st.(end := Some(Crashed))
    ensures MapPayload(line, env).Some? ==> r.attempts == st.attempts && r.sent == st.sent && r.frames == st.frames
    ensures Answered(line, env) ==> r.attempts == st.attempts + 1
    ensures st.frames <= r.frames && st.sent <= r.sent
    ensures r.end == st.end || r.end == Some(Crashed) || r.end == Some(PipeBroken)
  {
    if IsBlank(line) then st
    else
      match env.decode(line)
      case BadUtf8 => st.(end := Some(Crashed))
      case BadJson => st
      case Parsed(packet) =>
        if packet.Obj? && "map" in packet.fields then StepMap(st, packet.fields["map"])
        else StepObservation(st, packet, env)
  }

  /** Routing of lines in order, until the session ends: an ended session
      routes nothing more, the frames and commands only grow, and routing
      ends a session only by a crash or a broken pipe. */
  function Feed(st: St, lines: seq<Bytes>, env: Env): (r: St)
    ensures st.end.Some? ==> r == st
    ensures st.frames <= r.frames && st.sent <= r.sent
    ensures r.end == st.end || r.end == Some(Crashed) || r.end == Some(PipeBroken)
    decreases |lines|
  {
    if st.end.Some? || lines == [] then st
    else Feed(StepLine(st, lines[0], env), lines[1..], env)
  }

  /** The session loop over what the transport delivers, from a state and the
      bytes still buffered. The end of `events` is the peer closing. */
  function Run(st: St, buffer: Bytes, events: seq<Recv>, env: Env): (r: St)
    ensures r.end.Some?
    decreases |events|
  {
    if st.end.Some? then st
    else if events == [] then st.(end := Some(PeerClosed))
    else
      match events[0]
      case RecvTimeout => Run(st, buffer, events[1..], env)
      case RecvReset => st.(end := Some(ConnectionLost))
      case RecvFailed => st.(end := Some(Crashed))
      case Chunk(data) =>
        if data == [] then st.(end := Some(PeerClosed))
        else
          var received := buffer + data;
          Run(Feed(st, Lines(received), env), Rest(received), events[1..], env)
  }

  /** The `finally` block: end time and frame count, then the replay. */
  function Finish(st: St, clock: Clock, env: Env): (out: Outcome)
    requires st.end.Some?
    ensures out.meta.frameCount == Some(|out.frames|)
    ensures out.frames == [] ==> out.replay == None
    ensures out.replay.Some? ==> out.replay.value.frames == out.frames && out.replay.value.meta == out.meta
  {
    var meta := st.meta.(endTime := Some(clock.endTime), frameCount := Some(|st.frames|));
    Outcome(st.frames, meta, st.sent, st.end.value, SaveReplay(st.frames, meta, clock.timestamp, env.disk, env.render))
  }

  function SessionSpec(host: string, port: int, events: seq<Recv>, env: Env, clock: Clock): Outcome
  {
    Finish(Run(Initial(host, port, clock.startTime), [], events, env), clock, env)
  }

  // ---------------------------------------------------------------------
  // The session loop

  lemma FeedCons(st: St, line: Bytes, lines: seq<Bytes>, env: Env)
    requires st.end.None?
    ensures Feed(st, [line] + lines, env) == Feed(StepLine(st, line, env), lines, env)
  {
    assert ([line] + lines)[0] == line && ([line] + lines)[1..] == lines;
  }

  /** The map branch of the routing: the planner takes the payload, then the
      metadata is updated from it. */
  method HandleMap(planner: Planner, st: St, payload: Value) returns (next: St)
    modifies planner
    ensures next == StepMap(st, payload)
    ensures MapSet(planner, payload)
  {
    next := st;
    var ok := planner.SetMap(payload);
    if !ok {
      next := next.(end := Some(Crashed));
      return;
    }
    var meta := st.meta;
    meta := meta.(mapKey := Get(payload, "key", Null));
    meta := meta.(mapName := Get(payload, "name", Null));
    meta := meta.(mapExtent := Some(Get(payload, "extent", Null)));
    var slots := PyLen(Get(payload, "slots", Arr([])));
    if slots.None? {
      next := next.(meta := meta, end := Some(Crashed));
    } else {
      next := next.(meta := meta.(slotsTotal := Some(slots.value)));
    }
  }

  /** Routing of one line split off the buffer: a map packet goes to the
      planner, which nothing else touches; any other packet is planned,
      sent, and recorded once sent. */
  method RouteLine(planner: Planner, st: St, line: Bytes, env: Env) returns (next: St)
    modifies planner
    ensures next == StepLine(st, line, env)
    ensures MapPayload(line, env).Some? ==> MapSet(planner, MapPayload(line, env).value)
    ensures MapPayload(line, env).None? ==> unchanged(planner)
  {
    next := st;
    if IsBlank(line) {
      return;
    }
    var decoded := env.decode(line);
    if decoded.BadUtf8? {
      next := st.(end := Some(Crashed));
    } else if decoded.Parsed? {
      var packet := decoded.packet;
      if packet.Obj? && "map" in packet.fields {
        next := HandleMap(planner, st, packet.fields["map"]);
      } else {
        var cmd := PlannerStep(packet);
        var outcome := env.send(st.attempts);
        next := st.(attempts := st.attempts + 1);
        if outcome.Broken? {
          next := next.(end := Some(PipeBroken));
        } else if outcome.Delivered? {
          next := next.(sent := st.sent + [cmd]);
          if packet.Obj? {
            next := next.(frames := st.frames + [Frame(Get(packet, "t", Null), packet, cmd)]);
          }
        }
      }
    }
  }

  /** `run_session`: receives until the session ends, splitting complete
      lines off the buffer and routing each one, then finalises. */
  method RunSession(planner: Planner, host: string, port: int, events: seq<Recv>, env: Env, clock: Clock)
    returns (out: Outcome)
    modifies planner
    ensures out == SessionSpec(host, port, events, env, clock)
  {
    var buffer: Bytes := [];
    var st := Initial(host, port, clock.startTime);
    ghost var goal := Run(st, [], events, env);
    var i := 0;
    while st.end.None? && i < |events|
      invariant 0 <= i <= |events|
      invariant st.end.None? ==> Run(st, buffer, events[i..], env) == goal
      invariant st.end.Some? ==> st == goal
      decreases |events| - i
    {
      ghost var entry := st;
      var event := events[i];
      assert events[i..][0] == event && events[i..][1..] == events[i + 1..];
      i := i + 1;
      if event.RecvReset? {
        st := st.(end := Some(ConnectionLost));
      } else if event.RecvFailed? {
        st := st.(end := Some(Crashed));
      } else if event.Chunk? && event.data == [] {
        st := st.(end := Some(PeerClosed));
      } else if event.Chunk? {
        buffer := buffer + event.data;
        ghost var received := buffer;
        while st.end.None? && NL in buffer
          invariant Feed(st, Lines(buffer), env) == Feed(entry, Lines(received), env)
          invariant Rest(buffer) == Rest(received)
          decreases |buffer|
        {
          HasNewline(buffer);
          var cut := NewlineAt(buffer);
          var line := buffer[..cut];
          SplitFirst(buffer);
          FeedCons(st, line, Lines(buffer[cut + 1..]), env);
          buffer := buffer[cut + 1..];
          st := RouteLine(planner, st, line, env);
        }
        NoNewlineNoLinesIfOpen(st, buffer, env);
      }
    }
    if st.end.None? {
      st := st.(end := Some(PeerClosed));
    }
    var meta := st.meta.(endTime := Some(clock.endTime));
    meta := meta.(frameCount := Some(|st.frames|));
    var replay := SaveReplay(st.frames, meta, clock.timestamp, env.disk, env.render);
    out := Outcome(st.frames, meta, st.sent, st.end.value, replay);
  }

  /** Once the inner loop stops, either the session ended (and the rest of
      the buffer is never routed) or no newline is left to split on. */
  lemma NoNewlineNoLinesIfOpen(st: St, buffer: Bytes, env: Env)
    requires st.end.None? ==> NL !in buffer
    ensures Feed(st, Lines(buffer), env) == st
    ensures st.end.None? ==> Rest(buffer) == buffer
  {
    HasNewline(buffer);
  }
}
