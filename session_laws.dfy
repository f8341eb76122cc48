/** What the session loop promises, stated over its specification `Run`,
    `Feed` and `SessionSpec`: lines are routed in order whatever the chunking,
    skipped lines leave no trace, every frame and every command is what the
    planner produced, a connection error keeps the frames so far, and the
    end-to-end run of a map and three observations. */
module SessionLaws {
  import opened Json
  import opened Framing
  import opened StudentPlanner
  import opened Replay
  import opened Session

  // ---------------------------------------------------------------------
  // Routing a stream of lines

  /** Routing two batches of lines one after the other is routing them at once. */
  lemma {:induction false} FeedAppend(st: St, a: seq<Bytes>, b: seq<Bytes>, env: Env)
    ensures Feed(st, a + b, env) == Feed(Feed(st, a, env), b, env)
    decreases |a|
  {
    if a == [] {
      assert a + b == b;
    } else if st.end.None? {
      assert (a + b)[0] == a[0] && (a + b)[1..] == a[1..] + b;
      FeedAppend(StepLine(st, a[0], env), a[1..], b, env);
    }
  }

  /** A line the session passes over: blank, or not valid JSON. */
  predicate Skipped(line: Bytes, env: Env)
  {
    IsBlank(line) || env.decode(line) == BadJson
  }

  /** A blank or malformed line leaves no trace: routing goes on as if it
      had never been received. */
  lemma SkippedLineChangesNothing(st: St, a: seq<Bytes>, line: Bytes, b: seq<Bytes>, env: Env)
    requires Skipped(line, env)
    ensures Feed(st, a + [line] + b, env) == Feed(st, a + b, env)
  {
    FeedAppend(st, a + [line], b, env);
    FeedAppend(st, a, [line], env);
    FeedAppend(st, a, b, env);
    var mid := Feed(st, a, env);
    if mid.end.None? {
      assert Feed(mid, [line], env) == Feed(StepLine(mid, line, env), [], env);
    }
  }

  // ---------------------------------------------------------------------
  // Frames and commands

  /** A recorded frame pairs a dict observation with its "t" entry and with
      the command the planner computed for it. */
  predicate FrameOk(f: Frame)
  {
    f.obs.Obj? && f.t == Get(f.obs, "t", Null) && f.cmd == PlannerStep(f.obs)
  }

  /** What a session has recorded and sent so far. */
  type Record = (seq<Frame>, seq<Command>)

  function RecordOf(st: St): Record
  {
    (st.frames, st.sent)
  }

  /** Every frame is well formed and every command sent is safe. */
  predicate Sound(r: Record)
  {
    && (forall k :: 0 <= k < |r.0| ==> FrameOk(r.0[k]))
    && (forall k :: 0 <= k < |r.1| ==> Safe(r.1[k]))
  }

  /** `later` only extends the frames and commands of `st`, and adds a frame
      only together with a delivered command. */
  predicate Extends(st: St, later: St)
  {
    && st.frames <= later.frames
    && st.sent <= later.sent
    && |later.frames| - |st.frames| <= |later.sent| - |st.sent|
  }

  lemma StepLineSound(st: St, line: Bytes, env: Env)
    requires Sound(RecordOf(st))
    ensures Sound(RecordOf(StepLine(st, line, env))) && Extends(st, StepLine(st, line, env))
  {
    var next := StepLine(st, line, env);
    if !IsBlank(line) && env.decode(line).Parsed? {
      var packet := env.decode(line).packet;
      if !(packet.Obj? && "map" in packet.fields) && env.send(st.attempts).Delivered? {
        var cmd := PlannerStep(packet);
        assert next.sent == st.sent + [cmd];
        if packet.Obj? {
          assert next.frames == st.frames + [Frame(Get(packet, "t", Null), packet, cmd)];
        }
      }
    }
  }

  // ---------------------------------------------------------------------
  // Properties every line keeps hold for the whole session

  /** Routing any line that `ok` accepts, in any state, keeps `inv` of the record. */
  ghost predicate KeptByLines(inv: Record -> bool, ok: Bytes -> bool, env: Env)
  {
    forall s: St, line: Bytes :: ok(line) && inv(RecordOf(s)) ==> inv(RecordOf(StepLine(s, line, env)))
  }

  /** `ok` accepts every line of `lines`. */
  ghost predicate AllLines(ok: Bytes -> bool, lines: seq<Bytes>)
  {
    forall k :: 0 <= k < |lines| ==> ok(lines[k])
  }

  lemma AllLinesSplit(ok: Bytes -> bool, a: seq<Bytes>, b: seq<Bytes>)
    requires AllLines(ok, a + b)
    ensures AllLines(ok, a) && AllLines(ok, b)
  {
    assert forall k :: 0 <= k < |a| ==> (a + b)[k] == a[k];
    assert forall k :: 0 <= k < |b| ==> (a + b)[|a| + k] == b[k];
  }

  lemma {:induction false} FeedKeeps(inv: Record -> bool, ok: Bytes -> bool, st: St, lines: seq<Bytes>, env: Env)
    requires KeptByLines(inv, ok, env) && inv(RecordOf(st)) && AllLines(ok, lines)
    ensures inv(RecordOf(Feed(st, lines, env)))
    decreases |lines|
  {
    if st.end.None? && lines != [] {
      AllLinesSplit(ok, [lines[0]], lines[1..]);
      assert [lines[0]] + lines[1..] == lines;
      FeedKeeps(inv, ok, StepLine(st, lines[0], env), lines[1..], env);
    }
  }

  lemma {:induction false} RunKeeps(inv: Record -> bool, ok: Bytes -> bool, st: St, buffer: Bytes, events: seq<Recv>, env: Env)
    requires KeptByLines(inv, ok, env) && inv(RecordOf(st)) && AllLines(ok, Lines(buffer + Heard(events)))
    ensures inv(RecordOf(Run(st, buffer, events, env)))
    decreases |events|
  {
    if st.end.None? && events != [] {
      var more := Heard(events[1..]);
      if events[0].Chunk? && events[0].data != [] {
        var received := buffer + events[0].data;
        assert buffer + Heard(events) == received + more;
        LinesAppend(received, more);
        AllLinesSplit(ok, Lines(received), Lines(Rest(received) + more));
        FeedKeeps(inv, ok, st, Lines(received), env);
        RunKeeps(inv, ok, Feed(st, Lines(received), env), Rest(received), events[1..], env);
      } else if events[0].RecvTimeout? {
        assert Heard(events) == more;
        RunKeeps(inv, ok, st, buffer, events[1..], env);
      }
    }
  }

  /** A property of the record that holds at the start, and that every line
      the session reads keeps, holds of the finished session. */
  lemma SessionKeeps(inv: Record -> bool, ok: Bytes -> bool, host: string, port: int, events: seq<Recv>, env: Env, clock: Clock)
    requires KeptByLines(inv, ok, env) && inv(([], [])) && AllLines(ok, Lines(Heard(events)))
    ensures var out := SessionSpec(host, port, events, env, clock);
            inv((out.frames, out.sent))
  {
    assert [] + Heard(events) == Heard(events);
    RunKeeps(inv, ok, Initial(host, port, clock.startTime), [], events, env);
  }

  /** Whatever the transport and the peer do, every frame of a session pairs
      a dict observation with its time and the planner's command for it, every
      command sent is safe, a frame is recorded only for a delivered command,
      and the metadata counts the frames. */
  lemma SessionSound(host: string, port: int, events: seq<Recv>, env: Env, clock: Clock)
    ensures var out := SessionSpec(host, port, events, env, clock);
            && (forall k :: 0 <= k < |out.frames| ==> FrameOk(out.frames[k]))
            && (forall k :: 0 <= k < |out.sent| ==> Safe(out.sent[k]))
            && |out.frames| <= |out.sent|
            && out.meta.frameCount == Some(|out.frames|)
  {
    var inv := (r: Record) => Sound(r) && |r.0| <= |r.1|;
    var ok := (line: Bytes) => true;
    forall s: St, line: Bytes | inv(RecordOf(s))
      ensures inv(RecordOf(StepLine(s, line, env)))
    {
      StepLineSound(s, line, env);
    }
    SessionKeeps(inv, ok, host, port, events, env, clock);
  }

  /** compute_control raises on the packet of this line, unless the line is
      passed over or carries a map. */
  predicate PlannerRaisesOn(line: Bytes, env: Env)
  {
    Answered(line, env) ==> !Controllable(env.decode(line).packet)
  }

  lemma StepLineFallback(st: St, line: Bytes, env: Env)
    requires PlannerRaisesOn(line, env)
    requires forall k :: 0 <= k < |st.sent| ==> st.sent[k] == Fallback
    ensures var next := StepLine(st, line, env);
            forall k :: 0 <= k < |next.sent| ==> next.sent[k] == Fallback
  {
    if Answered(line, env) && env.send(st.attempts).Delivered? {
      assert StepLine(st, line, env).sent == st.sent + [Fallback];
    }
  }

  /** When compute_control raises on every packet the session answers, every
      command sent is the fallback. Map packets, blank lines and malformed
      lines may come in between. */
  lemma SessionFallback(host: string, port: int, events: seq<Recv>, env: Env, clock: Clock)
    requires forall k :: 0 <= k < |Lines(Heard(events))| ==> PlannerRaisesOn(Lines(Heard(events))[k], env)
    ensures var out := SessionSpec(host, port, events, env, clock);
            forall k :: 0 <= k < |out.sent| ==> out.sent[k] == Fallback
  {
    var inv := (r: Record) => forall k :: 0 <= k < |r.1| ==> r.1[k] == Fallback;
    var ok := (line: Bytes) => PlannerRaisesOn(line, env);
    forall s: St, line: Bytes | ok(line) && inv(RecordOf(s))
      ensures inv(RecordOf(StepLine(s, line, env)))
    {
      StepLineFallback(s, line, env);
    }
    SessionKeeps(inv, ok, host, port, events, env, clock);
  }

  /** The line carries no observation dict: it is passed over, is not a
      dict, or is a map packet. */
  predicate NoObservation(line: Bytes, env: Env)
  {
    Answered(line, env) ==> !env.decode(line).packet.Obj?
  }

  /** A session none of whose received lines is an observation dict records
      no frame and writes no replay file. */
  lemma NoObservationNoReplay(host: string, port: int, events: seq<Recv>, env: Env, clock: Clock)
    requires forall k :: 0 <= k < |Lines(Heard(events))| ==> NoObservation(Lines(Heard(events))[k], env)
    ensures var out := SessionSpec(host, port, events, env, clock);
            out.frames == [] && out.replay == None
  {
    var inv := (r: Record) => r.0 == [];
    var ok := (line: Bytes) => NoObservation(line, env);
    forall s: St, line: Bytes | ok(line) && inv(RecordOf(s))
      ensures inv(RecordOf(StepLine(s, line, env)))
    {
    }
    SessionKeeps(inv, ok, host, port, events, env, clock);
  }

  // ---------------------------------------------------------------------
  // What a session records

  /** The packet of an answered line, or nothing. */
  function AnsweredPacket(line: Bytes, env: Env): (ps: seq<Value>)
    ensures |ps| <= 1
  {
    if Answered(line, env) then [env.decode(line).packet] else []
  }

  /** The packets of the answered lines, in order. */
  function AnsweredPackets(lines: seq<Bytes>, env: Env): (ps: seq<Value>)
    ensures |ps| <= |lines|
  {
    if lines == [] then [] else AnsweredPacket(lines[0], env) + AnsweredPackets(lines[1..], env)
  }

  /** The commands the planner gives for `ps`, in order. */
  function CommandsFor(ps: seq<Value>): (cs: seq<Command>)
    ensures |cs| == |ps|
  {
    if ps == [] then [] else [PlannerStep(ps[0])] + CommandsFor(ps[1..])
  }

  /** The frame recorded for an answered packet: one for a dict, none otherwise. */
  function FrameOf(p: Value): (fs: seq<Frame>)
    ensures |fs| <= 1
  {
    if p.Obj? then [Frame(Get(p, "t", Null), p, PlannerStep(p))] else []
  }

  /** The frames recorded for `ps`: one per dict, in order. */
  function FramesFor(ps: seq<Value>): (fs: seq<Frame>)
    ensures |fs| <= |ps|
  {
    if ps == [] then []
    else FrameOf(ps[0]) + FramesFor(ps[1..])
  }

  /** The commands for a batch of packets are those of its parts. */
  lemma {:induction false} CommandsAppend(a: seq<Value>, b: seq<Value>)
    ensures CommandsFor(a + b) == CommandsFor(a) + CommandsFor(b)
    decreases |a|
  {
    if a == [] {
      assert a + b == b;
    } else {
      assert (a + b)[0] == a[0] && (a + b)[1..] == a[1..] + b;
      CommandsAppend(a[1..], b);
    }
  }

  /** The frames for a batch of packets are those of its parts. */
  lemma {:induction false} FramesAppend(a: seq<Value>, b: seq<Value>)
    ensures FramesFor(a + b) == FramesFor(a) + FramesFor(b)
    decreases |a|
  {
    if a == [] {
      assert a + b == b;
    } else {
      assert (a + b)[0] == a[0] && (a + b)[1..] == a[1..] + b;
      FramesAppend(a[1..], b);
    }
  }

  /** One line routed while the session stays open and its send is delivered. */
  lemma StepRecords(st: St, line: Bytes, env: Env)
    requires env.send(st.attempts) == Delivered
    requires StepLine(st, line, env).end.None?
    ensures var r := StepLine(st, line, env);
            var ps := AnsweredPacket(line, env);
            && r.sent == st.sent + CommandsFor(ps)
            && r.frames == st.frames + FramesFor(ps)
            && r.attempts == st.attempts + |ps|
  {
    var ps := AnsweredPacket(line, env);
    if Answered(line, env) {
      var p := env.decode(line).packet;
      assert ps == [p] && ps[1..] == [];
    } else {
      assert ps == [];
    }
  }

  /** When every send is delivered and routing `lines` does not end the
      session, each answered line adds its command to the commands sent and,
      for a dict, its frame to the frames, in line order. */
  lemma {:induction false} FeedRecords(st: St, lines: seq<Bytes>, env: Env)
    requires forall n: nat :: env.send(n) == Delivered
    requires Feed(st, lines, env).end.None?
    ensures var r := Feed(st, lines, env);
            var ps := AnsweredPackets(lines, env);
            && r.sent == st.sent + CommandsFor(ps)
            && r.frames == st.frames + FramesFor(ps)
            && r.attempts == st.attempts + |ps|
    decreases |lines|
  {
    if lines != [] {
      var next := StepLine(st, lines[0], env);
      var one, rest := AnsweredPacket(lines[0], env), AnsweredPackets(lines[1..], env);
      assert Feed(st, lines, env) == Feed(next, lines[1..], env);
      StepRecords(st, lines[0], env);
      FeedRecords(next, lines[1..], env);
      CommandsAppend(one, rest);
      FramesAppend(one, rest);
    }
  }

  // ---------------------------------------------------------------------
  // Chunk boundaries

  /** The transport delivers only data and timeouts: no error, no close. */
  predicate Quiet(events: seq<Recv>)
  {
    forall k :: 0 <= k < |events| ==> events[k].RecvTimeout? || (events[k].Chunk? && events[k].data != [])
  }

  /** The bytes the events deliver, in order. */
  function Data(events: seq<Recv>): Bytes
  {
    if events == [] then []
    else (if events[0].Chunk? then events[0].data else []) + Data(events[1..])
  }

  /** The bytes the session reads: the data of the events up to the first
      that ends it (a reset, a failure or an empty chunk). */
  function Heard(events: seq<Recv>): (r: Bytes)
    ensures Quiet(events) ==> r == Data(events)
  {
    if events == [] then []
    else
      match events[0]
      case RecvTimeout => Heard(events[1..])
      case Chunk(data) => if data == [] then [] else data + Heard(events[1..])
      case _ => []
  }

  /** The peer closing a session that has not ended otherwise. */
  function Close(st: St): (r: St)
    ensures r.end.Some?
  {
    if st.end.None? then st.(end := Some(PeerClosed)) else st
  }

  /** After quiet events the session is where routing the complete lines of
      everything received leaves it, and the rest waits in the buffer. */
  lemma {:induction false} RunPrefix(st: St, buffer: Bytes, events: seq<Recv>, tail: seq<Recv>, env: Env)
    requires Quiet(events) && NoNewline(buffer)
    ensures var mid := Feed(st, Lines(buffer + Data(events)), env);
            Run(st, buffer, events + tail, env) ==
              if mid.end.Some? then mid else Run(mid, Rest(buffer + Data(events)), tail, env)
    decreases |events|
  {
    if st.end.Some? {
    } else if events == [] {
      assert buffer + Data(events) == buffer && events + tail == tail;
      NoNewlineNoLines(buffer);
    } else {
      var all := events + tail;
      assert all[0] == events[0] && all[1..] == events[1..] + tail;
      assert Quiet(events[1..]) by {
        assert forall k :: 0 <= k < |events| - 1 ==> events[1..][k] == events[k + 1];
      }
      var more := Data(events[1..]);
      if events[0].RecvTimeout? {
        assert Data(events) == more;
        RunPrefix(st, buffer, events[1..], tail, env);
      } else {
        var received := buffer + events[0].data;
        assert buffer + Data(events) == received + more;
        var next := Feed(st, Lines(received), env);
        LinesAppend(received, more);
        FeedAppend(st, Lines(received), Lines(Rest(received) + more), env);
        RunPrefix(next, Rest(received), events[1..], tail, env);
      }
    }
  }

  /** A session that only receives data is the routing of the complete lines
      of the byte stream it received, followed by the peer closing. */
  lemma SessionOfStream(host: string, port: int, events: seq<Recv>, env: Env, clock: Clock)
    requires Quiet(events)
    ensures SessionSpec(host, port, events, env, clock) ==
              Finish(Close(Feed(Initial(host, port, clock.startTime), Lines(Data(events)), env)), clock, env)
  {
    var st := Initial(host, port, clock.startTime);
    RunPrefix(st, [], events, [], env);
    assert events + [] == events && [] + Data(events) == Data(events);
  }

  /** How the bytes are cut into chunks, and where timeouts fall between
      them, does not change the session. */
  lemma ChunkingIrrelevant(host: string, port: int, e1: seq<Recv>, e2: seq<Recv>, env: Env, clock: Clock)
    requires Quiet(e1) && Quiet(e2) && Data(e1) == Data(e2)
    ensures SessionSpec(host, port, e1, env, clock) == SessionSpec(host, port, e2, env, clock)
  {
    SessionOfStream(host, port, e1, env, clock);
    SessionOfStream(host, port, e2, env, clock);
  }

  /** A connection reset after some data ends the session with the frames
      routed so far, which are then saved with the replay. */
  lemma ResetKeepsFrames(host: string, port: int, events: seq<Recv>, more: seq<Recv>, env: Env, clock: Clock)
    requires Quiet(events)
    ensures var mid := Feed(Initial(host, port, clock.startTime), Lines(Data(events)), env);
            var out := SessionSpec(host, port, events + [RecvReset] + more, env, clock);
            && out.frames == mid.frames
            && (mid.end.None? ==> out.end == ConnectionLost)
  {
    var st := Initial(host, port, clock.startTime);
    RunPrefix(st, [], events, [RecvReset] + more, env);
    assert events + [RecvReset] + more == events + ([RecvReset] + more);
    assert [] + Data(events) == Data(events);
  }

  /** A session that only receives data, whose sends are all delivered and
      that ends with the peer closing, answers every packet of the stream
      that is not a map with the planner's command, in arrival order, and
      records one frame per dict among them, in the same order. */
  lemma SessionRecords(host: string, port: int, events: seq<Recv>, env: Env, clock: Clock)
    requires Quiet(events)
    requires forall n: nat :: env.send(n) == Delivered
    ensures var out := SessionSpec(host, port, events, env, clock);
            var ps := AnsweredPackets(Lines(Data(events)), env);
            out.end == PeerClosed ==> out.sent == CommandsFor(ps) && out.frames == FramesFor(ps)
  {
    SessionOfStream(host, port, events, env, clock);
    var st := Initial(host, port, clock.startTime);
    if Feed(st, Lines(Data(events)), env).end.None? {
      FeedRecords(st, Lines(Data(events)), env);
    }
  }

  // ---------------------------------------------------------------------
  // End to end

  function MapPacket(): Value
  {
    Obj(map["map" := Obj(map[
      "extent" := Arr([Num(0.0), Num(10.0), Num(0.0), Num(10.0)]),
      "cellSize" := Num(0.2),
      "slots" := Arr([Arr([Num(0.0), Num(2.0), Num(0.0), Num(2.0)])]),
      "occupied_idx" := Arr([])])])
  }

  function Observation(t: real, v: real): Value
  {
    Obj(map["t" := Num(t), "state" := Obj(map["v" := Num(v)])])
  }

  lemma MapPacketAccepted()
    ensures MapPacket().fields["map"].Obj?
    ensures MapAccepted(MapPacket().fields["map"])
    ensures PyLen(Get(MapPacket().fields["map"], "slots", Arr([]))) == Some(1)
  {
    var payload := MapPacket().fields["map"];
    assert "extent" in payload.fields && payload.fields["extent"] == Arr([Num(0.0), Num(10.0), Num(0.0), Num(10.0)]);
    assert "grid" !in payload.fields;
    assert Get(payload, "slots", Null) == Arr([Arr([Num(0.0), Num(2.0), Num(0.0), Num(2.0)])]);
    assert Get(payload, "occupied_idx", Null) == Arr([]);
  }

  /** The three observations of the scenario and the commands the control
      law gives for them. */
  lemma ScenarioCommands()
    ensures PlannerStep(Observation(0.5, 0.0)) == Command(0.0, 0.6, 0.0, "D")
    ensures PlannerStep(Observation(2.5, 0.0)) == Command(0.0, 0.0, 0.3, "D")
    ensures PlannerStep(Observation(3.5, 0.5)) == Command(0.07, 0.2, 0.0, "D")
  {
    assert TimeOf(Observation(0.5, 0.0)) == Some(0.5) && SpeedOf(Observation(0.5, 0.0)) == Some(0.0);
    assert TimeOf(Observation(2.5, 0.0)) == Some(2.5) && SpeedOf(Observation(2.5, 0.0)) == Some(0.0);
    assert TimeOf(Observation(3.5, 0.5)) == Some(3.5) && SpeedOf(Observation(3.5, 0.5)) == Some(0.5);
  }

  /** Routing an observation line whose command is delivered: one more
      attempt, the command sent and the frame recorded. */
  lemma ObservationLine(st: St, line: Bytes, t: real, v: real, env: Env)
    requires st.end.None? && !IsBlank(line)
    requires env.decode(line) == Parsed(Observation(t, v))
    requires env.send(st.attempts) == Delivered
    ensures var obs := Observation(t, v);
            StepLine(st, line, env) ==
              st.(attempts := st.attempts + 1, sent := st.sent + [PlannerStep(obs)],
                  frames := st.frames + [Frame(Num(t), obs, PlannerStep(obs))])
  {
    var obs := Observation(t, v);
    assert "map" !in obs.fields && Get(obs, "t", Null) == Num(t);
  }

  /** Routing the map line of the scenario: the metadata takes one slot and
      nothing is sent. */
  lemma MapLine(st: St, line: Bytes, env: Env)
    requires st.end.None? && !IsBlank(line)
    requires env.decode(line) == Parsed(MapPacket())
    ensures var next := StepLine(st, line, env);
            && next.end.None? && next.meta.slotsTotal == Some(1)
            && next.attempts == st.attempts && next.sent == st.sent && next.frames == st.frames
  {
    MapPacketAccepted();
    assert "map" in MapPacket().fields;
  }

  /** The four lines, each followed by a newline, in one chunk. */
  lemma ScenarioStream(lines: seq<Bytes>)
    requires |lines| == 4
    requires forall k :: 0 <= k < 4 ==> NoNewline(lines[k])
    ensures Quiet([Chunk(Join(lines))])
    ensures Lines(Data([Chunk(Join(lines))])) == lines
  {
    assert Join(lines) + [] == Join(lines);
    SplitIsUnique(lines, []);
    assert Join(lines) != [] by {
      assert Join(lines) == lines[0] + [NL] + Join(lines[1..]);
    }
    assert Data([Chunk(Join(lines))]) == Join(lines) + Data([]);
  }

  /** Routing the scenario's four lines from a fresh state. */
  lemma ScenarioFeed(st0: St, lm: Bytes, l1: Bytes, l2: Bytes, l3: Bytes, env: Env)
    requires st0.end.None? && st0.attempts == 0 && st0.sent == [] && st0.frames == []
    requires !IsBlank(lm) && !IsBlank(l1) && !IsBlank(l2) && !IsBlank(l3)
    requires env.decode(lm) == Parsed(MapPacket())
    requires env.decode(l1) == Parsed(Observation(0.5, 0.0))
    requires env.decode(l2) == Parsed(Observation(2.5, 0.0))
    requires env.decode(l3) == Parsed(Observation(3.5, 0.5))
    requires forall n :: n < 3 ==> env.send(n) == Delivered
    ensures var st := Feed(st0, [lm, l1, l2, l3], env);
            && st.end.None?
            && st.sent == [Command(0.0, 0.6, 0.0, "D"), Command(0.0, 0.0, 0.3, "D"), Command(0.07, 0.2, 0.0, "D")]
            && |st.frames| == 3
            && st.meta.slotsTotal == Some(1)
  {
    ScenarioCommands();
    MapLine(st0, lm, env);
    var st1 := StepLine(st0, lm, env);
    assert st1.attempts == 0 && st1.sent == [] && st1.frames == [];
    ObservationLine(st1, l1, 0.5, 0.0, env);
    var st2 := StepLine(st1, l1, env);
    assert st2.attempts == 1 && st2.sent == [Command(0.0, 0.6, 0.0, "D")] && |st2.frames| == 1;
    ObservationLine(st2, l2, 2.5, 0.0, env);
    var st3 := StepLine(st2, l2, env);
    assert st3.attempts == 2 && st3.sent == [Command(0.0, 0.6, 0.0, "D"), Command(0.0, 0.0, 0.3, "D")];
    ObservationLine(st3, l3, 3.5, 0.5, env);
    FeedFour(st0, st1, st2, st3, StepLine(st3, l3, env), lm, l1, l2, l3, env);
  }

  /** Four lines routed one by one while the session stays open. */
  lemma FeedFour(st0: St, st1: St, st2: St, st3: St, st4: St, a: Bytes, b: Bytes, c: Bytes, d: Bytes, env: Env)
    requires st0.end.None? && st1.end.None? && st2.end.None? && st3.end.None?
    requires st1 == StepLine(st0, a, env) && st2 == StepLine(st1, b, env)
    requires st3 == StepLine(st2, c, env) && st4 == StepLine(st3, d, env)
    ensures Feed(st0, [a, b, c, d], env) == st4
  {
    FeedCons(st3, d, [], env);
    assert [d] == [d] + [];
    FeedCons(st2, c, [d], env);
    assert [c, d] == [c] + [d];
    FeedCons(st1, b, [c, d], env);
    assert [b, c, d] == [b] + [c, d];
    FeedCons(st0, a, [b, c, d], env);
    assert [a, b, c, d] == [a] + [b, c, d];
  }

  /** A map packet followed by observations at t = 0.5, 2.5 and 3.5 (speeds 0,
      0 and 0.5), all delivered in one chunk and all sends succeeding: the
      commands are full throttle, braking, then steering with a little
      throttle; three frames are recorded and the metadata counts one slot. */
  lemma EndToEndScenario(lm: Bytes, l1: Bytes, l2: Bytes, l3: Bytes, env: Env, clock: Clock)
    requires NoNewline(lm) && NoNewline(l1) && NoNewline(l2) && NoNewline(l3)
    requires !IsBlank(lm) && !IsBlank(l1) && !IsBlank(l2) && !IsBlank(l3)
    requires env.decode(lm) == Parsed(MapPacket())
    requires env.decode(l1) == Parsed(Observation(0.5, 0.0))
    requires env.decode(l2) == Parsed(Observation(2.5, 0.0))
    requires env.decode(l3) == Parsed(Observation(3.5, 0.5))
    requires forall n :: n < 3 ==> env.send(n) == Delivered
    ensures var out := SessionSpec("127.0.0.1", 55556, [Chunk(Join([lm, l1, l2, l3]))], env, clock);
            && out.sent == [Command(0.0, 0.6, 0.0, "D"), Command(0.0, 0.0, 0.3, "D"), Command(0.07, 0.2, 0.0, "D")]
            && |out.frames| == 3
            && out.meta.slotsTotal == Some(1)
            && out.meta.frameCount == Some(3)
            && out.end == PeerClosed
  {
    var lines := [lm, l1, l2, l3];
    ScenarioStream(lines);
    SessionOfStream("127.0.0.1", 55556, [Chunk(Join(lines))], env, clock);
    ScenarioFeed(Initial("127.0.0.1", 55556, clock.startTime), lm, l1, l2, l3, env);
  }
}
