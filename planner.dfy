/** The demo planner the client drives: the control law that turns an
    observation into a command, the safe command substituted when that law
    raises, the map summary with its free-slot count, and the planner object
    whose map state `set_map` resets. */
module StudentPlanner {
  import opened Json

  /** A command packet: always exactly these four fields. */
  datatype Command = Command(steer: real, accel: real, brake: real, gear: string)

  /** The command the control law starts from before its branches adjust it. */
  const Coast := Command(0.0, 0.0, 0.0, "D")

  /** The command sent when the control law raises: stop with moderate braking. */
  const Fallback := Command(0.0, 0.0, 0.5, "D")

  /** A command never asks for throttle and brake at once, and drives forward. */
  predicate Safe(c: Command)
  {
    c.gear == "D" && !(c.accel > 0.0 && c.brake > 0.0)
  }

  /** `float(obs.get("t", 0.0))` for a dict observation. */
  function TimeOf(obs: Value): (r: Option<real>)
    requires obs.Obj?
    ensures "t" !in obs.fields ==> r == Some(0.0)
  {
    ToFloat(Get(obs, "t", Num(0.0)))
  }

  /** `float(obs.get("state", {}).get("v", 0.0))` for a dict observation;
      a "state" that is not a dict makes `.get` raise. */
  function SpeedOf(obs: Value): (r: Option<real>)
    requires obs.Obj?
    ensures "state" !in obs.fields ==> r == Some(0.0)
    ensures "state" in obs.fields && obs.fields["state"].Obj? && "v" !in obs.fields["state"].fields ==> r == Some(0.0)
    ensures "state" in obs.fields && !obs.fields["state"].Obj? ==> r == None
  {
    var state := Get(obs, "state", Obj(map[]));
    if state.Obj? then ToFloat(Get(state, "v", Num(0.0))) else None
  }

  /** The observation is a dict whose time and speed both convert to floats,
      i.e. `compute_control` does not raise on it. */
  predicate Controllable(obs: Value)
  {
    obs.Obj? && TimeOf(obs).Some? && SpeedOf(obs).Some?
  }

  /** `PlannerSkeleton.compute_control`: `None` stands for the exception it
      raises on an observation it cannot read. */
  function ComputeControl(obs: Value): (r: Option<Command>)
    ensures r.Some? <==> Controllable(obs)
    ensures r.Some? ==> Safe(r.value)
    ensures r.Some? && TimeOf(obs).value < 2.0 ==>
              r.value.accel == 0.6 && r.value.steer == 0.0 && r.value.brake == 0.0
    ensures r.Some? && 2.0 <= TimeOf(obs).value < 3.0 ==>
              r.value.brake == 0.3 && r.value.accel == 0.0 && r.value.steer == 0.0
    ensures r.Some? && TimeOf(obs).value >= 3.0 ==>
              r.value.steer == 0.07 && r.value.brake == 0.0 &&
              (r.value.accel == 0.2 <==> SpeedOf(obs).value < 1.0) &&
              (SpeedOf(obs).value >= 1.0 ==> r.value.accel == 0.0)
    ensures obs.Obj? && "t" !in obs.fields && "state" !in obs.fields ==>
              r == Some(Command(0.0, 0.6, 0.0, "D"))
  {
    if !obs.Obj? then None
    else
      match (TimeOf(obs), SpeedOf(obs))
      case (Some(t), Some(v)) =>
        var cmd := Coast;
        if t < 2.0 then Some(cmd.(accel := 0.6))
        else if t < 3.0 then Some(cmd.(brake := 0.3))
        else if v < 1.0 then Some(cmd.(steer := 0.07, accel := 0.2))
        else Some(cmd.(steer := 0.07))
      case _ => None
  }

  /** `planner_step`: the control law's command, or the fallback when it raises. */
  function PlannerStep(obs: Value): (r: Command)
    ensures !Controllable(obs) ==> r == Fallback
    ensures Controllable(obs) ==> Some(r) == ComputeControl(obs)
    ensures Safe(r)
  {
    match ComputeControl(obs)
    case Some(cmd) => cmd
    case None => Fallback
  }

  // ---------------------------------------------------------------------
  // Map summary and free-slot count

  /** Number of truthy entries, as `sum(1 for v in items if v)` counts them. */
  function CountTruthy(items: seq<Value>): (n: nat)
    ensures n <= |items|
  {
    if items == [] then 0
    else CountTruthy(items[..|items| - 1]) + (if Truthy(items[|items| - 1]) then 1 else 0)
  }

  /** The positions of the truthy entries: the independent reading of the count. */
  ghost function TruthyIndices(items: seq<Value>): set<nat>
  {
    set i: nat | i < |items| && Truthy(items[i])
  }

  lemma {:induction false} CountTruthyIsIndexCount(items: seq<Value>)
    ensures CountTruthy(items) == |TruthyIndices(items)|
  {
    if items != [] {
      var front := items[..|items| - 1];
      var last := |items| - 1;
      CountTruthyIsIndexCount(front);
      assert forall i: nat :: i < |front| ==> front[i] == items[i];
      if Truthy(items[last]) {
        assert TruthyIndices(items) == TruthyIndices(front) + {last};
      } else {
        assert TruthyIndices(items) == TruthyIndices(front);
      }
    }
  }

  /** How many truthy entries iterating over `occupied` yields; raises (None)
      when it is truthy but not iterable. A string yields its characters, all
      truthy; a dict yields its keys, truthy when not empty. */
  function OccupiedCount(occupied: Value): (r: Option<nat>)
    ensures occupied.Arr? ==> r == Some(CountTruthy(occupied.items))
    ensures !Truthy(occupied) ==> r == Some(0)
  {
    if !Truthy(occupied) then Some(0)
    else if occupied.Arr? then Some(CountTruthy(occupied.items))
    else if occupied.Str? then Some(|occupied.s|)
    else if occupied.Obj? then Some(|set k | k in occupied.fields.Keys && k != []|)
    else None // a non-zero number or True is not iterable
  }

  /** Rows and columns of a truthy stationary grid: `len(g)` and `len(g[0])`. */
  function GridSize(stationary: Value): (r: Option<(nat, nat)>)
    requires Truthy(stationary)
    ensures stationary.Arr? && r.Some? ==> r.value.0 == |stationary.items|
  {
    if stationary.Arr? then
      match PyLen(stationary.items[0])
      case Some(cols) => Some((|stationary.items|, cols))
      case None => None
    else if stationary.Str? then Some((|stationary.s|, 1))
    else None // a dict has no key 0; numbers and True have no len
  }

  datatype MapSummary = MapSummary(slotsTotal: nat, freeSlots: int, gridSize: Option<(nat, nat)>)

  /** The map payload's "grid" entry; `.get("stationary")` raises unless it is a dict. */
  function GridOf(payload: Value): Value
    requires payload.Obj?
  {
    Get(payload, "grid", Obj(map[]))
  }

  /** `pretty_print_map_summary` without the printing: the figures it reports,
      or `None` where one of its `len`, iteration or `.get` calls raises. */
  function MapSummaryOf(payload: Value): (r: Option<MapSummary>)
    requires payload.Obj?
    ensures r.Some? && Get(payload, "occupied_idx", Null).Arr? ==>
              r.value.freeSlots == r.value.slotsTotal - |TruthyIndices(Get(payload, "occupied_idx", Null).items)|
    ensures r.Some? && Get(payload, "slots", Null).Arr? ==>
              r.value.slotsTotal == |Get(payload, "slots", Null).items|
    ensures r.Some? && !Truthy(Get(payload, "slots", Null)) ==> r.value.slotsTotal == 0
    ensures r.Some? && !Truthy(Get(payload, "occupied_idx", Null)) ==> r.value.freeSlots == r.value.slotsTotal
  {
    var slots := Get(payload, "slots", Null);
    var occupied := Get(payload, "occupied_idx", Null);
    var total := PyLen(if Truthy(slots) then slots else Arr([]));
    var taken := OccupiedCount(occupied);
    var grid := GridOf(payload);
    if total.None? || taken.None? || !grid.Obj? then None
    else
      var stationary := Get(grid, "stationary", Null);
      var size := if Truthy(stationary) then GridSize(stationary) else None;
      if Truthy(stationary) && size.None? then None
      else
        CountTruthyIsIndexCount(if occupied.Arr? then occupied.items else []);
        Some(MapSummary(total.value, total.value - taken.value, size))
  }

  // ---------------------------------------------------------------------
  // Reading the map payload in set_map

  /** `map(float, items)` collected: every item must convert. */
  function FloatsOf(items: seq<Value>): (r: Option<seq<real>>)
    ensures r.Some? <==> forall i :: 0 <= i < |items| ==> ToFloat(items[i]).Some?
    ensures r.Some? ==> |r.value| == |items|
    ensures r.Some? ==> forall i :: 0 <= i < |items| ==> ToFloat(items[i]) == Some(r.value[i])
  {
    if items == [] then Some([])
    else
      match (ToFloat(items[0]), FloatsOf(items[1..]))
      case (Some(x), Some(xs)) => Some([x] + xs)
      case _ => None
  }

  /** `tuple(map(float, payload.get("extent", (0.0, 0.0, 0.0, 0.0))))`. */
  function ExtentOf(payload: Value): (r: Option<seq<real>>)
    requires payload.Obj?
    ensures "extent" !in payload.fields ==> r == Some([0.0, 0.0, 0.0, 0.0])
  {
    if "extent" !in payload.fields then Some([0.0, 0.0, 0.0, 0.0]) // the default tuple, converted
    else
      match payload.fields["extent"]
      case Arr(items) => FloatsOf(items)
      case Str(s) => if s == [] then Some([]) else None
      case Obj(fields) => if fields == map[] then Some([]) else None
      case Null => None // None, numbers and booleans are not iterable
      case Num(_) => None
      case Bool(_) => None
  }

  /** `float(payload.get("cellSize", 0.5))`. */
  function CellSizeOf(payload: Value): (r: Option<real>)
    requires payload.Obj?
    ensures "cellSize" !in payload.fields ==> r == Some(0.5)
  {
    ToFloat(Get(payload, "cellSize", Num(0.5)))
  }

  // The stages of set_map: each assignment happens only when every earlier
  // step has returned without raising.

  predicate ExtentReads(payload: Value)
  {
    payload.Obj? && ExtentOf(payload).Some?
  }

  predicate CellSizeReads(payload: Value)
  {
    ExtentReads(payload) && CellSizeOf(payload).Some?
  }

  predicate GridReads(payload: Value)
  {
    CellSizeReads(payload) && GridOf(payload).Obj?
  }

  /** `set_map` returns normally on this payload. */
  predicate MapAccepted(payload: Value)
  {
    GridReads(payload) && MapSummaryOf(payload).Some?
  }

  /** `PlannerSkeleton`: the state the planner keeps between ticks. */
  class Planner {
    var mapData: Value
    var mapExtent: Option<seq<real>>
    var cellSize: real
    var stationaryGrid: Value
    var waypoints: seq<(real, real)>

    /** A fresh planner: no map, the default cell size and no waypoints. */
    constructor ()
      ensures mapData == Null && mapExtent == None && stationaryGrid == Null
      ensures cellSize == 0.5 && waypoints == []
    {
      mapData := Null;
      mapExtent := None;
      cellSize := 0.5;
      stationaryGrid := Null;
      waypoints := [];
    }

    /** `set_map`: stores the payload and re-derives the map state. Each field
        is assigned in the source's order, so when a step raises the fields
        before it are already updated and those after it keep their values. */
    method SetMap(payload: Value) returns (ok: bool)
      modifies this
      ensures ok == MapAccepted(payload)
      ensures MapSet(this, payload)
    {
      mapData := payload;
      if !payload.Obj? {
        return false;
      }
      var extent := ExtentOf(payload);
      if extent.None? {
        return false;
      }
      mapExtent := extent;
      var size := CellSizeOf(payload);
      if size.None? {
        return false;
      }
      cellSize := size.value;
      var grid := GridOf(payload);
      if !grid.Obj? {
        return false;
      }
      stationaryGrid := Get(grid, "stationary", Null);
      var summary := MapSummaryOf(payload);
      if summary.None? {
        return false;
      }
      waypoints := [];
      ok := true;
    }

    /** `compute_path`: the skeleton plans nothing and leaves no waypoints. */
    method ComputePath(obs: Value)
      modifies this`waypoints
      ensures waypoints == []
    {
      waypoints := [];
    }
  }

  /** What `set_map(payload)` leaves in the planner `p`, from its state before
      the call: the payload is stored; the extent, cell size and grid are
      assigned in the source's order, so each is updated only when every step
      up to its own returned, and otherwise keeps its old value; the
      waypoints are cleared only when the whole call returns. */
  twostate predicate MapSet(p: Planner, payload: Value)
    reads p
  {
    && p.mapData == payload
    && p.mapExtent == (if ExtentReads(payload) then ExtentOf(payload) else old(p.mapExtent))
    && p.cellSize == (if CellSizeReads(payload) then CellSizeOf(payload).value else old(p.cellSize))
    && p.stationaryGrid ==
         (if GridReads(payload) then Get(GridOf(payload), "stationary", Null) else old(p.stationaryGrid))
    && p.waypoints == (if MapAccepted(payload) then [] else old(p.waypoints))
  }

  /** A payload carrying only slots and occupancy is accepted, and set_map
      then falls back to the all-zero extent and the 0.5 cell size. */
  lemma {:induction false} SetMapDefaults(slots: seq<Value>, occupied: seq<Value>)
    ensures var payload := Obj(map["slots" := Arr(slots), "occupied_idx" := Arr(occupied)]);
            MapAccepted(payload) &&
            ExtentOf(payload) == Some([0.0, 0.0, 0.0, 0.0]) &&
            CellSizeOf(payload) == Some(0.5) &&
            MapSummaryOf(payload).value.freeSlots == |slots| - CountTruthy(occupied)
  {
    var payload := Obj(map["slots" := Arr(slots), "occupied_idx" := Arr(occupied)]);
    assert "extent" !in payload.fields && "cellSize" !in payload.fields;
    assert "grid" !in payload.fields;
    assert Get(payload, "slots", Null) == Arr(slots);
    assert Get(payload, "occupied_idx", Null) == Arr(occupied);
    CountTruthyIsIndexCount(occupied);
  }

  // ---------------------------------------------------------------------
  // The free-slot count treats slot index 0 as unoccupied

  /** As written, the summary counts the truthy entries of `occupied_idx`;
      the index 0 is falsy, so an occupied first slot is reported free. */
  lemma IndexZeroCountsAsFree()
    ensures var payload := Obj(map["slots" := Arr([Arr([])]), "occupied_idx" := Arr([Num(0.0)])]);
            MapSummaryOf(payload).Some? && MapSummaryOf(payload).value.freeSlots == 1
  {
    SetMapDefaults([Arr([])], [Num(0.0)]);
    assert CountTruthy([Num(0.0)]) == 0 by {
      assert [Num(0.0)][..0] == [];
    }
  }

  /** The slot indices below `slotCount`. */
  function SlotIndices(slotCount: nat): (r: set<nat>)
    ensures forall i: nat :: i in r <==> i < slotCount
    ensures |r| == slotCount
  {
    if slotCount == 0 then {} else SlotIndices(slotCount - 1) + {slotCount - 1}
  }

  /** The free-slot count as the map format means it: `occupied_idx` lists
      indices into `slots`, and a slot is free exactly when its index is not
      listed, whatever the index's value. */
  function IntendedFreeSlots(slotCount: nat, occupied: set<nat>): (r: nat)
    ensures occupied <= SlotIndices(slotCount) ==> r == slotCount - |occupied|
    ensures r <= slotCount
  {
    var free := SlotIndices(slotCount) - occupied;
    assert free <= SlotIndices(slotCount);
    |free|
  }

  /** With the intended count, the first slot listed as occupied is not free. */
  lemma IndexZeroIsOccupied()
    ensures IntendedFreeSlots(1, {0}) == 0
  {
    assert {0} <= SlotIndices(1) by {
      assert 0 in SlotIndices(1);
    }
  }
}
