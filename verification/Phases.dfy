/** Phases, their traffic and the static plan of one mapped model
    (src/core/comm_types.py and the schedule fields of src/core/mapped_model.py). */
module Phases {

  /** Packets per source and destination chiplet; a phase without a matrix has the empty map. */
  type Traffic = map<nat, map<nat, int>>

  datatype PhaseState = NotStarted | Running | Complete

  datatype Kind =
    | Compute(layer: nat)
    | Activation(source: nat)
    | WeightLoad(layers: seq<nat>)

  datatype Phase = Phase(kind: Kind, deps: seq<nat>, traffic: Traffic)

  /** Start and completion times are `UNSET` until known, as in the source. */
  const UNSET: real := -1.0

  datatype Instance = Instance(state: PhaseState, start: real, completion: real, latency: real)

  /** Everything about a mapped model that no tick changes. Phase ids index `phases`. */
  datatype Plan = Plan(
    phases: seq<Phase>,
    order: seq<nat>,
    computeOf: map<nat, nat>,
    actOf: map<nat, nat>,
    weightOf: map<nat, nat>,
    numLayers: nat,
    numInputs: nat,
    pipelined: bool,
    stationary: bool,
    layerLatency: seq<real>)

  /** Everything about a mapped model that ticks do change. */
  datatype Progress = Progress(
    inst: seq<map<nat, Instance>>,
    inputStart: seq<real>,
    inputDone: seq<real>,
    loaded: set<nat>,
    done: real)

  function Max(a: real, b: real): real { if a < b then b else a }

  predicate HasTraffic(t: Traffic) {
    exists src | src in t :: exists dst | dst in t[src] :: t[src][dst] > 0
  }

  /** Python's round: nearest integer, ties to even. */
  function Round(x: real): int {
    var f := x.Floor;
    var d := x - f as real;
    if d < 0.5 then f
    else if d > 0.5 then f + 1
    else if f % 2 == 0 then f else f + 1
  }

  function ScaledAmount(amount: int, scale: real): int {
    var r := Round(amount as real * scale);
    if r < 1 then 1 else r
  }

  /** The traffic of a phase with the given fraction of its work remaining. */
  function ScaledTraffic(t: Traffic, scale: real): Traffic {
    if scale >= 1.0 then t
    else map src | src in t ::
           map dst | dst in t[src] && t[src][dst] > 0 :: ScaledAmount(t[src][dst], scale)
  }

  lemma ScaledAmountBounds(amount: int, scale: real)
    requires 0 < amount && 0.0 <= scale <= 1.0
    ensures 1 <= ScaledAmount(amount, scale) <= amount
  {
    var a := amount as real;
    assert a * scale <= a;
    assert Round(a * scale) <= amount;
  }

  /** Scaling an ongoing phase's traffic never silences it and never invents packets. */
  lemma ScaledTrafficKeepsRoutes(t: Traffic, scale: real)
    requires 0.0 <= scale <= 1.0
    ensures HasTraffic(ScaledTraffic(t, scale)) <==> HasTraffic(t)
    ensures forall src, dst | src in t && dst in t[src] && t[src][dst] > 0 ::
              dst in ScaledTraffic(t, scale)[src] && 1 <= ScaledTraffic(t, scale)[src][dst] <= t[src][dst]
  {
    var u := ScaledTraffic(t, scale);
    forall src, dst | src in t && dst in t[src] && t[src][dst] > 0
      ensures dst in u[src] && 1 <= u[src][dst] <= t[src][dst]
    {
      ScaledAmountBounds(t[src][dst], scale);
    }
    if HasTraffic(t) {
      var src :| src in t && exists dst | dst in t[src] :: t[src][dst] > 0;
      var dst :| dst in t[src] && t[src][dst] > 0;
      assert src in u && dst in u[src] && u[src][dst] > 0;
    }
    if HasTraffic(u) {
      var src :| src in u && exists dst | dst in u[src] :: u[src][dst] > 0;
      var dst :| dst in u[src] && u[src][dst] > 0;
      assert src in t && dst in t[src] && t[src][dst] > 0;
    }
  }
}
