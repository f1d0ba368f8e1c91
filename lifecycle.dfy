/** The passes of the `Updater` run in any order, each pass taken as one
    step. This covers every order the start-up sequence and the two timers
    produce, and more: the program runs `populate` only during start-up. */
module Lifecycle {
  import opened Js
  import opened Wrappers
  import opened Provider
  import opened Server

  /** One pass: a `getrecords` with its lookup outcomes, a `populate` with
      each zone's listing response, or an `update` tick. */
  datatype Pass =
    | Refresh(v4: Option<string>, v6: Option<string>)
    | PopulatePass(responses: seq<Option<seq<ProviderRecord>>>)
    | UpdateTick

  /** Every `populate` in the run brings one listing response per zone. */
  predicate Fits(passes: seq<Pass>, zoneCount: nat) {
    forall k :: 0 <= k < |passes| && passes[k].PopulatePass? ==> |passes[k].responses| == zoneCount
  }

  /** The world before any pass: the updater's addresses are `null` and every
      zone, freshly constructed, has `null` for both addresses. */
  function Initial(ipv6Enabled: bool, configs: seq<ZoneState>): (w: World)
    ensures |w.zones| == |configs|
    ensures w.ipv4 == Null && w.ipv6 == Null && w.ipv6Enabled == ipv6Enabled
    ensures forall k :: 0 <= k < |configs| ==> SameConfig(w.zones[k], configs[k])
    ensures forall k :: 0 <= k < |configs| ==> w.zones[k].localIp == Null && w.zones[k].awsIp == Null
    ensures HoldsNoBoolean(w)
  {
    World(Null, Null, ipv6Enabled,
          seq(|configs|, k requires 0 <= k < |configs| => configs[k].(localIp := Null, awsIp := Null)))
  }

  /** One pass: the world after it and the upserts it sends. */
  function Step(w: World, pass: Pass): (r: (World, seq<UpsertRequest>))
    requires pass.PopulatePass? ==> |pass.responses| == |w.zones|
    ensures |r.0.zones| == |w.zones|
    ensures !pass.UpdateTick? ==> r.1 == []
    ensures pass.UpdateTick? ==> r.0 == w
  {
    match pass
    case Refresh(v4, v6) => (Refreshed(w, v4, v6).0, [])
    case PopulatePass(responses) => (Populated(w, responses), [])
    case UpdateTick => (w, Upserts(w))
  }

  /** A run of passes: the final world and every upsert sent, in order. */
  function Run(w: World, passes: seq<Pass>): (r: (World, seq<UpsertRequest>))
    requires Fits(passes, |w.zones|)
    ensures |r.0.zones| == |w.zones|
    decreases |passes|
  {
    if passes == [] then (w, [])
    else
      var first := Step(w, passes[0]);
      var rest := Run(first.0, passes[1..]);
      (rest.0, first.1 + rest.1)
  }

  /** However the passes interleave, the updater as written never sends an
      upsert, and no address it holds ever becomes a boolean. */
  lemma {:induction false} RunSendsNothing(w: World, passes: seq<Pass>)
    requires HoldsNoBoolean(w)
    requires Fits(passes, |w.zones|)
    ensures Run(w, passes).1 == []
    ensures HoldsNoBoolean(Run(w, passes).0)
    decreases |passes|
  {
    if passes != [] {
      var first := Step(w, passes[0]);
      if passes[0].UpdateTick? {
        UpdateSendsNothing(w);
      }
      RunSendsNothing(first.0, passes[1..]);
    }
  }

  /** From start-up on, whatever the lookups and listings return, no upsert
      is ever sent. */
  lemma NothingEverSent(ipv6Enabled: bool, configs: seq<ZoneState>, passes: seq<Pass>)
    requires Fits(passes, |configs|)
    ensures Run(Initial(ipv6Enabled, configs), passes).1 == []
  {
    RunSendsNothing(Initial(ipv6Enabled, configs), passes);
  }
}
