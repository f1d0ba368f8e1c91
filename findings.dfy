/** The rules `update` and `populate` evidently mean to follow, set beside
    the rules as written: an upsert whenever the published address differs
    from the desired one, IPv6 records recognised by the type `AAAA`, and a
    failed listing that clears the zone's desired address. */
module Findings {
  import opened Js
  import opened Wrappers
  import opened Provider
  import opened Server
  import Lifecycle

  /** Whether the corrected rule has anything to send for this zone: its
      published address differs from the desired one, and it is not an IPv6
      record while IPv6 is switched off. */
  predicate Drifts(zone: ZoneState, ipv4: Value, ipv6: Value, ipv6Enabled: bool) {
    (zone.rtype == "AAAA" ==> ipv6Enabled) && zone.awsIp != Desired(zone, ipv4, ipv6)
  }

  /** One zone's step of `update` with lines 87, 88 and 92 corrected: type
      `AAAA`, and `awsIp !== ipv6` / `awsIp !== ipv4`. */
  function IntendedZoneUpserts(zone: ZoneState, ipv4: Value, ipv6: Value, ipv6Enabled: bool): (r: seq<UpsertRequest>)
    ensures |r| <= 1
    ensures forall i :: 0 <= i < |r| ==>
      r[i].zoneId == zone.id && r[i].name == zone.domain && r[i].rtype == zone.rtype && r[i].ttl == zone.ttl
  {
    if zone.rtype == "AAAA" then
      if ipv6Enabled && zone.awsIp != ipv6 then [UpdateRecord(zone, ipv6)] else []
    else
      if zone.awsIp != ipv4 then [UpdateRecord(zone, ipv4)] else []
  }

  function IntendedUpsertsOver(zones: seq<ZoneState>, ipv4: Value, ipv6: Value, ipv6Enabled: bool): (r: seq<UpsertRequest>)
    ensures |r| <= |zones|
    decreases |zones|
  {
    if zones == [] then []
    else IntendedUpsertsOver(zones[..|zones| - 1], ipv4, ipv6, ipv6Enabled)
         + IntendedZoneUpserts(zones[|zones| - 1], ipv4, ipv6, ipv6Enabled)
  }

  /** The corrected `update`: the upserts one pass sends. */
  function IntendedUpserts(w: World): (r: seq<UpsertRequest>)
    ensures |r| <= |w.zones|
  {
    IntendedUpsertsOver(w.zones, w.ipv4, w.ipv6, w.ipv6Enabled)
  }

  /** Whether `req` is the corrected request for a drifting `zone`: the
      zone's desired address, written to the zone's own record. */
  predicate SentFor(req: UpsertRequest, zone: ZoneState, ipv4: Value, ipv6: Value, ipv6Enabled: bool) {
    Drifts(zone, ipv4, ipv6, ipv6Enabled) && req == UpdateRecord(zone, Desired(zone, ipv4, ipv6))
  }

  lemma IntendedZoneStep(zone: ZoneState, ipv4: Value, ipv6: Value, ipv6Enabled: bool)
    ensures IntendedZoneUpserts(zone, ipv4, ipv6, ipv6Enabled)
            == if Drifts(zone, ipv4, ipv6, ipv6Enabled) then [UpdateRecord(zone, Desired(zone, ipv4, ipv6))] else []
  {
  }

  /** The corrected rule sends a request exactly for each drifting zone, and
      that request writes the zone's desired address to the zone's own record. */
  lemma {:induction false} IntendedSendsExactlyForDrift(zones: seq<ZoneState>, ipv4: Value, ipv6: Value, ipv6Enabled: bool, req: UpsertRequest)
    ensures req in IntendedUpsertsOver(zones, ipv4, ipv6, ipv6Enabled) <==>
      exists k :: 0 <= k < |zones| && SentFor(req, zones[k], ipv4, ipv6, ipv6Enabled)
  {
    if zones != [] {
      var n := |zones| - 1;
      var front := zones[..n];
      IntendedSendsExactlyForDrift(front, ipv4, ipv6, ipv6Enabled, req);
      IntendedZoneStep(zones[n], ipv4, ipv6, ipv6Enabled);
      assert IntendedUpsertsOver(zones, ipv4, ipv6, ipv6Enabled)
             == IntendedUpsertsOver(front, ipv4, ipv6, ipv6Enabled) + IntendedZoneUpserts(zones[n], ipv4, ipv6, ipv6Enabled);
      assert req in IntendedUpsertsOver(zones, ipv4, ipv6, ipv6Enabled) <==>
        req in IntendedUpsertsOver(front, ipv4, ipv6, ipv6Enabled) || SentFor(req, zones[n], ipv4, ipv6, ipv6Enabled);
      if exists k :: 0 <= k < |zones| && SentFor(req, zones[k], ipv4, ipv6, ipv6Enabled) {
        var k :| 0 <= k < |zones| && SentFor(req, zones[k], ipv4, ipv6, ipv6Enabled);
        if k < n {
          assert front[k] == zones[k];
        }
      }
      if exists k :: 0 <= k < |front| && SentFor(req, front[k], ipv4, ipv6, ipv6Enabled) {
        var k :| 0 <= k < |front| && SentFor(req, front[k], ipv4, ipv6, ipv6Enabled);
        assert zones[k] == front[k];
      }
    }
  }

  /** Idempotence: with every zone in step with its desired address, the
      corrected `update` sends nothing. */
  lemma IntendedIdleWhenInSync(w: World)
    requires forall k :: 0 <= k < |w.zones| ==> !Drifts(w.zones[k], w.ipv4, w.ipv6, w.ipv6Enabled)
    ensures IntendedUpserts(w) == []
  {
    if IntendedUpserts(w) != [] {
      IntendedSendsExactlyForDrift(w.zones, w.ipv4, w.ipv6, w.ipv6Enabled, IntendedUpserts(w)[0]);
    }
  }

  /** With IPv6 switched off, the corrected `update` never writes an `AAAA` record. */
  lemma IntendedSkipsIPv6WhenDisabled(w: World, req: UpsertRequest)
    requires !w.ipv6Enabled
    requires req in IntendedUpserts(w)
    ensures req.rtype != "AAAA"
  {
    IntendedSendsExactlyForDrift(w.zones, w.ipv4, w.ipv6, w.ipv6Enabled, req);
  }

  /** Convergence: once the provider has carried out a zone's corrected
      request and `populate` reads the zone again, the zone no longer drifts.
      The program runs `populate` only at start-up and `update` never writes
      `awsIp`, so with lines 87, 88 and 92 alone corrected this re-read does
      not happen (see `CorrectedResendsEveryTick`). */
  lemma IntendedConverges(zone: ZoneState, ipv4: Value, ipv6: Value, ipv6Enabled: bool, hosted: Zones, req: UpsertRequest)
    requires Desired(zone, ipv4, ipv6).Str?
    requires req in IntendedZoneUpserts(zone, ipv4, ipv6, ipv6Enabled)
    ensures Storable(req)
    ensures !Drifts(PopulateZone(zone, ipv4, ipv6, Some(ListingOf(UpsertedIn(hosted, req), zone.id))), ipv4, ipv6, ipv6Enabled)
  {
    UpsertIsReadBack(zone, hosted, Desired(zone, ipv4, ipv6).s);
  }

  /** Scenario: one `A` record `db.example.com` in zone `Z1`, ttl 600, no
      record at the provider yet, IPv4 address 203.0.113.5. After getrecords and populate, the corrected rule sends
      the one expected upsert; `update` as written sends nothing. */
  lemma ARecordDriftMissed()
    ensures var config := ZoneState("Z1", "db.example.com", "A", 600, Null, Null);
            var w0 := Lifecycle.Initial(false, [config]);
            var w1 := Refreshed(w0, Some("203.0.113.5"), None).0;
            var w2 := Populated(w1, [Some([])]);
            && w2.zones[0].awsIp == Null
            && Upserts(w2) == []
            && IntendedUpserts(w2) == [UpsertRequest("Z1", "db.example.com", "A", 600, [Str("203.0.113.5")])]
  {
    var config := ZoneState("Z1", "db.example.com", "A", 600, Null, Null);
    var w0 := Lifecycle.Initial(false, [config]);
    var w1 := Refreshed(w0, Some("203.0.113.5"), None).0;
    var w2 := Populated(w1, [Some([])]);
    assert w2.zones[0] == ZoneState("Z1", "db.example.com", "A", 600, Str("203.0.113.5"), Null);
    assert w2.zones[..0] == [];
  }

  /** The scenario of `ARecordDriftMissed` with line 92 corrected: an
      `update` tick leaves the world as it was, so the zone still drifts and
      the next tick sends the same upsert again. Only a later `populate`
      would bring the zone into step. */
  lemma CorrectedResendsEveryTick()
    ensures var config := ZoneState("Z1", "db.example.com", "A", 600, Null, Null);
            var w0 := Lifecycle.Initial(false, [config]);
            var w1 := Refreshed(w0, Some("203.0.113.5"), None).0;
            var w2 := Populated(w1, [Some([])]);
            var w3 := Lifecycle.Step(w2, Lifecycle.UpdateTick).0;
            && Drifts(w3.zones[0], w3.ipv4, w3.ipv6, w3.ipv6Enabled)
            && IntendedUpserts(w3) == IntendedUpserts(w2)
            && IntendedUpserts(w3) == [UpsertRequest("Z1", "db.example.com", "A", 600, [Str("203.0.113.5")])]
  {
    var config := ZoneState("Z1", "db.example.com", "A", 600, Null, Null);
    var w0 := Lifecycle.Initial(false, [config]);
    var w1 := Refreshed(w0, Some("203.0.113.5"), None).0;
    var w2 := Populated(w1, [Some([])]);
    assert w2.zones[0] == ZoneState("Z1", "db.example.com", "A", 600, Str("203.0.113.5"), Null);
    assert w2.zones[..0] == [];
  }

  /** An `AAAA` record with IPv6 enabled and nothing published: the `AAA`
      test sends it to the IPv4 branch, whose comparison is always false, so
      nothing is sent; the corrected rule writes the IPv6 address. */
  lemma AaaaRecordDriftMissed()
    ensures var zone := ZoneState("Z1", "db.example.com", "AAAA", 600, Str("2001:db8::5"), Null);
            var w := World(Str("203.0.113.5"), Str("2001:db8::5"), true, [zone]);
            && Upserts(w) == []
            && IntendedUpserts(w) == [UpsertRequest("Z1", "db.example.com", "AAAA", 600, [Str("2001:db8::5")])]
  {
    var zone := ZoneState("Z1", "db.example.com", "AAAA", 600, Str("2001:db8::5"), Null);
    var w := World(Str("203.0.113.5"), Str("2001:db8::5"), true, [zone]);
    assert w.zones[..0] == [];
  }

  /** One zone's step of `populate` with the `catch` blocks corrected: a
      failed listing clears `localIp` and leaves `awsIp` as it was. */
  function IntendedPopulateZone(zone: ZoneState, ipv4: Value, ipv6: Value, response: Option<seq<ProviderRecord>>): (r: ZoneState)
    ensures SameConfig(r, zone)
    ensures response.None? ==> r.localIp == Null && r.awsIp == zone.awsIp
    ensures response.Some? ==> r == PopulateZone(zone, ipv4, ipv6, response)
  {
    match response
    case None => zone.(localIp := Null)
    case Some(_) => PopulateZone(zone, ipv4, ipv6, response)
  }

  /** As written, a failed listing leaves the zone with the desired address
      just copied in, where the `catch` block meant to clear it. */
  lemma FailedListingKeepsLocalIp(zone: ZoneState, ipv4: Value, ipv6: Value)
    requires Desired(zone, ipv4, ipv6) != Null
    ensures PopulateZone(zone, ipv4, ipv6, None).localIp == Desired(zone, ipv4, ipv6)
    ensures PopulateZone(zone, ipv4, ipv6, None).awsIp == zone.awsIp
    ensures PopulateZone(zone, ipv4, ipv6, None) != IntendedPopulateZone(zone, ipv4, ipv6, None)
  {
  }
}
