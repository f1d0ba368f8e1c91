/** The reconciliation core of `src/server.js`: the zone table, the record
    lookup of `getIP`, the request built by `UpdateRecord`, and the three
    passes of the `Updater` (`getrecords`, `populate`, `update`).

    Every remote call is an input: the public-address lookups are
    `Option<string>` parameters, each zone's record listing is an
    `Option<seq<ProviderRecord>>` (None: the listing call failed), and the
    upserts a pass would send are returned as a sequence of requests.
    Each pass is one value-level function on `World` (the updater's fields
    plus a snapshot of every zone); the `Updater` methods are proved to act
    exactly as those functions say. */
module Server {
  import opened Js
  import opened Wrappers
  import opened Provider

  /** The state of one `HostedZone`: its fixed configuration, the address it
      should publish (`localIp`) and the address the provider holds (`awsIp`). */
  datatype ZoneState = ZoneState(id: string, domain: string, rtype: string, ttl: int, localIp: Value, awsIp: Value)

  /** Whether two zone states agree on id, domain, type and ttl. */
  predicate SameConfig(a: ZoneState, b: ZoneState) {
    a.id == b.id && a.domain == b.domain && a.rtype == b.rtype && a.ttl == b.ttl
  }

  /** Neither address field of the zone holds a JavaScript boolean. */
  predicate ZoneHoldsNoBoolean(zone: ZoneState) {
    !zone.localIp.Bool? && !zone.awsIp.Bool?
  }

  // ---------------------------------------------------------------- getIP

  /** The filter test of `getIP`: same name as the zone's domain and same type. */
  predicate Matches(rec: ProviderRecord, domain: string, rtype: string) {
    domain == rec.name && rtype == rec.rtype
  }

  /** `data.filter(...)`: the listed records that match, in listing order. */
  function Matching(data: seq<ProviderRecord>, domain: string, rtype: string): (ips: seq<ProviderRecord>)
    ensures |ips| <= |data|
  {
    if data == [] then []
    else if Matches(data[0], domain, rtype) then [data[0]] + Matching(data[1..], domain, rtype)
    else Matching(data[1..], domain, rtype)
  }

  /** The filter keeps exactly the listed records that match: each kept
      record matches and is listed, and each listed match is kept. */
  lemma {:induction false} MatchingKeepsExactlyMatches(data: seq<ProviderRecord>, domain: string, rtype: string)
    ensures |Matching(data, domain, rtype)| <= |data|
    ensures forall x :: x in Matching(data, domain, rtype) <==> x in data && Matches(x, domain, rtype)
  {
    if data != [] {
      MatchingKeepsExactlyMatches(data[1..], domain, rtype);
      assert data == [data[0]] + data[1..];
    }
  }

  /** `rec.values[0]`, which JavaScript reads as `undefined` on an empty list. */
  function FirstValue(rec: ProviderRecord): (v: Value)
    ensures v != Null && !v.Bool?
  {
    if |rec.values| == 0 then Undefined else Str(rec.values[0])
  }

  /** The value `getIP` resolves with, given the zone's record listing. */
  function Select(data: seq<ProviderRecord>, domain: string, rtype: string): (v: Value)
    ensures !v.Bool?
  {
    var ips := Matching(data, domain, rtype);
    if |ips| == 0 then Null else FirstValue(ips[0])
  }

  /** `getIP(zone)`: None when the listing call fails (the promise rejects),
      otherwise the selected value. */
  function GetIP(zone: ZoneState, response: Option<seq<ProviderRecord>>): (r: Option<Value>)
    ensures r.None? <==> response.None?
    ensures r.Some? ==> !r.value.Bool?
  {
    match response
    case None => None
    case Some(data) => Some(Select(data, zone.domain, zone.rtype))
  }

  // --------------------------------------------------------- UpdateRecord

  /** The argument object `UpdateRecord(zone, resultip)` passes to the upsert. */
  function UpdateRecord(zone: ZoneState, resultip: Value): (req: UpsertRequest)
    ensures Storable(req) <==> resultip.Str?
  {
    var req := UpsertRequest(zone.id, zone.domain, zone.rtype, zone.ttl, [resultip]);
    assert req.values[0] == resultip;
    req
  }

  // ------------------------------------------------------- the three passes

  /** The updater's fields together with the state of every zone. */
  datatype World = World(ipv4: Value, ipv6: Value, ipv6Enabled: bool, zones: seq<ZoneState>)

  /** No address the updater holds, in itself or in a zone, is a boolean. */
  predicate HoldsNoBoolean(w: World) {
    && !w.ipv4.Bool?
    && !w.ipv6.Bool?
    && forall k :: 0 <= k < |w.zones| ==> ZoneHoldsNoBoolean(w.zones[k])
  }

  /** `getrecords` given the IPv4 and IPv6 lookup outcomes: the new world and
      whether the pass completed. A failed IPv4 lookup aborts the pass before
      IPv6 is asked for; IPv6 is asked for only when enabled. */
  function Refreshed(w: World, v4: Option<string>, v6: Option<string>): (r: (World, bool))
    ensures r.0.zones == w.zones && r.0.ipv6Enabled == w.ipv6Enabled
    ensures r.1 <==> v4.Some? && (w.ipv6Enabled ==> v6.Some?)
    ensures v4.None? ==> r.0 == w
    ensures v4.Some? ==> r.0.ipv4 == Str(v4.value)
    ensures r.0.ipv6 == if w.ipv6Enabled && v4.Some? && v6.Some? then Str(v6.value) else w.ipv6
    ensures HoldsNoBoolean(w) ==> HoldsNoBoolean(r.0)
  {
    match v4
    case None => (w, false)
    case Some(a4) =>
      var w1 := w.(ipv4 := Str(a4));
      if !w.ipv6Enabled then (w1, true)
      else match v6
        case None => (w1, false)
        case Some(a6) => (w1.(ipv6 := Str(a6)), true)
  }

  /** The address a zone should publish: IPv6 for `AAAA`, IPv4 otherwise. */
  function Desired(zone: ZoneState, ipv4: Value, ipv6: Value): Value {
    if zone.rtype == "AAAA" then ipv6 else ipv4
  }

  /** One zone's step of `populate`: the desired address is copied in by type,
      then the listed address replaces `awsIp`. When the listing fails the
      handler throws on its undeclared `err` before it can clear `localIp`,
      so the zone keeps the address just assigned and its old `awsIp`. */
  function PopulateZone(zone: ZoneState, ipv4: Value, ipv6: Value, response: Option<seq<ProviderRecord>>): (r: ZoneState)
    ensures SameConfig(r, zone)
    ensures r.localIp == Desired(zone, ipv4, ipv6)
    ensures response.Some? ==> r.awsIp == Select(response.value, zone.domain, zone.rtype)
    ensures response.None? ==> r.awsIp == zone.awsIp
    ensures !ipv4.Bool? && !ipv6.Bool? && !zone.awsIp.Bool? ==> ZoneHoldsNoBoolean(r)
  {
    var withLocal := zone.(localIp := Desired(zone, ipv4, ipv6));
    match GetIP(withLocal, response)
    case Some(v) => withLocal.(awsIp := v)
    case None => withLocal
  }

  /** `populate`: every zone takes its step, with its own listing response. */
  function Populated(w: World, responses: seq<Option<seq<ProviderRecord>>>): (r: World)
    requires |responses| == |w.zones|
    ensures r.ipv4 == w.ipv4 && r.ipv6 == w.ipv6 && r.ipv6Enabled == w.ipv6Enabled
    ensures |r.zones| == |w.zones|
    ensures forall k :: 0 <= k < |w.zones| ==> SameConfig(r.zones[k], w.zones[k])
    ensures forall k :: 0 <= k < |w.zones| ==> r.zones[k] == PopulateZone(w.zones[k], w.ipv4, w.ipv6, responses[k])
    ensures HoldsNoBoolean(w) ==> HoldsNoBoolean(r)
  {
    w.(zones := seq(|w.zones|, k requires 0 <= k < |w.zones| => PopulateZone(w.zones[k], w.ipv4, w.ipv6, responses[k])))
  }

  /** One zone's step of `update`, as written: a zone typed exactly `AAA`
      compares `!awsIp` with the IPv6 address, every other zone compares
      `awsIp` with `!ipv4`; a comparison that holds yields one upsert. */
  function ZoneUpserts(zone: ZoneState, ipv4: Value, ipv6: Value, ipv6Enabled: bool): (r: seq<UpsertRequest>)
    ensures |r| <= 1
    ensures forall i :: 0 <= i < |r| ==>
      r[i].zoneId == zone.id && r[i].name == zone.domain && r[i].rtype == zone.rtype && r[i].ttl == zone.ttl
  {
    if zone.rtype == "AAA" then
      if ipv6Enabled && Not(zone.awsIp) == ipv6 then [UpdateRecord(zone, ipv6)] else []
    else
      if zone.awsIp == Not(ipv4) then [UpdateRecord(zone, ipv4)] else []
  }

  /** The upserts `update` sends for `zones`, in zone order. */
  function UpsertsOver(zones: seq<ZoneState>, ipv4: Value, ipv6: Value, ipv6Enabled: bool): (r: seq<UpsertRequest>)
    ensures |r| <= |zones|
    decreases |zones|
  {
    if zones == [] then []
    else UpsertsOver(zones[..|zones| - 1], ipv4, ipv6, ipv6Enabled)
         + ZoneUpserts(zones[|zones| - 1], ipv4, ipv6, ipv6Enabled)
  }

  /** `update`: the upserts one pass sends. It changes no state. */
  function Upserts(w: World): (r: seq<UpsertRequest>)
    ensures |r| <= |w.zones|
  {
    UpsertsOver(w.zones, w.ipv4, w.ipv6, w.ipv6Enabled)
  }

  // --------------------------------------------------------------- lemmas

  /** getIP resolves with `null` exactly when no listed record has both the
      zone's domain as name and the zone's type. */
  lemma SelectNullIff(data: seq<ProviderRecord>, domain: string, rtype: string)
    ensures Select(data, domain, rtype) == Null <==> forall k :: 0 <= k < |data| ==> !Matches(data[k], domain, rtype)
  {
    var ips := Matching(data, domain, rtype);
    MatchingKeepsExactlyMatches(data, domain, rtype);
    if |ips| > 0 {
      assert ips[0] in data;
    } else {
      forall k | 0 <= k < |data| ensures !Matches(data[k], domain, rtype) {
        assert data[k] in data;
      }
    }
  }

  /** When record `k` is the first that matches, getIP resolves with its first value. */
  lemma {:induction false} SelectFirstMatch(data: seq<ProviderRecord>, domain: string, rtype: string, k: nat)
    requires k < |data| && Matches(data[k], domain, rtype)
    requires forall j :: 0 <= j < k ==> !Matches(data[j], domain, rtype)
    ensures Select(data, domain, rtype) == FirstValue(data[k])
  {
    if k > 0 {
      SelectFirstMatch(data[1..], domain, rtype, k - 1);
    }
  }

  /** A record that does not match (another name, or the same name with
      another type, such as `A` beside `AAAA`) never changes what getIP
      selects, wherever it stands in the listing. */
  lemma {:induction false} SelectIgnoresOtherRecords(data: seq<ProviderRecord>, i: nat, x: ProviderRecord, domain: string, rtype: string)
    requires i <= |data|
    requires !Matches(x, domain, rtype)
    ensures Select(data[..i] + [x] + data[i..], domain, rtype) == Select(data, domain, rtype)
  {
    MatchingSkips(data, i, x, domain, rtype);
  }

  lemma {:induction false} MatchingSkips(data: seq<ProviderRecord>, i: nat, x: ProviderRecord, domain: string, rtype: string)
    requires i <= |data|
    requires !Matches(x, domain, rtype)
    ensures Matching(data[..i] + [x] + data[i..], domain, rtype) == Matching(data, domain, rtype)
  {
    var longer := data[..i] + [x] + data[i..];
    if i == 0 {
      assert longer[1..] == data;
    } else {
      MatchingSkips(data[1..], i - 1, x, domain, rtype);
      assert longer[0] == data[0];
      assert longer[1..] == data[1..][..i - 1] + [x] + data[1..][i - 1..];
    }
  }

  /** Matching after removing one record set: unchanged for any other pair of
      name and type. */
  lemma {:induction false} MatchingWithout(listing: seq<ProviderRecord>, name: string, rtype: string, domain: string, zoneType: string)
    requires !(name == domain && rtype == zoneType)
    ensures Matching(Without(listing, name, rtype), domain, zoneType) == Matching(listing, domain, zoneType)
  {
    if listing != [] {
      MatchingWithout(listing[1..], name, rtype, domain, zoneType);
      if IsRecordSet(listing[0], name, rtype) {
        assert !Matches(listing[0], domain, zoneType);
      } else {
        var rest := Without(listing[1..], name, rtype);
        assert ([listing[0]] + rest)[1..] == rest;
      }
    }
  }

  /** Matching after removing the zone's own record set finds nothing. */
  lemma {:induction false} MatchingWithoutOwn(listing: seq<ProviderRecord>, domain: string, rtype: string)
    ensures Matching(Without(listing, domain, rtype), domain, rtype) == []
  {
    if listing != [] {
      MatchingWithoutOwn(listing[1..], domain, rtype);
      if !IsRecordSet(listing[0], domain, rtype) {
        var rest := Without(listing[1..], domain, rtype);
        assert ([listing[0]] + rest)[1..] == rest;
      }
    }
  }

  lemma {:induction false} MatchingAppend(a: seq<ProviderRecord>, b: seq<ProviderRecord>, domain: string, rtype: string)
    ensures Matching(a + b, domain, rtype) == Matching(a, domain, rtype) + Matching(b, domain, rtype)
  {
    var ab := a + b;
    if a == [] {
      assert ab == b;
    } else {
      assert ab != [] && ab[0] == a[0];
      assert ab[1..] == a[1..] + b;
      MatchingAppend(a[1..], b, domain, rtype);
      var head := if Matches(a[0], domain, rtype) then [a[0]] else [];
      calc {
        Matching(ab, domain, rtype);
        head + Matching(a[1..] + b, domain, rtype);
        head + (Matching(a[1..], domain, rtype) + Matching(b, domain, rtype));
        (head + Matching(a[1..], domain, rtype)) + Matching(b, domain, rtype);
      }
    }
  }

  /** The request `UpdateRecord` builds copies the zone's id, domain, type
      and ttl: once the provider has carried it out, the zone's own hosted
      zone holds the record set with the zone's name, type and ttl and the
      address sent, getIP for that zone resolves with that address, and no
      other hosted zone has changed. */
  lemma UpsertIsReadBack(zone: ZoneState, hosted: Zones, ip: string)
    ensures Storable(UpdateRecord(zone, Str(ip)))
    ensures var after := UpsertedIn(hosted, UpdateRecord(zone, Str(ip)));
            && ProviderRecord(zone.domain, zone.rtype, zone.ttl, [ip]) in ListingOf(after, zone.id)
            && GetIP(zone, Some(ListingOf(after, zone.id))) == Some(Str(ip))
            && forall id :: id != zone.id ==> ListingOf(after, id) == ListingOf(hosted, id)
  {
    var req := UpdateRecord(zone, Str(ip));
    var listing := ListingOf(hosted, zone.id);
    var rec := RecordSetOf(req);
    assert rec == ProviderRecord(zone.domain, zone.rtype, zone.ttl, [ip]);
    MatchingWithoutOwn(listing, zone.domain, zone.rtype);
    MatchingAppend(Without(listing, zone.domain, zone.rtype), [rec], zone.domain, zone.rtype);
    assert Matching([rec], zone.domain, zone.rtype) == [rec];
  }

  /** The request for one zone leaves what getIP reads unchanged for every
      zone in another hosted zone or with another domain or type. */
  lemma UpsertLeavesOtherZones(zone: ZoneState, other: ZoneState, hosted: Zones, ip: string)
    requires !(zone.id == other.id && zone.domain == other.domain && zone.rtype == other.rtype)
    ensures Storable(UpdateRecord(zone, Str(ip)))
    ensures GetIP(other, Some(ListingOf(UpsertedIn(hosted, UpdateRecord(zone, Str(ip))), other.id)))
            == GetIP(other, Some(ListingOf(hosted, other.id)))
  {
    if zone.id == other.id {
      var req := UpdateRecord(zone, Str(ip));
      var listing := ListingOf(hosted, zone.id);
      var rec := RecordSetOf(req);
      MatchingWithout(listing, zone.domain, zone.rtype, other.domain, other.rtype);
      MatchingAppend(Without(listing, zone.domain, zone.rtype), [rec], other.domain, other.rtype);
      assert Matching([rec], other.domain, other.rtype) == [];
    }
  }

  /** As written, `update` sends nothing while no address held is a boolean:
      `!awsIp === ipv6` compares a boolean with a string or null, and
      `awsIp === !ipv4` compares a string, null or undefined with a boolean. */
  lemma {:induction false} UpsertsOverEmpty(zones: seq<ZoneState>, ipv4: Value, ipv6: Value, ipv6Enabled: bool)
    requires !ipv4.Bool? && !ipv6.Bool?
    requires forall k :: 0 <= k < |zones| ==> ZoneHoldsNoBoolean(zones[k])
    ensures UpsertsOver(zones, ipv4, ipv6, ipv6Enabled) == []
  {
    if zones != [] {
      UpsertsOverEmpty(zones[..|zones| - 1], ipv4, ipv6, ipv6Enabled);
      assert ZoneHoldsNoBoolean(zones[|zones| - 1]);
    }
  }

  /** `update` never sends an upsert from a world holding no boolean address. */
  lemma UpdateSendsNothing(w: World)
    requires HoldsNoBoolean(w)
    ensures Upserts(w) == []
  {
    UpsertsOverEmpty(w.zones, w.ipv4, w.ipv6, w.ipv6Enabled);
  }

  /** Running `populate` twice with the same listing responses leaves the
      zones as one run does. */
  lemma PopulateIdempotent(w: World, responses: seq<Option<seq<ProviderRecord>>>)
    requires |responses| == |w.zones|
    ensures Populated(Populated(w, responses), responses) == Populated(w, responses)
  {
    var once := Populated(w, responses);
    var twice := Populated(once, responses);
    forall k | 0 <= k < |w.zones| ensures twice.zones[k] == once.zones[k] {
      assert GetIP(once.zones[k], responses[k]) == GetIP(w.zones[k], responses[k]);
    }
  }

  /** After `populate`, a zone whose listing arrived holds `null` in `awsIp`
      exactly when no listed record matches it on name and type, and
      otherwise the first value of the first match in listing order. A zone
      whose listing failed keeps its previous `awsIp`. */
  lemma PopulatedReadsListing(w: World, responses: seq<Option<seq<ProviderRecord>>>, k: nat)
    requires |responses| == |w.zones| && k < |w.zones|
    ensures var zone := w.zones[k];
            var after := Populated(w, responses).zones[k];
            && (responses[k].None? ==> after.awsIp == zone.awsIp)
            && (responses[k].Some? ==>
                  (after.awsIp == Null <==>
                     forall j :: 0 <= j < |responses[k].value| ==> !Matches(responses[k].value[j], zone.domain, zone.rtype)))
            && (forall j :: responses[k].Some? && 0 <= j < |responses[k].value| && Matches(responses[k].value[j], zone.domain, zone.rtype)
                  && (forall i :: 0 <= i < j ==> !Matches(responses[k].value[i], zone.domain, zone.rtype))
                  ==> after.awsIp == FirstValue(responses[k].value[j]))
  {
    var zone := w.zones[k];
    if responses[k].Some? {
      var data := responses[k].value;
      SelectNullIff(data, zone.domain, zone.rtype);
      forall j | 0 <= j < |data| && Matches(data[j], zone.domain, zone.rtype)
          && (forall i :: 0 <= i < j ==> !Matches(data[i], zone.domain, zone.rtype))
        ensures Select(data, zone.domain, zone.rtype) == FirstValue(data[j])
      {
        SelectFirstMatch(data, zone.domain, zone.rtype, j);
      }
    }
  }

  // -------------------------------------------------------------- objects

  /** A `HostedZone` record. Only `localIp` and `awsIp` are ever reassigned. */
  class HostedZone {
    const id: string
    const domain: string
    const rtype: string
    const ttl: int
    var localIp: Value
    var awsIp: Value

    function State(): ZoneState
      reads this
    {
      ZoneState(id, domain, rtype, ttl, localIp, awsIp)
    }

    constructor (id: string, domain: string, rtype: string, ttl: int)
      ensures State() == ZoneState(id, domain, rtype, ttl, Null, Null)
    {
      this.id := id;
      this.domain := domain;
      this.rtype := rtype;
      this.ttl := ttl;
      localIp := Null;
      awsIp := Null;
    }
  }

  /** The module-level `zones` array. */
  class ZoneTable {
    var zones: seq<HostedZone>

    /** Each entry is its own object, and no address field holds a boolean. */
    ghost predicate Valid()
      reads this, zones
    {
      && (forall i, j :: 0 <= i < j < |zones| ==> zones[i] != zones[j])
      && (forall k :: 0 <= k < |zones| ==> ZoneHoldsNoBoolean(zones[k].State()))
    }

    /** The state of every entry, in table order. */
    function States(): (s: seq<ZoneState>)
      reads this, zones
      ensures |s| == |zones|
      ensures forall k :: 0 <= k < |zones| ==> s[k] == zones[k].State()
    {
      var zs := zones;
      seq(|zs|, k requires 0 <= k < |zs| reads zs => zs[k].State())
    }

    constructor ()
      ensures Valid() && zones == []
    {
      zones := [];
    }

    /** `zones.push(new HostedZone(id, domain, type, ttl))`. */
    method Add(id: string, domain: string, rtype: string, ttl: int) returns (zone: HostedZone)
      requires Valid()
      modifies this
      ensures Valid() && fresh(zone)
      ensures zones == old(zones) + [zone]
      ensures States() == old(States()) + [ZoneState(id, domain, rtype, ttl, Null, Null)]
    {
      zone := new HostedZone(id, domain, rtype, ttl);
      zones := zones + [zone];
    }
  }

  /** The zone list the program configures at start-up. */
  method ConfiguredTable() returns (table: ZoneTable)
    ensures fresh(table) && table.Valid()
    ensures table.States() == [
      ZoneState("Z9MU7KVGUBNBY", "home.arturonet.com", "A", 600, Null, Null),
      ZoneState("Z9MU7KVGUBNBY", "mandalore.arturonet.com", "A", 600, Null, Null),
      ZoneState("Z9MU7KVGUBNBY", "mandalore.arturonet.com", "AAAA", 600, Null, Null)]
  {
    table := new ZoneTable();
    var home := table.Add("Z9MU7KVGUBNBY", "home.arturonet.com", "A", 600);
    var v4 := table.Add("Z9MU7KVGUBNBY", "mandalore.arturonet.com", "A", 600);
    var v6 := table.Add("Z9MU7KVGUBNBY", "mandalore.arturonet.com", "AAAA", 600);
  }

  /** The `Updater` object. It reads the zone table and the IPv6 switch,
      which in the source are module-level values. */
  class Updater {
    const table: ZoneTable
    const ipv6Enabled: bool
    var ipv4: Value
    var ipv6: Value

    ghost predicate Valid()
      reads this, table, table.zones
    {
      table.Valid() && !ipv4.Bool? && !ipv6.Bool?
    }

    /** The updater's fields and the state of every zone. */
    function Snapshot(): World
      reads this, table, table.zones
    {
      World(ipv4, ipv6, ipv6Enabled, table.States())
    }

    constructor (table: ZoneTable, ipv6Enabled: bool)
      requires table.Valid()
      ensures Valid()
      ensures this.table == table && this.ipv6Enabled == ipv6Enabled
      ensures ipv4 == Null && ipv6 == Null
    {
      this.table := table;
      this.ipv6Enabled := ipv6Enabled;
      ipv4 := Null;
      ipv6 := Null;
    }

    /** `getrecords`, given the outcomes of the IPv4 and IPv6 lookups;
        `ok` is false when the pass is cut short by a failed lookup. */
    method GetRecords(v4: Option<string>, v6: Option<string>) returns (ok: bool)
      requires Valid()
      modifies this
      ensures Valid()
      ensures (Snapshot(), ok) == Refreshed(old(Snapshot()), v4, v6)
    {
      if v4.None? {
        return false;
      }
      ipv4 := Str(v4.value);
      if ipv6Enabled {
        if v6.None? {
          return false;
        }
        ipv6 := Str(v6.value);
      }
      ok := true;
    }

    /** `populate`, given each zone's listing response in table order. */
    method Populate(responses: seq<Option<seq<ProviderRecord>>>)
      requires Valid()
      requires |responses| == |table.zones|
      modifies table.zones
      ensures Valid()
      ensures Snapshot() == Populated(old(Snapshot()), responses)
    {
      var zones := table.zones;
      for i := 0 to |zones|
        invariant forall k :: 0 <= k < i ==>
          zones[k].State() == PopulateZone(old(zones[k].State()), ipv4, ipv6, responses[k])
        invariant forall k :: i <= k < |zones| ==> zones[k].State() == old(zones[k].State())
      {
        var zone := zones[i];
        if zone.rtype == "AAAA" {
          zone.localIp := ipv6;
        } else {
          zone.localIp := ipv4;
        }
        var lookup := GetIP(zone.State(), responses[i]);
        if lookup.Some? {
          zone.awsIp := lookup.value;
        }
      }
      assert table.States() == Populated(old(Snapshot()), responses).zones;
    }

    /** `update`: the upserts this pass sends, in table order. */
    method Update() returns (requests: seq<UpsertRequest>)
      ensures requests == Upserts(Snapshot())
      ensures Valid() ==> requests == []
    {
      requests := [];
      var zones := table.zones;
      ghost var states := table.States();
      for i := 0 to |zones|
        invariant requests == UpsertsOver(states[..i], ipv4, ipv6, ipv6Enabled)
      {
        var zone := zones[i];
        if zone.rtype == "AAA" {
          if ipv6Enabled && Not(zone.awsIp) == ipv6 {
            requests := requests + [UpdateRecord(zone.State(), ipv6)];
          }
        } else {
          if zone.awsIp == Not(ipv4) {
            requests := requests + [UpdateRecord(zone.State(), ipv4)];
          }
        }
        assert states[..i + 1][..i] == states[..i];
      }
      assert states[..|zones|] == states;
      if Valid() {
        UpdateSendsNothing(Snapshot());
      }
    }
  }
}
