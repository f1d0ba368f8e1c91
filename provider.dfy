/** The shapes exchanged with the DNS provider (the Route 53 client): the
    entries of a hosted zone's record listing, the argument of an upsert, and
    what an upsert does to the provider's hosted zones. The provider itself is
    a remote service; its UPSERT is modelled by its documented effect: in the
    request's hosted zone, the record set with the request's name and type is
    created, or replaced if it exists. */
module Provider {
  import opened Js

  /** One entry of a hosted zone's record listing: `{name, type, ttl, values}`. */
  datatype ProviderRecord = ProviderRecord(name: string, rtype: string, ttl: int, values: seq<string>)

  /** The argument object of an upsert: `{zoneId, name, type, ttl, values}`.
      `values` holds JavaScript values, since the updater may pass `null`. */
  datatype UpsertRequest = UpsertRequest(zoneId: string, name: string, rtype: string, ttl: int, values: seq<Value>)

  /** The provider's hosted zones: each zone id with its record listing. */
  type Zones = map<string, seq<ProviderRecord>>

  /** The listing of hosted zone `zoneId`; a zone the provider does not hold lists nothing. */
  function ListingOf(zones: Zones, zoneId: string): seq<ProviderRecord> {
    if zoneId in zones then zones[zoneId] else []
  }

  /** Whether `rec` is the record set named `name` of type `rtype`. */
  predicate IsRecordSet(rec: ProviderRecord, name: string, rtype: string) {
    rec.name == name && rec.rtype == rtype
  }

  /** The listing with the record set `name`/`rtype` removed, order kept. */
  function Without(listing: seq<ProviderRecord>, name: string, rtype: string): (r: seq<ProviderRecord>)
    ensures |r| <= |listing|
    ensures forall x :: x in r <==> x in listing && !IsRecordSet(x, name, rtype)
  {
    if listing == [] then []
    else if IsRecordSet(listing[0], name, rtype) then Without(listing[1..], name, rtype)
    else [listing[0]] + Without(listing[1..], name, rtype)
  }

  /** Whether every value of the request is a string the provider can store. */
  predicate Storable(req: UpsertRequest) {
    forall k :: 0 <= k < |req.values| ==> req.values[k].Str?
  }

  /** The strings carried by a storable list of values. */
  function Strings(vs: seq<Value>): (r: seq<string>)
    requires forall k :: 0 <= k < |vs| ==> vs[k].Str?
    ensures |r| == |vs|
    ensures forall k :: 0 <= k < |vs| ==> vs[k] == Str(r[k])
  {
    if vs == [] then [] else [vs[0].s] + Strings(vs[1..])
  }

  /** The record set a storable request asks the provider to hold. */
  function RecordSetOf(req: UpsertRequest): ProviderRecord
    requires Storable(req)
  {
    ProviderRecord(req.name, req.rtype, req.ttl, Strings(req.values))
  }

  /** A listing after the provider has carried out `req` on it: any record
      set of that name and type is dropped and the requested one is added. */
  function Upserted(listing: seq<ProviderRecord>, req: UpsertRequest): (r: seq<ProviderRecord>)
    requires Storable(req)
    ensures RecordSetOf(req) in r
    ensures forall x :: x in r && IsRecordSet(x, req.name, req.rtype) ==> x == RecordSetOf(req)
  {
    Without(listing, req.name, req.rtype) + [RecordSetOf(req)]
  }

  /** The provider's hosted zones after `req`: only the listing of the
      request's own zone id changes. */
  function UpsertedIn(zones: Zones, req: UpsertRequest): (r: Zones)
    requires Storable(req)
    ensures ListingOf(r, req.zoneId) == Upserted(ListingOf(zones, req.zoneId), req)
    ensures forall id :: id != req.zoneId ==> ListingOf(r, id) == ListingOf(zones, id)
  {
    zones[req.zoneId := Upserted(ListingOf(zones, req.zoneId), req)]
  }
}
