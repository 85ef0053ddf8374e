/**
 * The storage payload the bot exchanges with the graph store: a node
 * identity, a list of RDF types, a multi-valued property bag and the
 * per-operation flags.  The payload object itself belongs to the bot
 * framework; here it is the small class that the modelled code mutates.
 */
module Storage {
  import opened Wrappers

  // RDF terms used by the core, written as compact URIs: `geo:` stands for
  // http://www.w3.org/2003/01/geo/wgs84_pos#, `rdfs:` for
  // http://www.w3.org/2000/01/rdf-schema# and `schema:` for http://schema.org/.
  const SpatialThing := "geo:SpatialThing"
  const Lat := "geo:lat"
  const Long := "geo:long"
  const SeeAlso := "rdfs:seeAlso"
  const SchemaName := "schema:name"

  /** The property keys the core writes are pairwise distinct. */
  lemma DistinctKeys()
    ensures SeeAlso != SchemaName && SeeAlso != Lat && SeeAlso != Long
    ensures SchemaName != Lat && SchemaName != Long && Lat != Long
  {
    assert |SchemaName| != |SeeAlso| && |SchemaName| != |Lat| && |SchemaName| != |Long|;
    assert |Lat| != |Long| && |Lat| != |SeeAlso| && |Long| != |SeeAlso|;
  }

  /** The storage flags the core reads or writes. */
  datatype Flag = CreateIfMissing | Created

  /** The value of a storage payload at one instant. */
  datatype Record = Record(
    about: Option<string>,
    types: seq<string>,
    properties: map<string, seq<string>>,
    flags: map<Flag, bool>)

  const EmptyRecord := Record(None, [], map[], map[])

  /** All values stored under `key`, in insertion order. */
  function Values(p: Record, key: string): seq<string>
  {
    if key in p.properties then p.properties[key] else []
  }

  /** `fetch_from(flags)`: a flag that is absent reads as false. */
  predicate FlagSet(p: Record, f: Flag)
  {
    f in p.flags && p.flags[f]
  }

  function TypeSet(types: seq<string>): set<string>
  {
    set t | t in types
  }

  /** Intersecting the one-element requirement set with a type list keeps at most that element. */
  lemma SpatialIntersection(types: seq<string>)
    ensures SpatialThing in types ==> {SpatialThing} * TypeSet(types) == {SpatialThing}
    ensures SpatialThing !in types ==> {SpatialThing} * TypeSet(types) == {}
    ensures |{SpatialThing} * TypeSet(types)| == if SpatialThing in types then 1 else 0
  {
    if SpatialThing in types {
      assert {SpatialThing} * TypeSet(types) == {SpatialThing};
    } else {
      assert {SpatialThing} * TypeSet(types) == {};
    }
  }

  /** `add_type`: the type is appended to the type list. */
  function WithType(p: Record, t: string): (r: Record)
    ensures r.types == p.types + [t] && t in r.types
    ensures r.about == p.about && r.properties == p.properties && r.flags == p.flags
  {
    p.(types := p.types + [t])
  }

  /** `add_property`: the value is appended to the values under `key`. */
  function WithProperty(p: Record, key: string, value: string): (r: Record)
    ensures Values(r, key) == Values(p, key) + [value]
    ensures forall k :: k != key ==> Values(r, k) == Values(p, k)
    ensures r.properties.Keys == p.properties.Keys + {key}
    ensures r.about == p.about && r.types == p.types && r.flags == p.flags
  {
    p.(properties := p.properties[key := Values(p, key) + [value]])
  }

  /** `add_flag`: the flag now reads as `value`, the others are unchanged. */
  function WithFlag(p: Record, f: Flag, value: bool): (r: Record)
    ensures FlagSet(r, f) == value
    ensures forall g :: g != f ==> FlagSet(r, g) == FlagSet(p, g)
    ensures r.about == p.about && r.types == p.types && r.properties == p.properties
  {
    p.(flags := p.flags[f := value])
  }

  class StoragePayload {
    var about: Option<string>
    var types: seq<string>
    var properties: map<string, seq<string>>
    var flags: map<Flag, bool>

    function Snapshot(): Record
      reads this
    {
      Record(about, types, properties, flags)
    }

    /** `create_payload()`: a fresh, empty payload. */
    constructor ()
      ensures Snapshot() == EmptyRecord
    {
      about, types, properties, flags := None, [], map[], map[];
    }

    /** `StoragePayload(form)`: a payload holding what the request carried. */
    constructor FromRecord(r: Record)
      ensures Snapshot() == r
    {
      about, types, properties, flags := r.about, r.types, r.properties, r.flags;
    }

    method AddType(t: string)
      modifies this
      ensures Snapshot() == WithType(old(Snapshot()), t)
    {
      types := types + [t];
    }

    method AddProperty(key: string, value: string)
      modifies this
      ensures Snapshot() == WithProperty(old(Snapshot()), key, value)
    {
      var existing := if key in properties then properties[key] else [];
      properties := properties[key := existing + [value]];
    }

    method AddFlag(f: Flag, value: bool)
      modifies this
      ensures Snapshot() == WithFlag(old(Snapshot()), f, value)
    {
      flags := flags[f := value];
    }
  }
}
