/**
 * The base event signalled across a GeoServer cluster: it carries an identifier of the node
 * it came from (`source`, settable) and a UUID fixed when it is created. Equality and the
 * hash code look at the source only.
 */
module Cluster {
  import opened Outcomes

  /** A `java.util.UUID`, as its two 64-bit halves. */
  datatype Uuid = Uuid(mostSignificantBits: int, leastSignificantBits: int)

  const IntModulus := 0x1_0000_0000

  /** Java `int` arithmetic: the value wrapped into [-2^31, 2^31). */
  function Int32(x: int): (r: int)
    ensures -0x8000_0000 <= r < 0x8000_0000
    ensures (x - r) % IntModulus == 0
  {
    (x + 0x8000_0000) % IntModulus - 0x8000_0000
  }

  class Event {
    /** The originating node's identifier; `None` is `null`. */
    var source: Option<string>
    const uuid: Uuid

    /** `new Event()`; the random UUID is supplied by the caller. */
    constructor (uuid: Uuid)
      ensures source == None && GetSource() == None
      ensures GetUUID() == uuid
    {
      this.uuid := uuid;
      source := None;
    }

    /** The UUID is a constant field: nothing after the constructor changes it. */
    function GetUUID(): Uuid {
      uuid
    }

    method SetSource(source: Option<string>)
      modifies this
      ensures GetSource() == source
    {
      this.source := source;
    }

    function GetSource(): Option<string>
      reads this
    {
      source
    }

    /** `"Event[" + source + "]"`, with `null` printed for an unset source. */
    function ToString(): (s: string)
      reads this
      ensures |s| >= 7 && s[..6] == "Event[" && s[|s| - 1] == ']'
      ensures source.None? ==> s == "Event[null]"
      ensures source.Some? ==> s[6..|s| - 1] == source.value
    {
      "Event[" + (if source.None? then "null" else source.value) + "]"
    }

    /**
     * `Objects.hashCode(Event.class, source)`, that is `Arrays.hashCode` of the two: the
     * identity hash of the class object and `String.hashCode` are supplied by the caller.
     */
    function HashCode(classHash: int, stringHash: string -> int): (h: int)
      reads this
      ensures -0x8000_0000 <= h < 0x8000_0000
      ensures (h - (961 + 31 * classHash + (if source.None? then 0 else stringHash(source.value)))) % IntModulus == 0
    {
      var sourceHash := if source.None? then 0 else stringHash(source.value);
      Int32(31 * Int32(31 * 1 + classHash) + sourceHash)
    }

    /** `equals`: the other object is an Event with an equal source (null equals null). */
    predicate Equals(o: object?)
      reads this, o
    {
      o is Event && source == (o as Event).source
    }
  }

  /** Two Events are equal exactly when their sources are, whatever their UUIDs. */
  lemma EqualsIffSameSource(a: Event, b: Event)
    ensures a.Equals(b) <==> a.GetSource() == b.GetSource()
    ensures a.GetUUID() != b.GetUUID() && a.GetSource() == b.GetSource() ==> a.Equals(b)
  {
  }

  /** No Event equals `null`. */
  lemma NeverEqualsNull(a: Event)
    ensures !a.Equals(null)
  {
  }

  /** `equals` is reflexive, symmetric and transitive. */
  lemma EqualsIsEquivalence(a: Event, b: Event, c: Event)
    ensures a.Equals(a)
    ensures a.Equals(b) ==> b.Equals(a)
    ensures a.Equals(b) && b.Equals(c) ==> a.Equals(c)
  {
  }

  /** Equal Events have equal hash codes, for any class hash and string hash. */
  lemma HashCodeConsistentWithEquals(a: Event, b: Event, classHash: int, stringHash: string -> int)
    requires a.Equals(b)
    ensures a.HashCode(classHash, stringHash) == b.HashCode(classHash, stringHash)
  {
  }
}
