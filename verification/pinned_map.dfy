/**
 The meeting's pinned participants: a JavaScript `Map` from participant id to
 pin state, of which the layout uses only the keys, in insertion order.
 */
module PinnedMap {
  import opened Meeting

  class PinnedParticipants {
    /** The map's keys in insertion order (the pin order). */
    var keys: seq<Id>

    /** A map never holds a key twice. */
    ghost predicate Valid()
      reads this
    {
      Distinct(keys)
    }

    /** `new Map(source)`: a fresh map with the same keys in the same order. */
    constructor Copy(source: PinnedParticipants)
      requires source.Valid()
      ensures Valid()
      ensures keys == source.keys
    {
      keys := source.keys;
    }

    /** `delete(id)`: drops the key if present and reports whether it was. */
    method Delete(id: Id) returns (deleted: bool)
      requires Valid()
      modifies this
      ensures Valid()
      ensures deleted <==> id in old(keys)
      ensures keys == Remove(old(keys), id)
      ensures deleted ==> |keys| == |old(keys)| - 1
    {
      deleted := id in keys;
      keys := Remove(keys, id);
    }
  }
}
