/**
  The integer keys of the application's data loaders
  (template/src/loader/loader.go). A key wraps a user id; the loader caches
  results under the key's String form and hands Raw back to the batch function.
*/
module Loader {
  import opened Wrappers
  import Strconv

  /** intKey: a dataloader key holding an int. */
  datatype IntKey = IntKey(id: int)
  {
    /** The id the key was made from. */
    function Raw(): (r: int)
      ensures IntKeyOf(r) == this
    {
      id
    }

    /** The cache key of the id: its decimal form, so distinct ids never share a cache entry. */
    function String(): (s: string)
      ensures s != []
      ensures Strconv.Atoi(s) == Some(id)
    {
      Strconv.AtoiItoa(id);
      Strconv.Itoa(id)
    }

    /**
      String as written: Go's string(k) on an integer makes the one-character
      string of the code point k, and U+FFFD for a surrogate or any value
      outside 0..0x10FFFF.
    */
    function StringAsWritten(): (s: string)
      ensures |s| == 1
    {
      if 0 <= id < 0xD800 || 0xE000 <= id <= 0x10FFFF then [id as char] else [0xFFFD as char]
    }
  }

  /** IntToKey */
  function IntKeyOf(id: int): (k: IntKey)
    ensures k.id == id
  {
    IntKey(id)
  }

  /** The keys for a list of ids, in order. */
  function KeysOf(ids: seq<int>): (keys: seq<IntKey>)
    ensures |keys| == |ids|
    ensures forall i :: 0 <= i < |ids| ==> keys[i].Raw() == ids[i]
  {
    seq(|ids|, i requires 0 <= i < |ids| => IntKeyOf(ids[i]))
  }

  /** The ids of a list of keys, in order. */
  function IdsOf(keys: seq<IntKey>): (ids: seq<int>)
    ensures |ids| == |keys|
    ensures forall i :: 0 <= i < |keys| ==> ids[i] == keys[i].Raw()
  {
    seq(|keys|, i requires 0 <= i < |keys| => keys[i].Raw())
  }

  /** IntsToKeys: a new slice with one key per id, filled by index. */
  method IntsToKeys(ids: seq<int>) returns (keys: array<IntKey>)
    ensures keys.Length == |ids| && keys[..] == KeysOf(ids)
  {
    keys := new IntKey[|ids|];
    for i := 0 to |ids|
      invariant forall j :: 0 <= j < i ==> keys[j] == IntKeyOf(ids[j])
    {
      keys[i] := IntKeyOf(ids[i]);
    }
  }

  /** KeysToInts: a new slice with the id of every key, filled by index. */
  method KeysToInts(keys: seq<IntKey>) returns (ints: array<int>)
    ensures ints.Length == |keys| && ints[..] == IdsOf(keys)
  {
    ints := new int[|keys|];
    for i := 0 to |keys|
      invariant forall j :: 0 <= j < i ==> ints[j] == keys[j].Raw()
    {
      ints[i] := keys[i].Raw();
    }
  }

  /** Converting ids to keys and back gives the ids. */
  lemma IdsOfKeysOf(ids: seq<int>)
    ensures IdsOf(KeysOf(ids)) == ids
  {
  }

  /** Converting keys to ids and back gives the keys. */
  lemma KeysOfIdsOf(keys: seq<IntKey>)
    ensures KeysOf(IdsOf(keys)) == keys
  {
  }

  /** Distinct keys have distinct cache keys. */
  lemma StringInjective(a: IntKey, b: IntKey)
    ensures a.String() == b.String() ==> a == b
  {
    Strconv.ItoaInjective(a.id, b.id);
  }

  /** As written, the ids 0xD800 and 0xD801 (and -1) share one cache key. */
  lemma StringAsWrittenCollides()
    ensures IntKey(0xD800).StringAsWritten() == IntKey(0xD801).StringAsWritten() == IntKey(-1).StringAsWritten()
  {
  }

  /** As written, String is injective only on ids that are Unicode scalar values. */
  lemma StringAsWrittenInjectiveOnScalars(a: IntKey, b: IntKey)
    requires 0 <= a.id < 0xD800 || 0xE000 <= a.id <= 0x10FFFF
    requires 0 <= b.id < 0xD800 || 0xE000 <= b.id <= 0x10FFFF
    ensures a.StringAsWritten() == b.StringAsWritten() ==> a == b
  {
  }
}
