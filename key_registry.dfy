/**
 The key-to-embedding dictionary that `register_key` fills in place.

 `register_key(key, embed, dictionary)` first checks that there is one
 embedding per key, then walks the pairs in order: a key already present is
 skipped (its old value stays, a mismatch is only reported on stdout), a new
 key is inserted with its embedding. The report is output and not modelled.
 */
module KeyRegistry {
  import opened Drugs

  /** An embedding vector, stored as a plain list of numbers. */
  type Embedding = seq<real>

  /** One step of the loop: insert k unless it is already present. */
  function Insert(m: map<DrugId, Embedding>, k: DrugId, e: Embedding): map<DrugId, Embedding>
  {
    if k in m then m else m[k := e]
  }

  /** The dictionary after registering the pairs of key and embed in order. */
  function RegisterAll(m: map<DrugId, Embedding>, key: seq<DrugId>, embed: seq<Embedding>): map<DrugId, Embedding>
    requires |key| == |embed|
    decreases |key|
  {
    if |key| == 0 then m
    else
      var n := |key| - 1;
      Insert(RegisterAll(m, key[..n], embed[..n]), key[n], embed[n])
  }

  /** After registering, the keys are the old keys plus every registered key. */
  lemma {:induction false} RegisterKeys(m: map<DrugId, Embedding>, key: seq<DrugId>, embed: seq<Embedding>)
    requires |key| == |embed|
    ensures forall k :: k in RegisterAll(m, key, embed) <==> k in m || k in key
    decreases |key|
  {
    if |key| > 0 {
      var n := |key| - 1;
      RegisterKeys(m, key[..n], embed[..n]);
      var prev := RegisterAll(m, key[..n], embed[..n]);
      assert RegisterAll(m, key, embed) == Insert(prev, key[n], embed[n]);
      forall k ensures k in key <==> k in key[..n] || k == key[n] {
        if k in key {
          var i :| 0 <= i < |key| && key[i] == k;
          if i < n { assert key[..n][i] == k; }
        }
      }
    }
  }

  /** An old key keeps its value. */
  lemma {:induction false} RegisterKeepsOld(m: map<DrugId, Embedding>, key: seq<DrugId>, embed: seq<Embedding>)
    requires |key| == |embed|
    ensures forall k :: k in m ==> k in RegisterAll(m, key, embed) && RegisterAll(m, key, embed)[k] == m[k]
    decreases |key|
  {
    if |key| > 0 {
      var n := |key| - 1;
      RegisterKeepsOld(m, key[..n], embed[..n]);
      var prev := RegisterAll(m, key[..n], embed[..n]);
      assert RegisterAll(m, key, embed) == Insert(prev, key[n], embed[n]);
    }
  }

  /** A new key maps to the embedding at its first occurrence. */
  lemma {:induction false} RegisterFirst(m: map<DrugId, Embedding>, key: seq<DrugId>, embed: seq<Embedding>)
    requires |key| == |embed|
    ensures forall i :: 0 <= i < |key| && key[i] !in m && FirstAt(key, i) ==>
              key[i] in RegisterAll(m, key, embed) && RegisterAll(m, key, embed)[key[i]] == embed[i]
    decreases |key|
  {
    if |key| > 0 {
      var n := |key| - 1;
      RegisterFirst(m, key[..n], embed[..n]);
      RegisterKeys(m, key[..n], embed[..n]);
      var prev := RegisterAll(m, key[..n], embed[..n]);
      var r := RegisterAll(m, key, embed);
      assert r == Insert(prev, key[n], embed[n]);
      forall i | 0 <= i < |key| && key[i] !in m && FirstAt(key, i) ensures key[i] in r && r[key[i]] == embed[i] {
        if i < n {
          assert key[..n][i] == key[i] && embed[..n][i] == embed[i];
          assert FirstAt(key[..n], i);
        } else {
          assert key[n] !in key[..n];
        }
      }
    }
  }

  /** Position i holds the first occurrence of its key. */
  ghost predicate FirstAt(key: seq<DrugId>, i: nat)
    requires i < |key|
  {
    forall j :: 0 <= j < i ==> key[j] != key[i]
  }

  /** A key registered twice in one call keeps the embedding of its first
      occurrence, whatever comes later. */
  lemma FirstWriteWins(m: map<DrugId, Embedding>, key: seq<DrugId>, embed: seq<Embedding>, i: nat, j: nat)
    requires |key| == |embed| && i < j < |key| && key[i] == key[j] && key[i] !in m
    ensures var r := RegisterAll(m, key, embed); key[j] in r && r[key[j]] == embed[FirstIndex(key, i)]
  {
    var f := FirstIndex(key, i);
    RegisterFirst(m, key, embed);
    assert key[f] == key[j];
  }

  /** The position of the first occurrence of key[i]. */
  ghost function FirstIndex(key: seq<DrugId>, i: nat): (f: nat)
    requires i < |key|
    ensures f <= i && key[f] == key[i] && FirstAt(key, f)
    decreases i
  {
    if exists j :: 0 <= j < i && key[j] == key[i] then
      var j :| 0 <= j < i && key[j] == key[i];
      FirstIndex(key, j)
    else i
  }

  /** Registering keys that are all present already changes nothing. */
  lemma {:induction false} RegisterPresent(m: map<DrugId, Embedding>, key: seq<DrugId>, embed: seq<Embedding>)
    requires |key| == |embed| && forall i :: 0 <= i < |key| ==> key[i] in m
    ensures RegisterAll(m, key, embed) == m
    decreases |key|
  {
    if |key| > 0 {
      var n := |key| - 1;
      RegisterPresent(m, key[..n], embed[..n]);
    }
  }

  /** Registering the same keys again changes nothing. */
  lemma RegisterIdempotent(m: map<DrugId, Embedding>, key: seq<DrugId>, embed: seq<Embedding>, again: seq<Embedding>)
    requires |key| == |embed| == |again|
    ensures var r := RegisterAll(m, key, embed); RegisterAll(r, key, again) == r
  {
    var r := RegisterAll(m, key, embed);
    RegisterKeys(m, key, embed);
    RegisterPresent(r, key, again);
  }

  /** Holder of the dictionary that is passed around and updated in place. */
  class KeyToVec {
    var entries: map<DrugId, Embedding>

    constructor (init: map<DrugId, Embedding>)
      ensures entries == init
    {
      entries := init;
    }

    /** `register_key`: `ok` is false when the assertion on the lengths fails,
        in which case nothing has been inserted. */
    method RegisterKey(key: seq<DrugId>, embed: seq<Embedding>) returns (ok: bool)
      modifies this
      ensures ok <==> |key| == |embed|
      ensures ok ==> entries == RegisterAll(old(entries), key, embed)
      ensures !ok ==> entries == old(entries)
    {
      if |key| != |embed| {
        return false;
      }
      var i := 0;
      while i < |key|
        invariant 0 <= i <= |key|
        invariant entries == RegisterAll(old(entries), key[..i], embed[..i])
      {
        assert key[..i + 1][..i] == key[..i] && embed[..i + 1][..i] == embed[..i];
        if key[i] in entries {
          i := i + 1;
          continue;
        }
        entries := entries[key[i] := embed[i]];
        i := i + 1;
      }
      assert key[..i] == key && embed[..i] == embed;
      return true;
    }
  }
}
