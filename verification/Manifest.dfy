/** The unit manifest of a chunked report: sorted unique unit keys cut into consecutive chunks. */
module Manifest {
  import opened Options
  import opened Units
  import opened Ranking
  import Text

  const MINIMUM_CHUNK_SIZE := 50
  const MAXIMUM_KEY_LENGTH := 512

  predicate KeyBefore(a: string, b: string) {
    Text.Less(a, b)
  }

  lemma KeysAreTotal(s: set<string>)
    ensures TotalOn(s, KeyBefore)
  {
    Text.LessIsStrictTotal();
  }

  /** Refuses an overlong key; otherwise lists every key once, in order. */
  method ChunkKeys(rows: seq<string>) returns (r: Option<seq<string>>)
    ensures r.None? <==> exists k :: k in rows && 512 < |k|
    ensures r.Some? ==> Ordered(r.value, KeyBefore) && Elements(r.value) == Elements(rows)
  {
    var keys: seq<string> := [];
    var seen: set<string> := {};
    for i := 0 to |rows|
      invariant Distinct(keys) && seen == Elements(keys) == Elements(rows[..i])
      invariant forall k | k in rows[..i] :: |k| <= MAXIMUM_KEY_LENGTH
    {
      var key := rows[i];
      assert rows[..i + 1] == rows[..i] + [key];
      assert Elements(rows[..i + 1]) == Elements(rows[..i]) + {key};
      if key !in seen {
        if |key| > MAXIMUM_KEY_LENGTH {
          return None;
        }
        seen := seen + {key};
        assert Elements(keys + [key]) == Elements(keys) + {key};
        assert forall j | 0 <= j < |keys| :: keys[j] in Elements(keys);
        keys := keys + [key];
      } else {
        assert key in Elements(rows[..i]);
      }
    }
    assert rows[..|rows|] == rows;
    KeysAreTotal(Elements(keys));
    SortCorrect(keys, KeyBefore);
    r := Some(Sort(keys, KeyBefore));
  }

  datatype ChunkManifest = ChunkManifest(number: nat, cursorFrom: string, cursorTo: string, unitKeys: seq<string>)

  /** Consecutive pieces of the given size; only the last may be shorter. */
  function Split(keys: seq<string>, size: nat): seq<seq<string>>
    requires size > 0
  {
    if keys == [] then []
    else [keys[..Min(size, |keys|)]] + Split(keys[Min(size, |keys|)..], size)
  }

  function ChunkSize(requested: nat): (size: nat)
    ensures size > 0
  {
    if requested < MINIMUM_CHUNK_SIZE then MINIMUM_CHUNK_SIZE else requested
  }

  function UnitKeys(manifests: seq<ChunkManifest>): seq<seq<string>> {
    seq(|manifests|, i requires 0 <= i < |manifests| => manifests[i].unitKeys)
  }

  ghost predicate Numbered(manifests: seq<ChunkManifest>) {
    forall i | 0 <= i < |manifests| ::
      var m := manifests[i];
      m.number == i + 1 && m.unitKeys != [] && m.cursorFrom == m.unitKeys[0]
        && m.cursorTo == m.unitKeys[|m.unitKeys| - 1]
  }

  lemma SplitFrom(keys: seq<string>, start: nat, end: nat, size: nat)
    requires size > 0 && start < |keys| && end == Min(start + size, |keys|)
    ensures Split(keys[start..], size) == [keys[start..end]] + Split(keys[end..], size)
  {
    var rest := keys[start..];
    assert rest[..Min(size, |rest|)] == keys[start..end];
    assert rest[Min(size, |rest|)..] == keys[end..];
  }

  lemma AppendManifest(manifests: seq<ChunkManifest>, unit: seq<string>)
    requires Numbered(manifests) && unit != []
    ensures var next := ChunkManifest(|manifests| + 1, unit[0], unit[|unit| - 1], unit);
            Numbered(manifests + [next]) && UnitKeys(manifests + [next]) == UnitKeys(manifests) + [unit]
  {
    var next := ChunkManifest(|manifests| + 1, unit[0], unit[|unit| - 1], unit);
    var longer := manifests + [next];
    forall i | 0 <= i < |longer|
      ensures UnitKeys(longer)[i] == (UnitKeys(manifests) + [unit])[i]
    {
    }
  }

  lemma Reassociate(a: seq<seq<string>>, x: seq<string>, b: seq<seq<string>>)
    ensures a + ([x] + b) == (a + [x]) + b
  {
  }

  method BuildManifests(keys: seq<string>, requestedSize: nat) returns (manifests: seq<ChunkManifest>)
    ensures UnitKeys(manifests) == Split(keys, if requestedSize < 50 then 50 else requestedSize)
    ensures Numbered(manifests)
  {
    var chunkSize: nat := ChunkSize(requestedSize);
    manifests := [];
    var start := 0;
    ghost var left := Split(keys, chunkSize);
    assert keys[0..] == keys;
    while start < |keys|
      invariant 0 <= start <= |keys|
      invariant left == Split(keys[start..], chunkSize)
      invariant UnitKeys(manifests) + left == Split(keys, chunkSize)
      invariant Numbered(manifests)
      decreases |keys| - start
    {
      var end := start + chunkSize;
      if end > |keys| {
        end := |keys|;
      }
      SplitFrom(keys, start, end, chunkSize);
      var unit := keys[start..end];
      AppendManifest(manifests, unit);
      ghost var before := UnitKeys(manifests);
      manifests := manifests + [ChunkManifest(|manifests| + 1, unit[0], unit[|unit| - 1], unit)];
      left := Split(keys[end..], chunkSize);
      Reassociate(before, unit, left);
      start := end;
    }
  }

  function Concat(chunks: seq<seq<string>>): seq<string> {
    if chunks == [] then [] else chunks[0] + Concat(chunks[1..])
  }

  /** The chunks are the key list cut up: nothing lost, moved, repeated, empty or too long. */
  lemma {:induction false} SplitIsPartition(keys: seq<string>, size: nat)
    requires size > 0
    ensures Concat(Split(keys, size)) == keys
    ensures forall c | c in Split(keys, size) :: 0 < |c| <= size
    decreases |keys|
  {
    if keys != [] {
      var n := Min(size, |keys|);
      SplitIsPartition(keys[n..], size);
      assert Split(keys, size)[1..] == Split(keys[n..], size);
      assert keys == keys[..n] + keys[n..];
    }
  }

  /** The number of chunks is the rounded-up quotient of keys by size. */
  lemma {:induction false} SplitCount(keys: seq<string>, size: nat)
    requires size > 0
    ensures |keys| <= |Split(keys, size)| * size
    ensures keys != [] ==> (|Split(keys, size)| - 1) * size < |keys|
    decreases |keys|
  {
    if keys != [] {
      var n := Min(size, |keys|);
      SplitCount(keys[n..], size);
      var rest := |Split(keys[n..], size)|;
      assert |Split(keys, size)| == rest + 1;
      assert (rest + 1) * size == rest * size + size;
      assert (rest - 1) * size == rest * size - size;
    }
  }

  // ---- Chunks as disjoint sets of keys ----

  ghost function KeySets(chunks: seq<seq<string>>): seq<set<string>> {
    seq(|chunks|, i requires 0 <= i < |chunks| => Elements(chunks[i]))
  }

  ghost function Union(parts: seq<set<string>>): set<string> {
    if parts == [] then {} else Union(parts[..|parts| - 1]) + parts[|parts| - 1]
  }

  ghost predicate Disjoint(parts: seq<set<string>>) {
    forall i, j | 0 <= i < j < |parts| :: parts[i] !! parts[j]
  }

  lemma {:induction false} UnionMember(parts: seq<set<string>>, key: string)
    ensures key in Union(parts) <==> exists i :: 0 <= i < |parts| && key in parts[i]
  {
    if parts != [] {
      UnionMember(parts[..|parts| - 1], key);
      assert forall i | 0 <= i < |parts| - 1 :: parts[..|parts| - 1][i] == parts[i];
    }
  }

  lemma UnionFront(parts: seq<set<string>>)
    requires parts != [] && Disjoint(parts)
    ensures Union(parts[..|parts| - 1]) !! parts[|parts| - 1]
  {
    var front := Union(parts[..|parts| - 1]);
    forall k | k in front
      ensures k !in parts[|parts| - 1]
    {
      UnionMember(parts[..|parts| - 1], k);
    }
  }

  lemma {:induction false} SplitMembers(keys: seq<string>, size: nat, i: nat, key: string)
    requires size > 0 && i < |Split(keys, size)| && key in Split(keys, size)[i]
    ensures key in keys
    decreases |keys|
  {
    var n := Min(size, |keys|);
    if i > 0 {
      SplitMembers(keys[n..], size, i - 1, key);
    }
  }

  lemma {:induction false} SplitCovers(keys: seq<string>, size: nat, key: string) returns (i: nat)
    requires size > 0 && key in keys
    ensures i < |Split(keys, size)| && key in Split(keys, size)[i]
    decreases |keys|
  {
    var n := Min(size, |keys|);
    assert keys == keys[..n] + keys[n..];
    assert Split(keys, size) == [keys[..n]] + Split(keys[n..], size);
    if key in keys[..n] {
      i := 0;
    } else {
      var j := SplitCovers(keys[n..], size, key);
      i := j + 1;
    }
  }

  lemma {:induction false} SplitDisjoint(keys: seq<string>, size: nat, i: nat, j: nat, key: string)
    requires size > 0 && Distinct(keys) && i < j < |Split(keys, size)|
    requires key in Split(keys, size)[i]
    ensures key !in Split(keys, size)[j]
    decreases |keys|
  {
    var n := Min(size, |keys|);
    var rest := Split(keys[n..], size);
    if i > 0 {
      SplitDisjoint(keys[n..], size, i - 1, j - 1, key);
    } else if key in rest[j - 1] {
      SplitMembers(keys[n..], size, j - 1, key);
    }
  }

  /** The chunks own pairwise disjoint keys and together own every key. */
  lemma SplitKeySets(keys: seq<string>, size: nat)
    requires size > 0 && Ordered(keys, KeyBefore)
    ensures Disjoint(KeySets(Split(keys, size)))
    ensures Union(KeySets(Split(keys, size))) == Elements(keys)
  {
    var chunks := Split(keys, size);
    var parts := KeySets(chunks);
    KeysAreTotal(Elements(keys));
    assert forall i | 0 <= i < |keys| :: keys[i] in Elements(keys);
    forall i, j, key | 0 <= i < j < |parts| && key in parts[i]
      ensures key !in parts[j]
    {
      SplitDisjoint(keys, size, i, j, key);
    }
    forall key
      ensures key in Union(parts) <==> key in keys
    {
      UnionMember(parts, key);
      if key in keys {
        var i := SplitCovers(keys, size, key);
        assert key in parts[i];
      }
      if i :| 0 <= i < |parts| && key in parts[i] {
        SplitMembers(keys, size, i, key);
      }
    }
  }
}
