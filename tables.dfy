/**
  The three tables as values: first-match lookup in the key table, the
  "add consumer if absent" update, the audit-log window, the invariant the
  tables keep, and the lemmas showing that each handler's update keeps it.
 */
module Tables {
  import opened Wrappers
  import opened Ids
  import opened Records

  /** How many of the most recent audit entries the audit query returns. */
  const AuditWindow: nat := 100

  /** First-match lookup: the index of the first key whose id is `id`, if any. */
  function KeyIndex(keys: seq<Key>, id: string): (r: Option<nat>)
    ensures r.Some? ==> r.value < |keys| && keys[r.value].id == id
    ensures r.Some? ==> forall j :: 0 <= j < r.value ==> keys[j].id != id
    ensures r.None? <==> forall j :: 0 <= j < |keys| ==> keys[j].id != id
  {
    KeyIndexFrom(keys, id, 0)
  }

  /** Lookup starting at index `from`. */
  function KeyIndexFrom(keys: seq<Key>, id: string, from: nat): (r: Option<nat>)
    requires from <= |keys|
    ensures r.Some? ==> from <= r.value < |keys| && keys[r.value].id == id
    ensures r.Some? ==> forall j :: from <= j < r.value ==> keys[j].id != id
    ensures r.None? <==> forall j :: from <= j < |keys| ==> keys[j].id != id
    decreases |keys| - from
  {
    if from == |keys| then None
    else if keys[from].id == id then Some(from)
    else KeyIndexFrom(keys, id, from + 1)
  }

  /** Lookup only looks at ids: tables with the same ids answer alike. */
  lemma KeyIndexSameIds(keys: seq<Key>, keys': seq<Key>, id: string)
    requires |keys| == |keys'|
    requires forall j :: 0 <= j < |keys| ==> keys[j].id == keys'[j].id
    ensures KeyIndex(keys', id) == KeyIndex(keys, id)
  {
    var r, r' := KeyIndex(keys, id), KeyIndex(keys', id);
    if r.Some? && r'.Some? {
      assert !(r.value < r'.value) && !(r'.value < r.value);
    }
  }

  /** Appending a key leaves every earlier answer in place. */
  lemma KeyIndexAppend(keys: seq<Key>, k: Key, id: string)
    requires KeyIndex(keys, id).Some?
    ensures KeyIndex(keys + [k], id) == KeyIndex(keys, id)
  {
    var r, r' := KeyIndex(keys, id), KeyIndex(keys + [k], id);
    assert (keys + [k])[r.value] == keys[r.value];
  }

  predicate NoDuplicates<T(==)>(s: seq<T>) {
    forall i, j :: 0 <= i < j < |s| ==> s[i] != s[j]
  }

  lemma {:induction false} NoDuplicatesCount<T>(s: seq<T>, x: T)
    requires NoDuplicates(s)
    ensures multiset(s)[x] == if x in s then 1 else 0
  {
    if s != [] {
      assert s == [s[0]] + s[1..];
      assert NoDuplicates(s[1..]) by {
        forall i, j | 0 <= i < j < |s[1..]| ensures s[1..][i] != s[1..][j] {
          assert s[1..][i] == s[i + 1] && s[1..][j] == s[j + 1];
        }
      }
      NoDuplicatesCount(s[1..], x);
      if x == s[0] {
        assert x !in s[1..] by {
          forall j | 0 <= j < |s[1..]| ensures s[1..][j] != x {
            assert s[1..][j] == s[j + 1];
          }
        }
      }
    }
  }

  /** Adds a consumer to a key's `allocated_to` list unless it is already there. */
  function AddConsumer(consumers: seq<string>, c: string): (r: seq<string>)
    ensures c in r
    ensures consumers <= r
    ensures forall x :: x in r <==> x in consumers || x == c
    ensures c in consumers ==> r == consumers
    ensures NoDuplicates(consumers) ==> NoDuplicates(r)
  {
    if c in consumers then consumers else consumers + [c]
  }

  /** On a list without duplicates the consumer ends up listed exactly once. */
  lemma AddConsumerOnce(consumers: seq<string>, c: string)
    requires NoDuplicates(consumers)
    ensures multiset(AddConsumer(consumers, c))[c] == 1
  {
    NoDuplicatesCount(AddConsumer(consumers, c), c);
  }

  /**
    Python's `log[-n:]`. For n >= 1 it is the last min(n, |log|) entries, in
    order; `log[-0:]` is `log[0:]`, the whole log.
   */
  function LastN<T>(log: seq<T>, n: nat): (r: seq<T>)
    ensures n > 0 ==> |r| == if |log| < n then |log| else n
    ensures n == 0 ==> r == log
    ensures log[..|log| - |r|] + r == log
  {
    if n == 0 || |log| <= n then log else log[|log| - n..]
  }

  /** The key at index i has id `key-{i+1:03d}`. */
  ghost predicate PositionalKeyIds(keys: seq<Key>) {
    forall i :: 0 <= i < |keys| ==> keys[i].id == KeyId(i + 1)
  }

  /** The allocation at index i has id `alloc-{i+1:03d}`. */
  ghost predicate PositionalAllocIds(allocs: seq<Allocation>) {
    forall i :: 0 <= i < |allocs| ==> allocs[i].id == AllocId(i + 1)
  }

  /** An allocation names an existing key, and that key lists its consumer. */
  predicate Bound(keys: seq<Key>, a: Allocation) {
    var k := KeyIndex(keys, a.keyId);
    k.Some? && a.consumerId in keys[k.value].allocatedTo
  }

  ghost predicate AllBound(keys: seq<Key>, allocs: seq<Allocation>) {
    forall j :: 0 <= j < |allocs| ==> Bound(keys, allocs[j])
  }

  /** Every key is active and lists each consumer at most once. */
  ghost predicate KeysWellFormed(keys: seq<Key>) {
    && PositionalKeyIds(keys)
    && (forall i :: 0 <= i < |keys| ==> keys[i].status == Active)
    && (forall i :: 0 <= i < |keys| ==> NoDuplicates(keys[i].allocatedTo))
  }

  /** The invariant the three tables keep between requests. */
  ghost predicate TablesValid(keys: seq<Key>, allocs: seq<Allocation>) {
    KeysWellFormed(keys) && PositionalAllocIds(allocs) && AllBound(keys, allocs)
  }

  /** Keeping every id and never dropping a consumer keeps all allocations bound. */
  lemma AllBoundKept(keys: seq<Key>, keys': seq<Key>, allocs: seq<Allocation>)
    requires AllBound(keys, allocs)
    requires |keys| == |keys'|
    requires forall k :: 0 <= k < |keys| ==> keys'[k].id == keys[k].id
    requires forall k :: 0 <= k < |keys| ==> keys[k].allocatedTo <= keys'[k].allocatedTo
    ensures AllBound(keys', allocs)
  {
    forall j | 0 <= j < |allocs| ensures Bound(keys', allocs[j]) {
      KeyIndexSameIds(keys, keys', allocs[j].keyId);
      assert Bound(keys, allocs[j]);
    }
  }

  /** Positional ids are pairwise distinct. */
  lemma KeyIdsUnique(keys: seq<Key>, i: nat, j: nat)
    requires PositionalKeyIds(keys)
    requires i < |keys| && j < |keys| && i != j
    ensures keys[i].id != keys[j].id
  {
    if keys[i].id == keys[j].id {
      FormatIdInjective("key-", i + 1, j + 1);
    }
  }

  /** Under positional ids, `key-{n:03d}` is found exactly at index n - 1. */
  lemma PositionalLookup(keys: seq<Key>, n: nat)
    requires PositionalKeyIds(keys)
    requires 1 <= n <= |keys|
    ensures KeyIndex(keys, KeyId(n)) == Some(n - 1)
  {
    var r := KeyIndex(keys, KeyId(n));
    assert keys[n - 1].id == KeyId(n);
    if r.Some? && r.value != n - 1 {
      KeyIdsUnique(keys, r.value, n - 1);
    }
  }

  /** The seed ids are the positional ones. */
  lemma SeedIds()
    ensures KeyId(1) == "key-001" && KeyId(2) == "key-002" && KeyId(3) == "key-003"
  {
    assert Decimal(1) == "1" && Decimal(2) == "2" && Decimal(3) == "3";
  }

  /** The seed keys carry the positional ids. */
  lemma SeedIdsPositional()
    ensures PositionalKeyIds(SeedKeys())
  {
    SeedIds();
  }

  /** No seed key lists a consumer twice. */
  lemma SeedConsumersDistinct()
    ensures forall i :: 0 <= i < |SeedKeys()| ==> NoDuplicates(SeedKeys()[i].allocatedTo)
  {
    var seed := SeedKeys();
    assert NoDuplicates(seed[0].allocatedTo) by {
      assert seed[0].allocatedTo[0] != seed[0].allocatedTo[1];
    }
  }

  /** The seed table is well formed: positional ids, all active, no consumer listed twice. */
  lemma SeedKeysWellFormed()
    ensures KeysWellFormed(SeedKeys())
  {
    var seed := SeedKeys();
    SeedIdsPositional();
    SeedConsumersDistinct();
    assert forall i :: 0 <= i < |seed| ==> seed[i].status == Active;
  }

  /** The tables the service starts with satisfy the invariant. */
  lemma SeedKeysValid()
    ensures TablesValid(SeedKeys(), [])
  {
    SeedKeysWellFormed();
  }

  /** Appending the key `key-{n+1:03d}` keeps ids positional, and the new id is found at once. */
  lemma CreatedKeyFound(keys: seq<Key>, k: Key)
    requires PositionalKeyIds(keys)
    requires k.id == KeyId(|keys| + 1)
    ensures PositionalKeyIds(keys + [k])
    ensures KeyIndex(keys + [k], k.id) == Some(|keys|)
  {
    PositionalLookup(keys + [k], |keys| + 1);
  }

  /** Appending a fresh active key with no consumers keeps the key table well formed. */
  lemma KeysWellFormedAppend(keys: seq<Key>, k: Key)
    requires KeysWellFormed(keys)
    requires k.id == KeyId(|keys| + 1) && k.status == Active && k.allocatedTo == []
    ensures KeysWellFormed(keys + [k])
  {
    CreatedKeyFound(keys, k);
  }

  /** Replacing key i by a record with the same id and status and no duplicate consumers keeps the key table well formed. */
  lemma KeysWellFormedUpdate(keys: seq<Key>, i: nat, k: Key)
    requires KeysWellFormed(keys) && i < |keys|
    requires k.id == keys[i].id && k.status == keys[i].status && NoDuplicates(k.allocatedTo)
    ensures KeysWellFormed(keys[i := k])
  {
  }

  /** Appending allocation `alloc-{m+1:03d}` keeps allocation ids positional. */
  lemma AllocIdsAppend(allocs: seq<Allocation>, a: Allocation)
    requires PositionalAllocIds(allocs) && a.id == AllocId(|allocs| + 1)
    ensures PositionalAllocIds(allocs + [a])
  {
  }

  /** Creating a fresh active key with no consumers keeps the invariant. */
  lemma CreatePreserves(keys: seq<Key>, allocs: seq<Allocation>, k: Key)
    requires TablesValid(keys, allocs)
    requires k.id == KeyId(|keys| + 1) && k.status == Active && k.allocatedTo == []
    ensures TablesValid(keys + [k], allocs)
  {
    KeysWellFormedAppend(keys, k);
    forall j | 0 <= j < |allocs| ensures Bound(keys + [k], allocs[j]) {
      KeyIndexAppend(keys, k, allocs[j].keyId);
    }
  }

  /** Adding the consumer to key i and appending allocation `alloc-{m+1:03d}` keeps the invariant. */
  lemma AllocatePreserves(keys: seq<Key>, allocs: seq<Allocation>, i: nat, a: Allocation)
    requires TablesValid(keys, allocs)
    requires KeyIndex(keys, a.keyId) == Some(i)
    requires a.id == AllocId(|allocs| + 1)
    ensures TablesValid(keys[i := keys[i].(allocatedTo := AddConsumer(keys[i].allocatedTo, a.consumerId))], allocs + [a])
  {
    var keys' := keys[i := keys[i].(allocatedTo := AddConsumer(keys[i].allocatedTo, a.consumerId))];
    KeysWellFormedUpdate(keys, i, keys'[i]);
    AllocIdsAppend(allocs, a);
    AllBoundKept(keys, keys', allocs);
    KeyIndexSameIds(keys, keys', a.keyId);
    assert AllBound(keys', allocs + [a]) by {
      forall j | 0 <= j < |allocs| + 1 ensures Bound(keys', (allocs + [a])[j]) {
        if j < |allocs| {
          assert (allocs + [a])[j] == allocs[j];
        }
      }
    }
  }

  /** Restamping key i's rotation time keeps the invariant. */
  lemma RotatePreserves(keys: seq<Key>, allocs: seq<Allocation>, i: nat, now: DateTime)
    requires TablesValid(keys, allocs)
    requires i < |keys|
    ensures TablesValid(keys[i := keys[i].(lastRotatedAt := now)], allocs)
  {
    var keys' := keys[i := keys[i].(lastRotatedAt := now)];
    KeysWellFormedUpdate(keys, i, keys'[i]);
    AllBoundKept(keys, keys', allocs);
  }
}
