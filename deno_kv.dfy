/**
 * The part of Deno KV the event repository relies on, over the key schema the repository uses.
 * The store is a map from keys to entries, each entry a value and the versionstamp of the commit
 * that wrote it; a global stamp counter advances on every successful commit. An atomic operation
 * collects version checks and writes; committing it applies all writes, with one fresh stamp,
 * when every check holds, and nothing otherwise.
 */
module DenoKv {
  import opened Wrappers
  import opened Api
  import opened Ulids

  type Versionstamp = nat

  /** A stored event: the event plus its metadata (`Event & EventMetadata`). */
  datatype StoredEvent = StoredEvent(event: Event, eventId: Ulid, commandId: string)

  /** The repository's key schema. */
  datatype Key =
    | StreamVersionKey(streamId: string)                 // ["streamVersion", streamId]
    | StreamEventKey(streamId: string, eventId: Ulid)    // ["events", streamId, eventId]
    | GlobalEventKey(eventId: Ulid)                      // ["events", eventId]

  datatype Value = StoredEventValue(stored: StoredEvent) | UlidValue(ulid: Ulid)

  datatype Entry = Entry(value: Value, versionstamp: Versionstamp)

  /** An entry as a listing yields it, together with its key. */
  datatype KvEntry = KvEntry(key: Key, value: Value, versionstamp: Versionstamp)

  /** `check({key, versionstamp})`: `None` stands for `null`, "the key is absent". */
  datatype VersionCheck = VersionCheck(key: Key, versionstamp: Option<Versionstamp>)

  datatype Mutation = SetMutation(key: Key, value: Value)

  function Lookup(m: map<Key, Entry>, key: Key): Option<Entry>
  {
    if key in m then Some(m[key]) else None
  }

  /** The versionstamp a `get` reports: `null` when the key is absent. */
  function StampAt(m: map<Key, Entry>, key: Key): Option<Versionstamp>
  {
    if key in m then Some(m[key].versionstamp) else None
  }

  predicate CheckHolds(m: map<Key, Entry>, check: VersionCheck)
  {
    StampAt(m, check.key) == check.versionstamp
  }

  predicate ChecksPass(m: map<Key, Entry>, checks: seq<VersionCheck>)
  {
    forall i :: 0 <= i < |checks| ==> CheckHolds(m, checks[i])
  }

  /** The store after the writes `mutations`, in order, all stamped `stamp`. */
  function ApplyMutations(m: map<Key, Entry>, mutations: seq<Mutation>, stamp: Versionstamp): map<Key, Entry>
    decreases |mutations|
  {
    if mutations == [] then m
    else
      var last := mutations[|mutations| - 1];
      ApplyMutations(m, mutations[..|mutations| - 1], stamp)[last.key := Entry(last.value, stamp)]
  }

  /** The value the last write to `key` among `mutations` stores, if any writes it. */
  function LastWrite(mutations: seq<Mutation>, key: Key): Option<Value>
    decreases |mutations|
  {
    if mutations == [] then None
    else if mutations[|mutations| - 1].key == key then Some(mutations[|mutations| - 1].value)
    else LastWrite(mutations[..|mutations| - 1], key)
  }

  /** A key ends up holding the last value written to it, with the commit's stamp; a key nothing
      writes keeps its entry, or stays absent. */
  lemma {:induction false} ApplyMutationsAt(m: map<Key, Entry>, mutations: seq<Mutation>, stamp: Versionstamp, key: Key)
    ensures LastWrite(mutations, key).Some? ==>
              Lookup(ApplyMutations(m, mutations, stamp), key) == Some(Entry(LastWrite(mutations, key).value, stamp))
    ensures LastWrite(mutations, key).None? ==> Lookup(ApplyMutations(m, mutations, stamp), key) == Lookup(m, key)
    decreases |mutations|
  {
    if mutations != [] {
      ApplyMutationsAt(m, mutations[..|mutations| - 1], stamp, key);
    }
  }

  /** The last write of a concatenation is the second part's, when it writes the key at all. */
  lemma {:induction false} LastWriteConcat(first: seq<Mutation>, second: seq<Mutation>, key: Key)
    ensures LastWrite(first + second, key)
         == if LastWrite(second, key).Some? then LastWrite(second, key) else LastWrite(first, key)
    decreases |second|
  {
    if second == [] {
      assert first + second == first;
    } else {
      var all := first + second;
      assert all[..|all| - 1] == first + second[..|second| - 1];
      assert all[|all| - 1] == second[|second| - 1];
      LastWriteConcat(first, second[..|second| - 1], key);
    }
  }

  predicate StampsBounded(m: map<Key, Entry>, bound: Versionstamp)
  {
    forall k :: k in m ==> m[k].versionstamp <= bound
  }

  /** A commit's stamp bounds every stamp afterwards, when it bounded them before. */
  lemma ApplyMutationsBounded(m: map<Key, Entry>, mutations: seq<Mutation>, stamp: Versionstamp)
    requires StampsBounded(m, stamp)
    ensures StampsBounded(ApplyMutations(m, mutations, stamp), stamp)
  {
    var after := ApplyMutations(m, mutations, stamp);
    forall k | k in after
      ensures after[k].versionstamp <= stamp
    {
      ApplyMutationsAt(m, mutations, stamp, k);
    }
  }

  // --------------------------------------------------------------------------
  // Listing by prefix ["events", streamId]
  // --------------------------------------------------------------------------

  /** The event ids stored under the stream prefix of `streamId`. */
  function StreamIds(m: map<Key, Entry>, streamId: string): set<Ulid>
  {
    set k | k in m && k.StreamEventKey? && k.streamId == streamId :: k.eventId
  }

  lemma StreamIdsMember(m: map<Key, Entry>, streamId: string, id: Ulid)
    ensures id in StreamIds(m, streamId) <==> StreamEventKey(streamId, id) in m
  {
    if StreamEventKey(streamId, id) in m {
      var k := StreamEventKey(streamId, id);
      assert k.eventId in StreamIds(m, streamId);
    }
  }

  function EntriesAt(m: map<Key, Entry>, streamId: string, ids: seq<Ulid>): seq<KvEntry>
    requires forall i :: 0 <= i < |ids| ==> StreamEventKey(streamId, ids[i]) in m
  {
    seq(|ids|, i requires 0 <= i < |ids| =>
      var k := StreamEventKey(streamId, ids[i]);
      KvEntry(k, m[k].value, m[k].versionstamp))
  }

  /** The stream's event ids in key order. */
  ghost function StreamOrder(m: map<Key, Entry>, streamId: string): seq<Ulid>
  {
    Ascending(StreamIds(m, streamId))
  }

  lemma StreamOrderInStore(m: map<Key, Entry>, streamId: string)
    ensures forall i :: 0 <= i < |StreamOrder(m, streamId)| ==> StreamEventKey(streamId, StreamOrder(m, streamId)[i]) in m
  {
    var ids := StreamOrder(m, streamId);
    forall i | 0 <= i < |ids|
      ensures StreamEventKey(streamId, ids[i]) in m
    {
      assert ids[i] in StreamIds(m, streamId);
      StreamIdsMember(m, streamId, ids[i]);
    }
  }

  /** What `list({prefix: ["events", streamId]})` yields: the stream's entries in key order. */
  ghost function StreamListing(m: map<Key, Entry>, streamId: string): seq<KvEntry>
  {
    StreamOrderInStore(m, streamId);
    EntriesAt(m, streamId, StreamOrder(m, streamId))
  }

  /** The listing holds exactly the entries under the stream's prefix, each as stored, in
      increasing event id. */
  lemma StreamListingIsSortedAndComplete(m: map<Key, Entry>, streamId: string)
    ensures forall i :: 0 <= i < |StreamListing(m, streamId)| ==>
              StreamListing(m, streamId)[i].key.StreamEventKey? && StreamListing(m, streamId)[i].key.streamId == streamId
              && StreamListing(m, streamId)[i].key in m
              && m[StreamListing(m, streamId)[i].key] == Entry(StreamListing(m, streamId)[i].value, StreamListing(m, streamId)[i].versionstamp)
    ensures forall i, j :: 0 <= i < j < |StreamListing(m, streamId)| ==>
              StreamListing(m, streamId)[i].key.eventId < StreamListing(m, streamId)[j].key.eventId
    ensures forall id :: StreamEventKey(streamId, id) in m <==>
              exists i :: 0 <= i < |StreamListing(m, streamId)| && StreamListing(m, streamId)[i].key.eventId == id
  {
    var ids := StreamOrder(m, streamId);
    var listing := StreamListing(m, streamId);
    StreamOrderInStore(m, streamId);
    assert forall i :: 0 <= i < |ids| ==>
      listing[i] == KvEntry(StreamEventKey(streamId, ids[i]), m[StreamEventKey(streamId, ids[i])].value,
                            m[StreamEventKey(streamId, ids[i])].versionstamp);
    forall id | StreamEventKey(streamId, id) in m
      ensures exists i :: 0 <= i < |listing| && listing[i].key.eventId == id
    {
      StreamIdsMember(m, streamId, id);
      var i :| 0 <= i < |ids| && ids[i] == id;
      assert listing[i].key.eventId == id;
    }
  }

  lemma StreamListingLength(m: map<Key, Entry>, streamId: string)
    ensures |StreamListing(m, streamId)| == |StreamOrder(m, streamId)|
  {
    StreamOrderInStore(m, streamId);
  }

  /** One position of the listing: the stored value at the stream's `i`-th id. */
  lemma StreamListingAt(m: map<Key, Entry>, streamId: string, i: nat)
    requires i < |StreamOrder(m, streamId)|
    ensures |StreamListing(m, streamId)| == |StreamOrder(m, streamId)|
    ensures StreamEventKey(streamId, StreamOrder(m, streamId)[i]) in m
    ensures StreamListing(m, streamId)[i].value == m[StreamEventKey(streamId, StreamOrder(m, streamId)[i])].value
  {
    StreamOrderInStore(m, streamId);
  }

  // --------------------------------------------------------------------------
  // The store and its atomic operations
  // --------------------------------------------------------------------------

  /** `kv.atomic()`: the checks and writes collected so far. */
  class AtomicOperation {
    var checks: seq<VersionCheck>
    var mutations: seq<Mutation>

    constructor()
      ensures checks == [] && mutations == []
    {
      checks := [];
      mutations := [];
    }

    method Check(check: VersionCheck)
      modifies this
      ensures checks == old(checks) + [check]
      ensures mutations == old(mutations)
    {
      checks := checks + [check];
    }

    method Set(key: Key, value: Value)
      modifies this
      ensures mutations == old(mutations) + [SetMutation(key, value)]
      ensures checks == old(checks)
    {
      mutations := mutations + [SetMutation(key, value)];
    }
  }

  class Kv {
    var entries: map<Key, Entry>
    var lastStamp: Versionstamp

    /** No entry carries a stamp from a commit that has not happened yet. */
    ghost predicate Valid()
      reads this
    {
      StampsBounded(entries, lastStamp)
    }

    constructor()
      ensures entries == map[] && lastStamp == 0
      ensures Valid()
    {
      entries := map[];
      lastStamp := 0;
    }

    method Get(key: Key) returns (entry: Option<Entry>)
      ensures entry.Some? <==> key in entries
      ensures entry.Some? ==> entry.value == entries[key]
    {
      if key in entries {
        entry := Some(entries[key]);
      } else {
        entry := None;
      }
    }

    /** `getMany(keys)`: one answer per key, in the order of the keys. */
    method GetMany(keys: seq<Key>) returns (found: seq<Option<Entry>>)
      ensures |found| == |keys|
      ensures forall i :: 0 <= i < |keys| ==> found[i] == Lookup(entries, keys[i])
    {
      found := [];
      for i := 0 to |keys|
        invariant |found| == i
        invariant forall j :: 0 <= j < i ==> found[j] == Lookup(entries, keys[j])
      {
        var entry := Get(keys[i]);
        found := found + [entry];
      }
    }

    /** `list({prefix: ["events", streamId]})`, by repeatedly taking the least remaining event id. */
    method ListStream(streamId: string) returns (listing: seq<KvEntry>)
      ensures listing == StreamListing(entries, streamId)
    {
      var all := StreamIds(entries, streamId);
      var remaining := all;
      ghost var ids: seq<Ulid> := [];
      listing := [];
      while remaining != {}
        invariant remaining <= all
        invariant forall x :: x in all <==> x in remaining || x in ids
        invariant forall x :: x in remaining ==> x !in ids
        invariant StrictlyIncreasing(ids)
        invariant forall i, x :: 0 <= i < |ids| && x in remaining ==> ids[i] < x
        invariant forall i :: 0 <= i < |ids| ==> StreamEventKey(streamId, ids[i]) in entries
        invariant listing == EntriesAt(entries, streamId, ids)
        decreases |remaining|
      {
        LeastExists(remaining);
        var id :| IsLeast(id, remaining);
        var key := StreamEventKey(streamId, id);
        listing := listing + [KvEntry(key, entries[key].value, entries[key].versionstamp)];
        ids := ids + [id];
        remaining := remaining - {id};
      }
      AscendingUnique(all, ids);
      assert ids == StreamOrder(entries, streamId);
    }

    /** `commit()`: when every check holds, apply every write with one fresh stamp; otherwise
        change nothing. The result is `ok`. */
    method Commit(op: AtomicOperation) returns (ok: bool)
      requires Valid()
      modifies this
      ensures Valid()
      ensures ok == ChecksPass(old(entries), op.checks)
      ensures ok ==> entries == ApplyMutations(old(entries), op.mutations, old(lastStamp) + 1)
                     && lastStamp == old(lastStamp) + 1
      ensures !ok ==> entries == old(entries) && lastStamp == old(lastStamp)
    {
      ok := true;
      for i := 0 to |op.checks|
        invariant entries == old(entries) && lastStamp == old(lastStamp)
        invariant ok == forall j :: 0 <= j < i ==> CheckHolds(entries, op.checks[j])
      {
        var current := Get(op.checks[i].key);
        var stamp := if current.Some? then Some(current.value.versionstamp) else None;
        if stamp != op.checks[i].versionstamp {
          ok := false;
        }
      }
      if ok {
        var stamp := lastStamp + 1;
        var mutations := op.mutations;
        ghost var before := entries;
        for i := 0 to |mutations|
          invariant lastStamp == old(lastStamp)
          invariant entries == ApplyMutations(before, mutations[..i], stamp)
        {
          assert mutations[..i + 1][..i] == mutations[..i];
          entries := entries[mutations[i].key := Entry(mutations[i].value, stamp)];
        }
        assert mutations[..|mutations|] == mutations;
        ApplyMutationsBounded(before, mutations, stamp);
        lastStamp := stamp;
      }
    }
  }
}
