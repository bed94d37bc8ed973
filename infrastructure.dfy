/**
 * The event repository over Deno KV. Every event is written three times in one atomic
 * operation: under its stream (["events", streamId, eventId]), under the global stream
 * (["events", eventId]), and as the stream's version (["streamVersion", streamId] holds the
 * latest event id). The operation is guarded by a check that the stream version key still has
 * the versionstamp read while the operation was built (optimistic locking).
 */
module Infrastructure {
  import opened Wrappers
  import opened Api
  import opened Ulids
  import opened DenoKv

  /** `StreamVersion`: the versionstamp of a stream's version key. */
  datatype StreamVersion = StreamVersion(versionstamp: Versionstamp)

  datatype CommandMetadata = CommandMetadata(commandId: string)

  /** An event as `save` returns it: the stored event and its stream's versionstamp. */
  datatype VersionedEvent = VersionedEvent(stored: StoredEvent, versionstamp: Versionstamp)

  /** Why `save` throws: the three errors it raises itself, or the error the ULID factory raises
      when it cannot hand out an id. */
  datatype SaveError = SaveFailed | EventNotFound | VersionstampNotFound | UlidFactoryFailed
  {
    /** The message of an error `save` raises itself; the factory's message is the library's own. */
    function Message(): string
      requires !UlidFactoryFailed?
    {
      match this
      case SaveFailed => "Failed to save event"
      case EventNotFound => "Failed to save event properly. Event not found."
      case VersionstampNotFound => "Failed to save event properly. Versionstamp not found."
    }
  }

  /** The store keeps the schema: version keys hold event ids, event keys hold events. */
  predicate WellFormedValue(key: Key, value: Value)
  {
    key.StreamVersionKey? <==> value.UlidValue?
  }

  predicate WellFormed(m: map<Key, Entry>)
  {
    forall k :: k in m ==> WellFormedValue(k, m[k].value)
  }

  // --------------------------------------------------------------------------
  // The specification of versionProvider, fetch and save
  // --------------------------------------------------------------------------

  /** `versionProvider(event)`: the stamp of the stream's version key, or `null` when it is absent. */
  function StreamVersionOf(m: map<Key, Entry>, streamId: string): (version: Option<StreamVersion>)
    ensures version.Some? <==> StreamVersionKey(streamId) in m
    ensures version.Some? ==> StampAt(m, StreamVersionKey(streamId)) == Some(version.value.versionstamp)
  {
    var key := StreamVersionKey(streamId);
    if key in m then Some(StreamVersion(m[key].versionstamp)) else None
  }

  /** The values of a listing, in order: what `fetch` returns. */
  function ValuesOf(listing: seq<KvEntry>): (values: seq<Value>)
    ensures |values| == |listing| && forall i :: 0 <= i < |listing| ==> values[i] == listing[i].value
  {
    seq(|listing|, i requires 0 <= i < |listing| => listing[i].value)
  }

  /** The checks `save` adds: one per event, on its stream's version key, expecting the stamp read
      from the store before the commit. */
  function SaveChecks(m: map<Key, Entry>, events: seq<Event>): (checks: seq<VersionCheck>)
    ensures |checks| == |events|
    ensures forall i :: 0 <= i < |events| ==>
              checks[i] == VersionCheck(StreamVersionKey(events[i].Id()), StampAt(m, StreamVersionKey(events[i].Id())))
  {
    seq(|events|, i requires 0 <= i < |events| =>
      VersionCheck(StreamVersionKey(events[i].Id()), StampAt(m, StreamVersionKey(events[i].Id()))))
  }

  function StoredValue(event: Event, id: Ulid, commandId: string): Value
  {
    StoredEventValue(StoredEvent(event, id, commandId))
  }

  /** The three writes of one event: stream index, global index, stream version. */
  function EventMutations(event: Event, id: Ulid, commandId: string): seq<Mutation>
  {
    [SetMutation(StreamEventKey(event.Id(), id), StoredValue(event, id, commandId)),
     SetMutation(GlobalEventKey(id), StoredValue(event, id, commandId)),
     SetMutation(StreamVersionKey(event.Id()), UlidValue(id))]
  }

  /** The writes `save` adds, event by event. */
  function SaveMutations(events: seq<Event>, ids: seq<Ulid>, commandId: string): (mutations: seq<Mutation>)
    requires |ids| == |events|
    ensures |mutations| == 3 * |events|
    decreases |events|
  {
    if events == [] then []
    else
      var n := |events| - 1;
      SaveMutations(events[..n], ids[..n], commandId) + EventMutations(events[n], ids[n], commandId)
  }

  /** Every write of a save keeps the schema. */
  lemma {:induction false} SaveMutationsKeepSchema(events: seq<Event>, ids: seq<Ulid>, commandId: string)
    requires |ids| == |events|
    ensures forall j :: 0 <= j < |SaveMutations(events, ids, commandId)| ==>
              WellFormedValue(SaveMutations(events, ids, commandId)[j].key, SaveMutations(events, ids, commandId)[j].value)
    decreases |events|
  {
    if events != [] {
      var n := |events| - 1;
      SaveMutationsKeepSchema(events[..n], ids[..n], commandId);
    }
  }

  /** The keys `save` reads back: each event's key in its stream. */
  function StreamEventKeys(events: seq<Event>, ids: seq<Ulid>): (keys: seq<Key>)
    requires |ids| == |events|
    ensures |keys| == |events|
    ensures forall i :: 0 <= i < |events| ==> keys[i] == StreamEventKey(events[i].Id(), ids[i])
  {
    seq(|events|, i requires 0 <= i < |events| => StreamEventKey(events[i].Id(), ids[i]))
  }

  /** One round of the result loop: the stored event under `key`, with its stream's current stamp. */
  function ReadBack(m: map<Key, Entry>, key: Key): Result<VersionedEvent, SaveError>
  {
    match Lookup(m, key)
    case None => Failure(EventNotFound)
    case Some(entry) =>
      match entry.value
      case UlidValue(_) => Failure(EventNotFound)
      case StoredEventValue(stored) =>
        match StreamVersionOf(m, stored.event.Id())
        case None => Failure(VersionstampNotFound)
        case Some(version) => Success(VersionedEvent(stored, version.versionstamp))
  }

  /** The result loop: the first failing key decides the error. */
  function ReadBackAll(m: map<Key, Entry>, keys: seq<Key>): Result<seq<VersionedEvent>, SaveError>
    decreases |keys|
  {
    if keys == [] then Success([])
    else
      match ReadBackAll(m, keys[..|keys| - 1])
      case Failure(e) => Failure(e)
      case Success(front) =>
        match ReadBack(m, keys[|keys| - 1])
        case Failure(e) => Failure(e)
        case Success(last) => Success(front + [last])
  }

  /** What a save that commits returns: every event stored with its id and the commit's stamp. */
  function Saved(events: seq<Event>, ids: seq<Ulid>, commandId: string, stamp: Versionstamp): seq<VersionedEvent>
    requires |ids| == |events|
  {
    seq(|events|, i requires 0 <= i < |events| =>
      VersionedEvent(StoredEvent(events[i], ids[i], commandId), stamp))
  }

  /** What the loop in `save` has built after handling `events`: the checks, the writes and the
      keys to read back. */
  datatype Preparation = Preparation(checks: seq<VersionCheck>, mutations: seq<Mutation>, keys: seq<Key>)

  /** The loop in `save`, round by round: each event, with the id the factory handed out for it,
      adds a check on its stream's version as read from `m`, its three writes and its stream key. */
  ghost function SaveLoop(m: map<Key, Entry>, events: seq<Event>, ids: seq<Ulid>, commandId: string): Preparation
    requires |ids| == |events|
    decreases |events|
  {
    if events == [] then Preparation([], [], [])
    else
      var n := |events| - 1;
      var p := SaveLoop(m, events[..n], ids[..n], commandId);
      var e := events[n];
      Preparation(p.checks + [VersionCheck(StreamVersionKey(e.Id()), StampAt(m, StreamVersionKey(e.Id())))],
                  p.mutations + EventMutations(e, ids[n], commandId),
                  p.keys + [StreamEventKey(e.Id(), ids[n])])
  }

  lemma SaveLoopStep(m: map<Key, Entry>, events: seq<Event>, ids: seq<Ulid>, id: Ulid, commandId: string)
    requires |ids| < |events|
    ensures var i := |ids|;
            var p := SaveLoop(m, events[..i], ids, commandId);
            var e := events[i];
            SaveLoop(m, events[..i + 1], ids + [id], commandId)
            == Preparation(p.checks + [VersionCheck(StreamVersionKey(e.Id()), StampAt(m, StreamVersionKey(e.Id())))],
                           p.mutations + EventMutations(e, id, commandId),
                           p.keys + [StreamEventKey(e.Id(), id)])
  {
    var i := |ids|;
    assert events[..i + 1][..i] == events[..i];
    assert (ids + [id])[..i] == ids;
  }

  /** One more event extends a save's checks by the check on that event's stream version. */
  lemma SaveChecksStep(m: map<Key, Entry>, events: seq<Event>, n: nat)
    requires n < |events|
    ensures SaveChecks(m, events[..n + 1])
         == SaveChecks(m, events[..n]) + [VersionCheck(StreamVersionKey(events[n].Id()), StampAt(m, StreamVersionKey(events[n].Id())))]
  {
  }

  /** One more event extends the keys a save reads back by that event's stream key. */
  lemma StreamEventKeysStep(events: seq<Event>, ids: seq<Ulid>, n: nat)
    requires n < |events| == |ids|
    ensures StreamEventKeys(events[..n + 1], ids[..n + 1])
         == StreamEventKeys(events[..n], ids[..n]) + [StreamEventKey(events[n].Id(), ids[n])]
  {
  }

  /** The loop builds exactly the checks of `SaveChecks`, the writes of `SaveMutations` and the
      keys of `StreamEventKeys`. */
  lemma {:induction false} SaveLoopCloses(m: map<Key, Entry>, events: seq<Event>, ids: seq<Ulid>, commandId: string)
    requires |ids| == |events|
    ensures SaveLoop(m, events, ids, commandId)
         == Preparation(SaveChecks(m, events), SaveMutations(events, ids, commandId), StreamEventKeys(events, ids))
    decreases |events|
  {
    if events != [] {
      var n := |events| - 1;
      SaveLoopCloses(m, events[..n], ids[..n], commandId);
      SaveChecksStep(m, events, n);
      StreamEventKeysStep(events, ids, n);
      assert events[..n + 1] == events && ids[..n + 1] == ids;
    }
  }

  // --------------------------------------------------------------------------
  // Lemmas about save's writes
  // --------------------------------------------------------------------------

  lemma EventMutationsAt(event: Event, id: Ulid, commandId: string, key: Key)
    ensures LastWrite(EventMutations(event, id, commandId), key)
         == if key == StreamVersionKey(event.Id()) then Some(UlidValue(id))
            else if key == GlobalEventKey(id) || key == StreamEventKey(event.Id(), id) then Some(StoredValue(event, id, commandId))
            else None
  {
    var ms := EventMutations(event, id, commandId);
    var a, b, c := ms[0], ms[1], ms[2];
    assert LastWrite([a], key) == if a.key == key then Some(a.value) else None by {
      assert [a][..0] == [];
    }
    assert LastWrite([a, b], key) == if b.key == key then Some(b.value) else LastWrite([a], key) by {
      assert [a, b][..1] == [a];
    }
    assert LastWrite(ms, key) == if c.key == key then Some(c.value) else LastWrite([a, b], key) by {
      assert ms[..2] == [a, b];
    }
  }

  /** The keys a save writes: for each event, its stream key, its global key and its stream's
      version key. */
  predicate SaveWrites(events: seq<Event>, ids: seq<Ulid>, key: Key)
    requires |ids| == |events|
  {
    exists i :: 0 <= i < |events| &&
      (key == StreamEventKey(events[i].Id(), ids[i]) || key == GlobalEventKey(ids[i]) || key == StreamVersionKey(events[i].Id()))
  }

  /** A save writes exactly the keys of its events, and nothing else. */
  lemma {:induction false} SaveWritesExactly(events: seq<Event>, ids: seq<Ulid>, commandId: string, key: Key)
    requires |ids| == |events|
    ensures LastWrite(SaveMutations(events, ids, commandId), key).Some? <==> SaveWrites(events, ids, key)
    decreases |events|
  {
    if events != [] {
      var n := |events| - 1;
      var front, frontIds := events[..n], ids[..n];
      SaveWritesExactly(front, frontIds, commandId, key);
      LastWriteConcat(SaveMutations(front, frontIds, commandId), EventMutations(events[n], ids[n], commandId), key);
      EventMutationsAt(events[n], ids[n], commandId, key);
      if SaveWrites(events, ids, key) {
        var i :| 0 <= i < |events| &&
          (key == StreamEventKey(events[i].Id(), ids[i]) || key == GlobalEventKey(ids[i]) || key == StreamVersionKey(events[i].Id()));
        if i < n {
          assert front[i] == events[i] && frontIds[i] == ids[i];
        }
      }
      if SaveWrites(front, frontIds, key) {
        var i :| 0 <= i < n &&
          (key == StreamEventKey(front[i].Id(), frontIds[i]) || key == GlobalEventKey(frontIds[i]) || key == StreamVersionKey(front[i].Id()));
        assert front[i] == events[i] && frontIds[i] == ids[i];
      }
    }
  }

  /** Each event ends up under its stream key and its global key, with its id and the command's id. */
  lemma {:induction false} SaveStoresEvent(events: seq<Event>, ids: seq<Ulid>, commandId: string, i: nat)
    requires |ids| == |events| && StrictlyIncreasing(ids)
    requires i < |events|
    ensures LastWrite(SaveMutations(events, ids, commandId), StreamEventKey(events[i].Id(), ids[i]))
         == Some(StoredValue(events[i], ids[i], commandId))
    ensures LastWrite(SaveMutations(events, ids, commandId), GlobalEventKey(ids[i]))
         == Some(StoredValue(events[i], ids[i], commandId))
    decreases |events|
  {
    var n := |events| - 1;
    var front, frontIds := events[..n], ids[..n];
    var streamKey, globalKey := StreamEventKey(events[i].Id(), ids[i]), GlobalEventKey(ids[i]);
    var last := EventMutations(events[n], ids[n], commandId);
    LastWriteConcat(SaveMutations(front, frontIds, commandId), last, streamKey);
    LastWriteConcat(SaveMutations(front, frontIds, commandId), last, globalKey);
    EventMutationsAt(events[n], ids[n], commandId, streamKey);
    EventMutationsAt(events[n], ids[n], commandId, globalKey);
    if i < n {
      assert ids[i] < ids[n];
      assert StrictlyIncreasing(frontIds);
      SaveStoresEvent(front, frontIds, commandId, i);
      assert front[i] == events[i] && frontIds[i] == ids[i];
    }
  }

  /** A stream's version key ends up holding the id of the stream's last event in the save. */
  lemma {:induction false} SaveSetsStreamVersion(events: seq<Event>, ids: seq<Ulid>, commandId: string, i: nat)
    requires |ids| == |events|
    requires i < |events|
    requires forall j :: i < j < |events| ==> events[j].Id() != events[i].Id()
    ensures LastWrite(SaveMutations(events, ids, commandId), StreamVersionKey(events[i].Id())) == Some(UlidValue(ids[i]))
    decreases |events|
  {
    var n := |events| - 1;
    var front, frontIds := events[..n], ids[..n];
    var key := StreamVersionKey(events[i].Id());
    LastWriteConcat(SaveMutations(front, frontIds, commandId), EventMutations(events[n], ids[n], commandId), key);
    EventMutationsAt(events[n], ids[n], commandId, key);
    if i < n {
      SaveSetsStreamVersion(front, frontIds, commandId, i);
      assert front[i] == events[i] && frontIds[i] == ids[i];
    }
  }

  /** A store that keeps the schema still keeps it after a save commits. */
  lemma SaveKeepsWellFormed(m: map<Key, Entry>, events: seq<Event>, ids: seq<Ulid>, commandId: string, stamp: Versionstamp)
    requires |ids| == |events|
    requires WellFormed(m)
    ensures WellFormed(ApplyMutations(m, SaveMutations(events, ids, commandId), stamp))
  {
    var mutations := SaveMutations(events, ids, commandId);
    var after := ApplyMutations(m, mutations, stamp);
    SaveMutationsKeepSchema(events, ids, commandId);
    forall k | k in after
      ensures WellFormedValue(k, after[k].value)
    {
      ApplyMutationsAt(m, mutations, stamp, k);
      LastWriteKeepsSchema(mutations, k);
    }
  }

  lemma {:induction false} LastWriteKeepsSchema(mutations: seq<Mutation>, key: Key)
    requires forall j :: 0 <= j < |mutations| ==> WellFormedValue(mutations[j].key, mutations[j].value)
    ensures LastWrite(mutations, key).Some? ==> WellFormedValue(key, LastWrite(mutations, key).value)
    decreases |mutations|
  {
    if mutations != [] {
      LastWriteKeepsSchema(mutations[..|mutations| - 1], key);
    }
  }

  // --------------------------------------------------------------------------
  // Lemmas about the version checks
  // --------------------------------------------------------------------------

  /** The checks hold on the store they were read from: a save that nothing interleaves with
      always commits. */
  lemma SaveChecksHold(m: map<Key, Entry>, events: seq<Event>)
    ensures ChecksPass(m, SaveChecks(m, events))
  {
  }

  /** The checks built on one store hold on another exactly when every stream the events belong to
      has the same version stamp in both. */
  lemma SaveChecksPassIffVersionsUnchanged(read: map<Key, Entry>, now: map<Key, Entry>, events: seq<Event>)
    ensures ChecksPass(now, SaveChecks(read, events))
        <==> forall i :: 0 <= i < |events| ==>
               StampAt(now, StreamVersionKey(events[i].Id())) == StampAt(read, StreamVersionKey(events[i].Id()))
  {
  }

  /** A save whose checks were read before another save committed fails exactly when the two
      share a stream: the other commit's fresh stamp is on the shared stream's version key. */
  lemma {:induction false} InterleavedSaveConflicts(m: map<Key, Entry>, bound: Versionstamp, first: seq<Event>,
                                                    second: seq<Event>, secondIds: seq<Ulid>, commandId: string)
    requires StampsBounded(m, bound)
    requires |secondIds| == |second|
    ensures ChecksPass(ApplyMutations(m, SaveMutations(second, secondIds, commandId), bound + 1), SaveChecks(m, first))
        <==> forall i, j :: 0 <= i < |first| && 0 <= j < |second| ==> first[i].Id() != second[j].Id()
  {
    var after := ApplyMutations(m, SaveMutations(second, secondIds, commandId), bound + 1);
    var checks := SaveChecks(m, first);
    forall i | 0 <= i < |first|
      ensures CheckHolds(after, checks[i]) <==> forall j :: 0 <= j < |second| ==> first[i].Id() != second[j].Id()
    {
      var key := StreamVersionKey(first[i].Id());
      SaveWritesExactly(second, secondIds, commandId, key);
      ApplyMutationsAt(m, SaveMutations(second, secondIds, commandId), bound + 1, key);
    }
  }

  // --------------------------------------------------------------------------
  // Lemmas about what save returns and what fetch then lists
  // --------------------------------------------------------------------------

  /** Once one key of the result loop fails, the loop's outcome is that failure. */
  lemma {:induction false} ReadBackAllFailureStays(m: map<Key, Entry>, keys: seq<Key>, n: nat)
    requires n <= |keys|
    requires ReadBackAll(m, keys[..n]).Failure?
    ensures ReadBackAll(m, keys) == ReadBackAll(m, keys[..n])
    decreases |keys|
  {
    if n == |keys| {
      assert keys[..n] == keys;
    } else {
      var front := keys[..|keys| - 1];
      assert front[..n] == keys[..n];
      ReadBackAllFailureStays(m, front, n);
    }
  }

  /** When every key reads back, the loop returns every result, in order. */
  lemma {:induction false} ReadBackAllSucceeds(m: map<Key, Entry>, keys: seq<Key>, results: seq<VersionedEvent>)
    requires |results| == |keys|
    requires forall i :: 0 <= i < |keys| ==> ReadBack(m, keys[i]) == Success(results[i])
    ensures ReadBackAll(m, keys) == Success(results)
    decreases |keys|
  {
    if keys != [] {
      var n := |keys| - 1;
      ReadBackAllSucceeds(m, keys[..n], results[..n]);
      assert results == results[..n] + [results[n]];
    }
  }

  /** After a save commits, every event it wrote reads back, with the commit's stamp as its
      stream's version. */
  lemma SaveReadsBack(m: map<Key, Entry>, events: seq<Event>, ids: seq<Ulid>, commandId: string, stamp: Versionstamp)
    requires |ids| == |events| && StrictlyIncreasing(ids)
    ensures ReadBackAll(ApplyMutations(m, SaveMutations(events, ids, commandId), stamp), StreamEventKeys(events, ids))
         == Success(Saved(events, ids, commandId, stamp))
  {
    var mutations := SaveMutations(events, ids, commandId);
    var after := ApplyMutations(m, mutations, stamp);
    var keys := StreamEventKeys(events, ids);
    var results := Saved(events, ids, commandId, stamp);
    forall i | 0 <= i < |keys|
      ensures ReadBack(after, keys[i]) == Success(results[i])
    {
      SaveStoresEvent(events, ids, commandId, i);
      ApplyMutationsAt(m, mutations, stamp, keys[i]);
      var versionKey := StreamVersionKey(events[i].Id());
      SaveWritesExactly(events, ids, commandId, versionKey);
      assert SaveWrites(events, ids, versionKey);
      ApplyMutationsAt(m, mutations, stamp, versionKey);
    }
    ReadBackAllSucceeds(after, keys, results);
  }

  /** The values a save stores, in the order of its events. */
  function StoredValues(events: seq<Event>, ids: seq<Ulid>, commandId: string): seq<Value>
    requires |ids| == |events|
  {
    seq(|events|, i requires 0 <= i < |events| => StoredValue(events[i], ids[i], commandId))
  }

  /** A save on one stream adds its ids to the stream's ids and leaves the stream's earlier
      entries as they were. */
  lemma SaveExtendsStream(m: map<Key, Entry>, events: seq<Event>, ids: seq<Ulid>, commandId: string,
                          stamp: Versionstamp, streamId: string)
    requires |ids| == |events|
    requires forall i :: 0 <= i < |events| ==> events[i].Id() == streamId
    requires forall u, i :: u in StreamIds(m, streamId) && 0 <= i < |ids| ==> u < ids[i]
    ensures StreamIds(ApplyMutations(m, SaveMutations(events, ids, commandId), stamp), streamId)
         == StreamIds(m, streamId) + (set u | u in ids)
    ensures forall u :: u in StreamIds(m, streamId) ==>
              Lookup(ApplyMutations(m, SaveMutations(events, ids, commandId), stamp), StreamEventKey(streamId, u))
              == Lookup(m, StreamEventKey(streamId, u))
  {
    var mutations := SaveMutations(events, ids, commandId);
    var after := ApplyMutations(m, mutations, stamp);
    forall u
      ensures u in StreamIds(after, streamId) <==> u in StreamIds(m, streamId) || u in ids
      ensures u in StreamIds(m, streamId) ==> Lookup(after, StreamEventKey(streamId, u)) == Lookup(m, StreamEventKey(streamId, u))
    {
      var key := StreamEventKey(streamId, u);
      StreamIdsMember(m, streamId, u);
      StreamIdsMember(after, streamId, u);
      SaveWritesExactly(events, ids, commandId, key);
      ApplyMutationsAt(m, mutations, stamp, key);
      if u in ids {
        var i :| 0 <= i < |ids| && ids[i] == u;
        assert key == StreamEventKey(events[i].Id(), ids[i]);
      }
    }
  }

  /** The stream's ids after a save on it: the earlier ids, then the save's ids. */
  lemma SaveExtendsStreamOrder(m: map<Key, Entry>, events: seq<Event>, ids: seq<Ulid>, commandId: string,
                               stamp: Versionstamp, streamId: string)
    requires |ids| == |events| && StrictlyIncreasing(ids)
    requires forall i :: 0 <= i < |events| ==> events[i].Id() == streamId
    requires forall u, i :: u in StreamIds(m, streamId) && 0 <= i < |ids| ==> u < ids[i]
    ensures StreamOrder(ApplyMutations(m, SaveMutations(events, ids, commandId), stamp), streamId)
         == StreamOrder(m, streamId) + ids
  {
    var added := set u | u in ids;
    SaveExtendsStream(m, events, ids, commandId, stamp, streamId);
    AscendingUnion(StreamIds(m, streamId), added);
    AscendingUnique(added, ids);
  }

  /** Fetch after save: when a save appends events to one stream, with ids after every id already
      in that stream, fetching the stream lists what it listed before followed by the stored events
      in the order they were saved. */
  lemma SaveAppendsToStream(m: map<Key, Entry>, events: seq<Event>, ids: seq<Ulid>, commandId: string,
                            stamp: Versionstamp, streamId: string)
    requires |ids| == |events| && StrictlyIncreasing(ids)
    requires forall i :: 0 <= i < |events| ==> events[i].Id() == streamId
    requires forall u, i :: u in StreamIds(m, streamId) && 0 <= i < |ids| ==> u < ids[i]
    ensures ValuesOf(StreamListing(ApplyMutations(m, SaveMutations(events, ids, commandId), stamp), streamId))
         == ValuesOf(StreamListing(m, streamId)) + StoredValues(events, ids, commandId)
  {
    var after := ApplyMutations(m, SaveMutations(events, ids, commandId), stamp);
    SaveExtendsStreamOrder(m, events, ids, commandId, stamp, streamId);
    SaveExtendsStream(m, events, ids, commandId, stamp, streamId);
    var earlier := StreamOrder(m, streamId);
    var listed := ValuesOf(StreamListing(after, streamId));
    var expected := ValuesOf(StreamListing(m, streamId)) + StoredValues(events, ids, commandId);
    StreamListingLength(m, streamId);
    StreamListingLength(after, streamId);
    SaveStoresEach(m, events, ids, commandId, stamp, streamId);
    forall j | 0 <= j < |listed|
      ensures listed[j] == expected[j]
    {
      ListingAppendedAt(m, after, streamId, ids, StoredValues(events, ids, commandId), stamp, j);
    }
  }

  /** After a save, each of its stream keys holds the stored event. */
  lemma SaveStoresEach(m: map<Key, Entry>, events: seq<Event>, ids: seq<Ulid>, commandId: string,
                       stamp: Versionstamp, streamId: string)
    requires |ids| == |events| && StrictlyIncreasing(ids)
    requires forall i :: 0 <= i < |events| ==> events[i].Id() == streamId
    ensures forall i :: 0 <= i < |ids| ==>
              Lookup(ApplyMutations(m, SaveMutations(events, ids, commandId), stamp), StreamEventKey(streamId, ids[i]))
              == Some(Entry(StoredValues(events, ids, commandId)[i], stamp))
  {
    var mutations := SaveMutations(events, ids, commandId);
    forall i | 0 <= i < |ids|
      ensures Lookup(ApplyMutations(m, mutations, stamp), StreamEventKey(streamId, ids[i]))
              == Some(Entry(StoredValues(events, ids, commandId)[i], stamp))
    {
      SaveStoresEvent(events, ids, commandId, i);
      ApplyMutationsAt(m, mutations, stamp, StreamEventKey(streamId, ids[i]));
    }
  }

  /** One position of a listing that grew by `added`: an earlier position keeps its value, a new
      one shows the value stored under its id. */
  lemma ListingAppendedAt(m: map<Key, Entry>, after: map<Key, Entry>, streamId: string, added: seq<Ulid>,
                          values: seq<Value>, stamp: Versionstamp, j: nat)
    requires |values| == |added|
    requires StreamOrder(after, streamId) == StreamOrder(m, streamId) + added
    requires forall u :: u in StreamIds(m, streamId) ==> Lookup(after, StreamEventKey(streamId, u)) == Lookup(m, StreamEventKey(streamId, u))
    requires forall i :: 0 <= i < |added| ==> Lookup(after, StreamEventKey(streamId, added[i])) == Some(Entry(values[i], stamp))
    requires j < |StreamOrder(m, streamId)| + |added|
    ensures StreamListing(after, streamId)[j].value == (ValuesOf(StreamListing(m, streamId)) + values)[j]
  {
    var earlier := StreamOrder(m, streamId);
    StreamListingAt(after, streamId, j);
    StreamListingLength(m, streamId);
    if j < |earlier| {
      StreamListingAt(m, streamId, j);
      assert earlier[j] in StreamIds(m, streamId);
    } else {
      assert StreamOrder(after, streamId)[j] == added[j - |earlier|];
    }
  }

  // --------------------------------------------------------------------------
  // The repository
  // --------------------------------------------------------------------------

  /** `DenoEventRepository`: fetches and saves events in a Deno KV store. */
  class DenoEventRepository {
    const kv: Kv

    constructor(kv: Kv)
      ensures this.kv == kv
    {
      this.kv := kv;
    }

    /** `versionProvider(event)`: the current version of the event's stream, if it has one. */
    method VersionProvider(event: Event) returns (version: Option<StreamVersion>)
      ensures version == StreamVersionOf(kv.entries, event.Id())
    {
      var entry := kv.Get(StreamVersionKey(event.Id()));
      if entry.Some? {
        version := Some(StreamVersion(entry.value.versionstamp));
      } else {
        version := None;
      }
    }

    /** `fetch(command)`: the values stored under the command's stream, in key order. */
    method Fetch(command: Command) returns (events: seq<Value>)
      ensures events == ValuesOf(StreamListing(kv.entries, command.Id()))
    {
      var eventList := kv.ListStream(command.Id());
      events := [];
      for i := 0 to |eventList|
        invariant |events| == i
        invariant forall j :: 0 <= j < i ==> events[j] == eventList[j].value
      {
        events := events + [eventList[i].value];
      }
    }

    /** The first half of `save`: the loop that draws an id per event, reads the stream's version
        and adds one check and three writes to the atomic operation. It stops, with `ok` false,
        where the factory throws. */
    method PrepareSave(eList: seq<Event>, commandMetadata: CommandMetadata, draws: seq<Draw>)
      returns (ok: bool, op: AtomicOperation, keys: seq<Key>)
      requires |draws| == |eList|
      ensures fresh(op)
      ensures ok <==> MonotonicUlids(draws).Some?
      ensures ok ==> op.checks == SaveChecks(kv.entries, eList)
      ensures ok ==> op.mutations == SaveMutations(eList, MonotonicUlids(draws).value.ids, commandMetadata.commandId)
      ensures ok ==> keys == StreamEventKeys(eList, MonotonicUlids(draws).value.ids)
    {
      var ulid := new MonotonicUlidFactory();
      keys := [];
      op := new AtomicOperation();
      ghost var ids: seq<Ulid> := [];
      for i := 0 to |eList|
        invariant MonotonicUlids(draws[..i]) == Some(FactoryRun(ids, ulid.State()))
        invariant Preparation(op.checks, op.mutations, keys) == SaveLoop(kv.entries, eList[..i], ids, commandMetadata.commandId)
      {
        MonotonicUlidsStep(draws, i);
        var eventId := ulid.Next(draws[i]);
        if eventId.None? {
          MonotonicUlidsFailureStays(draws, i + 1);
          return false, op, keys;
        }
        var streamEventKey := AddEvent(op, eList[i], eventId.value, commandMetadata);
        keys := keys + [streamEventKey];
        SaveLoopStep(kv.entries, eList, ids, eventId.value, commandMetadata.commandId);
        ids := ids + [eventId.value];
      }
      assert draws[..|eList|] == draws;
      assert eList[..|eList|] == eList;
      SaveLoopCloses(kv.entries, eList, ids, commandMetadata.commandId);
      ok := true;
    }

    /** One round of the loop in `save`: read the event's stream version, then add the check on it
        and the event's three writes to the atomic operation. */
    method AddEvent(op: AtomicOperation, e: Event, eventId: Ulid, commandMetadata: CommandMetadata) returns (streamEventKey: Key)
      modifies op
      ensures op.checks == old(op.checks) + [VersionCheck(StreamVersionKey(e.Id()), StampAt(kv.entries, StreamVersionKey(e.Id())))]
      ensures op.mutations == old(op.mutations) + EventMutations(e, eventId, commandMetadata.commandId)
      ensures streamEventKey == StreamEventKey(e.Id(), eventId)
    {
      streamEventKey := StreamEventKey(e.Id(), eventId);
      var streamVersionKey := StreamVersionKey(e.Id());
      var eventKey := GlobalEventKey(eventId);
      var newEvent := StoredEvent(e, eventId, commandMetadata.commandId);
      var version := VersionProvider(e);
      var versionstamp := if version.Some? then Some(version.value.versionstamp) else None;
      op.Check(VersionCheck(streamVersionKey, versionstamp));
      op.Set(streamEventKey, StoredEventValue(newEvent));
      op.Set(eventKey, StoredEventValue(newEvent));
      op.Set(streamVersionKey, UlidValue(eventId));
    }

    /** The second half of `save`: commit, read the written events back and attach to each its
        stream's current versionstamp. */
    method CompleteSave(op: AtomicOperation, keys: seq<Key>) returns (result: Result<seq<VersionedEvent>, SaveError>)
      requires kv.Valid()
      modifies kv
      ensures kv.Valid()
      ensures ChecksPass(old(kv.entries), op.checks) ==>
                kv.entries == ApplyMutations(old(kv.entries), op.mutations, old(kv.lastStamp) + 1)
                && kv.lastStamp == old(kv.lastStamp) + 1
                && result == ReadBackAll(kv.entries, keys)
      ensures !ChecksPass(old(kv.entries), op.checks) ==>
                kv.entries == old(kv.entries) && kv.lastStamp == old(kv.lastStamp) && result == Failure(SaveFailed)
    {
      var ok := kv.Commit(op);
      if !ok {
        return Failure(SaveFailed);
      }
      var storedEvents := kv.GetMany(keys);
      ghost var committed, stamp := kv.entries, kv.lastStamp;
      var events: seq<VersionedEvent> := [];
      for i := 0 to |storedEvents|
        invariant kv.entries == committed && kv.lastStamp == stamp
        invariant ReadBackAll(kv.entries, keys[..i]) == Success(events)
      {
        assert keys[..i + 1][..i] == keys[..i];
        if storedEvents[i].None? || storedEvents[i].value.value.UlidValue? {
          ReadBackAllFailureStays(kv.entries, keys, i + 1);
          return Failure(EventNotFound);
        }
        var stored := storedEvents[i].value.value.stored;
        var version := VersionProvider(stored.event);
        if version.None? {
          ReadBackAllFailureStays(kv.entries, keys, i + 1);
          return Failure(VersionstampNotFound);
        }
        events := events + [VersionedEvent(stored, version.value.versionstamp)];
      }
      assert keys[..|keys|] == keys;
      result := Success(events);
    }

    /** `save(eList, commandMetadata)` with nothing interleaved: when the factory hands out an id
        for every event it always commits, writes every event and returns each stored event with
        the commit's stamp; when the factory throws, nothing is written. */
    method Save(eList: seq<Event>, commandMetadata: CommandMetadata, draws: seq<Draw>)
      returns (result: Result<seq<VersionedEvent>, SaveError>)
      requires |draws| == |eList|
      requires kv.Valid()
      modifies kv
      ensures kv.Valid()
      ensures MonotonicUlids(draws).None? ==>
                result == Failure(UlidFactoryFailed) && kv.entries == old(kv.entries) && kv.lastStamp == old(kv.lastStamp)
      ensures MonotonicUlids(draws).Some? ==>
                var ids := MonotonicUlids(draws).value.ids;
                && kv.entries == ApplyMutations(old(kv.entries), SaveMutations(eList, ids, commandMetadata.commandId),
                                                old(kv.lastStamp) + 1)
                && kv.lastStamp == old(kv.lastStamp) + 1
                && result == Success(Saved(eList, ids, commandMetadata.commandId, old(kv.lastStamp) + 1))
    {
      ghost var before, stamp := kv.entries, kv.lastStamp + 1;
      ghost var run := MonotonicUlids(draws);
      SaveChecksHold(before, eList);
      MonotonicUlidsIncrease(draws);
      if run.Some? {
        SaveReadsBack(before, eList, run.value.ids, commandMetadata.commandId, stamp);
      }
      var ok, op, keys := PrepareSave(eList, commandMetadata, draws);
      if !ok {
        return Failure(UlidFactoryFailed);
      }
      ghost var checks, mutations := op.checks, op.mutations;
      assert ChecksPass(before, checks);
      result := CompleteSave(op, keys);
      assert op.checks == checks && op.mutations == mutations;
    }
  }

  // --------------------------------------------------------------------------
  // Two clients of the repository
  // --------------------------------------------------------------------------

  /** A save that another save on a shared stream overtakes between reading the versions and
      committing fails with "Failed to save event" and writes nothing. */
  method OvertakenSave(repository: DenoEventRepository,
                       first: seq<Event>, firstMetadata: CommandMetadata, firstDraws: seq<Draw>,
                       second: seq<Event>, secondMetadata: CommandMetadata, secondDraws: seq<Draw>)
    returns (firstResult: Result<seq<VersionedEvent>, SaveError>, secondResult: Result<seq<VersionedEvent>, SaveError>)
    requires repository.kv.Valid()
    requires |firstDraws| == |first| && |secondDraws| == |second|
    requires exists i, j :: 0 <= i < |first| && 0 <= j < |second| && first[i].Id() == second[j].Id()
    modifies repository.kv
    ensures MonotonicUlids(firstDraws).None? ==> firstResult == Failure(UlidFactoryFailed)
    ensures MonotonicUlids(secondDraws).Some? ==>
              && secondResult.Success?
              && repository.kv.entries
                 == ApplyMutations(old(repository.kv.entries),
                                   SaveMutations(second, MonotonicUlids(secondDraws).value.ids, secondMetadata.commandId),
                                   old(repository.kv.lastStamp) + 1)
    ensures MonotonicUlids(firstDraws).Some? && MonotonicUlids(secondDraws).Some? ==> firstResult == Failure(SaveFailed)
  {
    var ok, op, keys := repository.PrepareSave(first, firstMetadata, firstDraws);
    ghost var checks, secondRun := op.checks, MonotonicUlids(secondDraws);
    secondResult := OvertakingSave(repository, first, second, secondMetadata, secondDraws);
    ghost var overtaken := repository.kv.entries;
    assert op.checks == checks;
    if !ok {
      firstResult := Failure(UlidFactoryFailed);
      return;
    }
    if secondRun.Some? {
      assert !ChecksPass(overtaken, checks);
    }
    firstResult := repository.CompleteSave(op, keys);
    assert secondRun.Some? ==> repository.kv.entries == overtaken && firstResult == Failure(SaveFailed);
  }

  /** The overtaking save: it commits when its factory hands out its ids, and then the checks
      another save on a shared stream read before it no longer hold. */
  method OvertakingSave(repository: DenoEventRepository, first: seq<Event>,
                        second: seq<Event>, secondMetadata: CommandMetadata, secondDraws: seq<Draw>)
    returns (secondResult: Result<seq<VersionedEvent>, SaveError>)
    requires repository.kv.Valid()
    requires |secondDraws| == |second|
    requires exists i, j :: 0 <= i < |first| && 0 <= j < |second| && first[i].Id() == second[j].Id()
    modifies repository.kv
    ensures repository.kv.Valid()
    ensures MonotonicUlids(secondDraws).None? ==>
              secondResult == Failure(UlidFactoryFailed) && repository.kv.entries == old(repository.kv.entries)
              && repository.kv.lastStamp == old(repository.kv.lastStamp)
    ensures MonotonicUlids(secondDraws).Some? ==>
              && secondResult.Success?
              && repository.kv.entries
                 == ApplyMutations(old(repository.kv.entries),
                                   SaveMutations(second, MonotonicUlids(secondDraws).value.ids, secondMetadata.commandId),
                                   old(repository.kv.lastStamp) + 1)
              && !ChecksPass(repository.kv.entries, SaveChecks(old(repository.kv.entries), first))
  {
    if MonotonicUlids(secondDraws).Some? {
      InterleavedSaveConflicts(repository.kv.entries, repository.kv.lastStamp, first, second,
                               MonotonicUlids(secondDraws).value.ids, secondMetadata.commandId);
    }
    secondResult := repository.Save(second, secondMetadata, secondDraws);
  }

  /** Saving the events of one stream and fetching the stream lists them after the earlier ones,
      when their ids come after the ids already in the stream. */
  method SaveThenFetch(repository: DenoEventRepository, command: Command, events: seq<Event>,
                       commandMetadata: CommandMetadata, draws: seq<Draw>)
    returns (saved: Result<seq<VersionedEvent>, SaveError>, fetched: seq<Value>)
    requires repository.kv.Valid()
    requires |draws| == |events|
    requires forall i :: 0 <= i < |events| ==> events[i].Id() == command.Id()
    requires MonotonicUlids(draws).Some? ==>
               forall u, i :: u in StreamIds(repository.kv.entries, command.Id()) && 0 <= i < |draws| ==>
                 u < MonotonicUlids(draws).value.ids[i]
    modifies repository.kv
    ensures MonotonicUlids(draws).None? ==>
              saved == Failure(UlidFactoryFailed) && fetched == ValuesOf(StreamListing(old(repository.kv.entries), command.Id()))
    ensures MonotonicUlids(draws).Some? ==>
              && saved.Success? && |saved.value| == |events|
              && fetched == ValuesOf(StreamListing(old(repository.kv.entries), command.Id()))
                            + StoredValues(events, MonotonicUlids(draws).value.ids, commandMetadata.commandId)
  {
    saved := repository.Save(events, commandMetadata, draws);
    MonotonicUlidsIncrease(draws);
    if MonotonicUlids(draws).Some? {
      SaveAppendsToStream(old(repository.kv.entries), events, MonotonicUlids(draws).value.ids, commandMetadata.commandId,
                          old(repository.kv.lastStamp) + 1, command.Id());
    }
    fetched := repository.Fetch(command);
  }
}
