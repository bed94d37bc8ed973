# Restaurant and order event sourcing, modelled in Dafny

This project models the core of a small event-sourced restaurant application written in
TypeScript for Deno on the fmodel library. Its four core pieces are modelled:

- **The domain** (`lib/api.ts`, `lib/domain.ts`). Commands, events and reasons are tagged
  unions. Two deciders (restaurant, order) turn a command and the current state into events
  and fold events into state. Two views fold the same events into query state. A rule
  violation is never an error: it is an ordinary "Not…" event that carries a reason and leaves
  the state alone. Modules `Api`, `StateMachine` and `Domain`.
- **The combined decider** the application builds from the two deciders. Module `Combined`.
  Its routing by the `decider` tag is an assumption, because the combinator lives in the
  fmodel library.
- **The given/when/then test harness** (`test_specification.ts`). A scenario folds the given
  events from the initial state, decides the command and compares the result. Modules
  `Specification` and `DomainScenarios`. The second holds the domain test scenarios as lemmas.
- **The event repository** (`lib/infrastructure.ts`). `DenoEventRepository` stores events in
  Deno KV under three kinds of key:
  - a per-stream version key;
  - a per-stream event key;
  - a global event key.

  `save` appends a batch in one atomic operation, guarded by an optimistic check on each
  stream's version. The store is modelled in module `DenoKv` as a class over a map from keys to
  (value, versionstamp), with a stamp counter that advances on every successful commit. ULIDs
  are modelled in module `Ulids` as the number `time * 2^80 + random` their string form sorts
  by. They come from a class that follows the `ulid` package's monotonic factory. A call in a
  millisecond no later than the last one hands out the last id plus one, and throws when the
  random part cannot be incremented. A call in a later millisecond hands out the clock reading
  with a fresh random part. The
  repository is a class in module `Infrastructure`, with methods and loop invariants that
  follow the source loop by loop.

Where the repository awaits, the model takes the steps in order. The clock and random source
behind a ULID become a parameter: `draws`, one clock reading and random part per event. `save` reads each stream's
expected version itself, just before it adds the check. A `save` that runs alone therefore
always commits. Its check fails only when another writer commits between that read and the
commit. `Infrastructure.OvertakenSave` models that window, with `save` split into
`PrepareSave` (the loop) and `CompleteSave` (commit and read-back).

## Model

| member | source | states |
|---|---|---|
| Api.ReasonTextInjective | lib/api.ts:11-15 | the four reasons are four distinct strings |
| Api.Command.DeciderTag | lib/api.ts:44-70 | every command's `decider` tag is "Restaurant" or "Order" |
| Api.Event.DeciderTag | lib/api.ts:74-141 | every event's `decider` tag is "Restaurant" or "Order" |
| Api.CommandTagDeterminesDomain | lib/api.ts:211-212 | a command's `decider` tag alone determines its sub-domain, both directions |
| Api.EventTagDeterminesDomain | lib/api.ts:213-214 | an event's `decider` tag alone determines its sub-domain, both directions |
| Api.RestaurantEventKindDiscriminates | lib/api.ts:74-141 | two restaurant events have the same `kind` exactly when they are the same variant; same `kind` means the same rejection status |
| Api.OrderEventKindDiscriminates | lib/api.ts:167-209 | two order events have the same `kind` exactly when they are the same variant; same `kind` means the same rejection status |
| Api.RestaurantCommandKindDiscriminates | lib/api.ts:44-70 | two restaurant commands have the same `kind` exactly when they are the same variant |
| Api.OrderCommandKindDiscriminates | lib/api.ts:149-163 | two order commands have the same `kind` exactly when they are the same variant |
| Domain.RestaurantDecide | lib/domain.ts:43-126 | each command gives exactly one event, on the command's id, with version 1 and final false, copying the command's payload. It is a rejection exactly when the rule refuses the command, and a rejection carries the matching reason |
| Domain.RestaurantEvolveEffect | lib/domain.ts:128-154 | creation replaces the state wholesale; a menu change replaces only the menu of an existing state and keeps null as null; every other event is the identity |
| Domain.RestaurantRejectionIsInert | lib/domain.ts:132-147 | removing a rejection event from anywhere in a history leaves the rebuilt state unchanged |
| Domain.RestaurantExistsIffCreated | lib/domain.ts:128-155 | the rebuilt restaurant exists exactly when the history holds a creation event |
| Domain.RestaurantStateHasIdentity | lib/domain.ts:130-131 | every restaurant rebuilt from events has an id |
| Domain.CreateRestaurantIsOnce | lib/domain.ts:45-70 | after a creation command's outcome is recorded, the same command is rejected with "Restaurant already exist!" |
| Domain.MenuChangeTakesEffect | lib/domain.ts:71-83 | an accepted menu change, once recorded, leaves the restaurant with the new menu and its own id and name |
| Domain.PlaceOrderKeepsRestaurant | lib/domain.ts:95-120 | placing an order, accepted or not, never changes the restaurant state |
| Domain.RestaurantViewMatchesDecider | lib/domain.ts:179-209 | the restaurant view starts from null like the decider, its `evolve` agrees with the decider's on every state and event, and it rebuilds the same state from every history |
| Domain.OrderDecide | lib/domain.ts:237-291 | each command gives exactly one event, on the command's id, with version 1 and final false. It is a rejection exactly when the rule refuses the command, with the matching reason |
| Domain.OrderEvolveEffect | lib/domain.ts:292-320 | creation builds a CREATED order from the event; preparation sets PREPARED on an existing order and keeps the rest, null stays null; rejections are the identity |
| Domain.OrderRejectionIsInert | lib/domain.ts:301-313 | removing a rejection event from anywhere in a history leaves the rebuilt order unchanged |
| Domain.OrderExistsIffCreated | lib/domain.ts:292-321 | the rebuilt order exists exactly when the history holds a creation event |
| Domain.OrderStateIsCreatedOrPrepared | lib/domain.ts:294-311 | every order rebuilt from events has an id and a status other than NOT_CREATED |
| Domain.CreateOrderIsOnce | lib/domain.ts:239-263 | after a creation command's outcome is recorded, the same command is rejected with "Order already exist!" |
| Domain.CreatedOrderCanBePrepared | lib/domain.ts:264-311 | a freshly created order is accepted for preparation and then is PREPARED with its restaurant and items |
| Domain.PrepareKeepsOrder | lib/domain.ts:264-311 | marking as prepared never loses an order or changes its id, restaurant or items; an accepted one becomes PREPARED |
| Domain.OrderViewMatchesDecider | lib/domain.ts:346-380 | the order view starts from null like the decider, its `evolve` agrees with the decider's on every state and event, and it rebuilds the same state from every history |
| StateMachine.FoldConcat | test_specification.ts:39-42 | folding `xs + ys` is folding `ys` from the state `xs` reached |
| StateMachine.FoldSnoc | test_specification.ts:97-100 | folding one more event applies `evolve` to the state the history reached |
| StateMachine.FoldAgrees | test_specification.ts:97-100 | evolve functions that agree everywhere rebuild the same state from every history |
| StateMachine.FoldPreserves | test_specification.ts:39-42 | a property every event preserves holds of every rebuilt state |
| Specification.DeciderHandle | test_specification.ts:38-44 | handling never throws, and with no given events it is `decide(command, initialState)` |
| Specification.DeciderThenSplits | test_specification.ts:38-51 | `then` passes exactly when deciding on the state folded in two parts gives the expected events, in order |
| Specification.ViewHandle | test_specification.ts:96-101 | the view harness never throws, and with no given events it yields the initial state |
| Specification.ViewThenSplits | test_specification.ts:96-107 | `then` passes exactly when the state folded in two parts equals the expected state |
| Specification.DeciderThenThrowsPassesWithoutThrow | test_specification.ts:52-59 | as written, `thenThrows` passes on a decider that returns normally |
| Specification.ViewThenThrowsPassesWithoutThrow | test_specification.ts:108-115 | as written, the view harness's `thenThrows` passes on a view that returns normally |
| Specification.ThenThrowsAsWrittenJudgesOwnError | test_specification.ts:52-59 | as written, with a check, `thenThrows` on a non-throwing handler passes exactly when the check accepts "Handler did not fail as expected" |
| Specification.ThenThrowsNeverPasses | test_specification.ts:52-59 | as intended, `thenThrows` never passes for a total decider or view |
| DomainScenarios.CreateRestaurantScenario | lib/domain_test.ts:198-216 | given nothing, creating a restaurant yields the expected creation event |
| DomainScenarios.CreateRestaurantTwiceScenario | lib/domain.ts:59-70 | given a creation, creating again yields the "Restaurant already exist!" rejection |
| DomainScenarios.ChangeRestaurantMenuScenario | lib/domain_test.ts:219-243 | given a creation, a menu change yields the menu-changed event |
| DomainScenarios.ChangeMenuOfMissingRestaurantScenario | lib/domain.ts:84-94 | given nothing, a menu change yields the "Restaurant does not exist!" rejection |
| DomainScenarios.PlaceOrderScenario | lib/domain_test.ts:246-270 | given a creation, placing an order yields the order-placed event |
| DomainScenarios.PlaceOrderWithoutRestaurantScenario | lib/domain_test.ts:273-292 | given nothing, placing an order yields the not-placed event |
| DomainScenarios.CreateOrderScenario | lib/domain_test.ts:295-313 | given nothing, creating an order yields the order-created event |
| DomainScenarios.MarkOrderAsPreparedScenario | lib/domain_test.ts:316-339 | given a created order, marking it prepared yields the order-prepared event |
| DomainScenarios.RestaurantCreatedViewScenario | lib/domain_test.ts:345-366 | the restaurant view of one creation event is that restaurant |
| DomainScenarios.RestaurantMenuChangedViewScenario | lib/domain_test.ts:369-396 | the restaurant view after creation and a menu change has the new menu |
| DomainScenarios.OrderPreparedViewScenario | lib/domain_test.ts:399-421 | the order view after creation and preparation is the PREPARED order |
| Combined.Decide | lib/api.ts:211-214 | every command yields one event, of its own sub-domain's tag, on its own id |
| Combined.Evolve | lib/api.ts:211-214 | an event changes only its own sub-domain's slice of the combined state |
| Combined.FoldSplitsBySubdomain | application.ts:19 | with the combined evolve assumed to route each event by its `decider` tag, folding a mixed history folds each slice over its own sub-domain's events only |
| Combined.DecideSeesOnlyOwnEvents | lib/api.ts:211-214 | with the combined decider assumed to route by the `decider` tag, deciding on a mixed history is deciding with the routed decider on its own events |
| Ulids.NextUlid | lib/infrastructure.ts:76-83 | a call in a millisecond no later than the last one hands out the last id plus one, and throws exactly there when there is no last random part or it is the largest; a later millisecond hands out the drawn time and random part; every id is above the previous one |
| Ulids.MonotonicUlids | lib/infrastructure.ts:76-83 | a factory that does not throw hands out one id per call, the last of which it remembers |
| Ulids.MonotonicUlidsIncrease | lib/infrastructure.ts:76-83 | the ids one factory hands out strictly increase in call order, whatever the clock reads |
| Ulids.MonotonicUlidsFailureStays | lib/infrastructure.ts:82-83 | once a call throws, the whole run of calls has failed, whatever the later draws |
| Ulids.MonotonicUlidsWithinMillisecond | lib/infrastructure.ts:76-83 | when no call reads a clock past the first call's, the ids count up by one from the first |
| Ulids.MonotonicUlidFactory.constructor | lib/infrastructure.ts:76 | a new factory has last time 0 and no last random part |
| Ulids.MonotonicUlidFactory.Next | lib/infrastructure.ts:83 | one factory call throws exactly when `NextUlid` does; otherwise it returns the id `NextUlid` hands out and remembers its state |
| Ulids.AscendingUnion | lib/infrastructure.ts:56-58 | ids all above a set's ids are listed after them in key order |
| DenoKv.ApplyMutationsAt | lib/infrastructure.ts:95-102 | after a batch of writes each key holds its last write with the commit's stamp, and an unwritten key is unchanged |
| DenoKv.ApplyMutationsBounded | lib/infrastructure.ts:108 | a commit with the next stamp keeps every stamp at most the counter |
| DenoKv.StreamIdsMember | lib/infrastructure.ts:55-58 | an id is in a stream exactly when its stream event key is stored |
| DenoKv.StreamListingIsSortedAndComplete | lib/infrastructure.ts:55-58 | a prefix listing holds exactly the stream's event keys, in increasing id order |
| DenoKv.AtomicOperation.Check | lib/infrastructure.ts:96-99 | a check is appended to the operation; writes are unchanged |
| DenoKv.AtomicOperation.Set | lib/infrastructure.ts:100-102 | a write is appended to the operation; checks are unchanged |
| DenoKv.Kv.Get | lib/infrastructure.ts:46 | returns the entry exactly when the key is stored |
| DenoKv.Kv.GetMany | lib/infrastructure.ts:113 | returns one lookup per key, in key order |
| DenoKv.Kv.ListStream | lib/infrastructure.ts:56-58 | returns the stream's entries in increasing id order, by repeated selection of the least remaining id |
| DenoKv.Kv.Commit | lib/infrastructure.ts:108-110 | succeeds exactly when every check holds; then it applies all writes with a fresh stamp, otherwise it changes nothing |
| Infrastructure.StreamVersionOf | lib/infrastructure.ts:44-48 | a stream has a version exactly when its version key is stored, and the version is that key's stamp |
| Infrastructure.SaveChecks | lib/infrastructure.ts:92-99 | one check per event, on the event's stream version key, expecting the stamp read before the commit |
| Infrastructure.SaveMutations | lib/infrastructure.ts:95-102 | three writes per event |
| Infrastructure.SaveMutationsKeepSchema | lib/infrastructure.ts:84-102 | every write of a save puts a stored event under an event key and an id under a version key |
| Infrastructure.StreamEventKeys | lib/infrastructure.ts:84-105 | the keys to read back are the events' stream event keys, in input order |
| Infrastructure.SaveLoopCloses | lib/infrastructure.ts:82-106 | the save loop, run over all events, builds exactly `SaveChecks`, `SaveMutations` and `StreamEventKeys` over the factory's ids |
| Infrastructure.SaveWritesExactly | lib/infrastructure.ts:95-102 | a save writes a key exactly when it is a version, stream event or global event key of one of its events |
| Infrastructure.SaveStoresEvent | lib/infrastructure.ts:84-101 | each event is stored under its stream event key and its global key, with its id and the command id |
| Infrastructure.SaveSetsStreamVersion | lib/infrastructure.ts:102 | the version key of a stream ends up holding the id of the stream's last event in the batch |
| Infrastructure.SaveKeepsWellFormed | lib/infrastructure.ts:84-102 | a save keeps the key schema: event keys hold stored events and version keys hold ids |
| Infrastructure.LastWriteKeepsSchema | lib/infrastructure.ts:95-102 | the last write to a key respects the schema when every write does |
| Infrastructure.SaveChecksHold | lib/infrastructure.ts:92-99 | checks built on a store hold on that same store |
| Infrastructure.SaveChecksPassIffVersionsUnchanged | lib/infrastructure.ts:92-108 | checks read earlier hold later exactly when no stream of the batch has a new version stamp |
| Infrastructure.InterleavedSaveConflicts | lib/infrastructure.ts:92-110 | a save whose checks were read before another save committed fails exactly when the two share a stream |
| Infrastructure.ReadBackAllFailureStays | lib/infrastructure.ts:117-126 | the first failing stored event decides the error of the result loop |
| Infrastructure.ReadBackAllSucceeds | lib/infrastructure.ts:116-130 | when every key reads back, the result holds them all in key order |
| Infrastructure.SaveReadsBack | lib/infrastructure.ts:113-130 | after a committed save every key reads back, giving each event with its id, command id and the commit's stamp |
| Infrastructure.SaveExtendsStream | lib/infrastructure.ts:84-100 | a save adds exactly its ids to its stream and leaves the stream's earlier events as they were |
| Infrastructure.SaveExtendsStreamOrder | lib/infrastructure.ts:76-100 | with ids above the stream's earlier ids, the stream's key order is the old order followed by the new ids |
| Infrastructure.SaveStoresEach | lib/infrastructure.ts:84-100 | every event of a one-stream save is under its stream event key with the commit's stamp |
| Infrastructure.SaveAppendsToStream | lib/infrastructure.ts:52-100 | a fetch after such a save lists the stream's earlier values followed by the new stored values, in input order |
| Infrastructure.DenoEventRepository.constructor | lib/infrastructure.ts:37-40 | the repository wraps the given store |
| Infrastructure.DenoEventRepository.VersionProvider | lib/infrastructure.ts:44-48 | returns the stamp of the stream's version key, or none when it is absent |
| Infrastructure.DenoEventRepository.Fetch | lib/infrastructure.ts:52-65 | returns exactly the values of the command's stream, in key order |
| Infrastructure.DenoEventRepository.PrepareSave | lib/infrastructure.ts:76-106 | fails exactly when a factory call throws; otherwise builds exactly the checks, writes and read-back keys of `SaveChecks`, `SaveMutations` and `StreamEventKeys` over the factory's ids |
| Infrastructure.DenoEventRepository.AddEvent | lib/infrastructure.ts:84-105 | adds one event's check and three writes, and returns its stream event key |
| Infrastructure.DenoEventRepository.CompleteSave | lib/infrastructure.ts:107-130 | fails with "Failed to save event" and writes nothing when a check fails; otherwise applies all writes with one fresh stamp and returns the read-back result |
| Infrastructure.DenoEventRepository.Save | lib/infrastructure.ts:71-131 | alone, a save whose factory hands out its ids commits all its writes with one fresh stamp and returns every event with its id, command id and that stamp, in input order; when a factory call throws it fails and writes nothing |
| Infrastructure.OvertakenSave | lib/infrastructure.ts:92-110 | a save overtaken by a commit on a shared stream fails with "Failed to save event", and only the overtaking save's writes are in the store; a save whose factory throws fails with that error |
| Infrastructure.OvertakingSave | lib/infrastructure.ts:92-110 | the overtaking save commits when its factory hands out its ids, and the checks read before it then no longer hold; otherwise it fails and writes nothing |
| Infrastructure.SaveThenFetch | lib/infrastructure.ts:52-131 | a save to one stream followed by a fetch lists the earlier values followed by the saved events, in input order; when the factory throws the fetch lists the earlier values only |

## Left out

- HTTP transport, the client, console logging, `Deno.openKv` start-up and the root-level
  application modules: I/O with no logic of the core.
- fmodel's `Decider.combine`, `EventSourcingAggregate` and `MaterializedView`: their source is not
  part of this model. `Combined` routes by the `decider` tag as an assumption.
- Combined.State: the combined state is a pair of optional restaurant and order states. The
  application types it as one merged record `(Restaurant & Order) | null` (application.ts:19),
  in which the two sub-states share the `restaurantId` field. How fmodel's `combine` merges them
  is not part of this model, so the model keeps the two slices apart.
- Specification.DeciderHandle, Specification.ViewHandle: the harness's path where `decide` or
  `evolve` throws is not modelled, because every decider and view of the domain is total; a
  handler result is always `Success`.
- `async`/`await`: every call is one sequential step. The only interleaving modelled is one
  other save committing between `save`'s version reads and its commit (`OvertakenSave`).
- The ULID string form (Crockford base 32): an id is the number its string sorts by, and the
  clock and random source are the `draws` parameter.
- Ulids.NextUlid: the clock reading is an unbounded natural, so the `ulid` package's error for a
  time above 2^48 - 1 is not modelled; an id is below 2^128 only while the clock stays in range.
- Infrastructure.SaveError.Message: a failing factory call surfaces the `ulid` package's own
  error, whose text is not part of this model, so `UlidFactoryFailed` has no message.
- Zod parsing of the test fixtures: the scenario lemmas state the fixture values directly.
- Prices, names and ids: plain strings, with no arithmetic or format checks.
- Ulids.MonotonicUlids: it promises increase only within one save, because the source creates a
  new factory per `save` call. Two saves in the same millisecond can therefore hand out ids
  below those already in a stream. `SaveThenFetch` and `SaveAppendsToStream` require the new ids
  to be above the stream's earlier ids.
- DenoKv.Kv.Commit: a commit with no writes still advances the stamp counter. Deno KV's real
  versionstamps are 80-bit strings, modelled as naturals that only need to grow.
- Infrastructure.DenoEventRepository.Fetch: returns the stored values as they are: event plus
  `eventId` and `commandId`, without the `versionstamp` field its declared type promises.
- Infrastructure.ReadBack: a version-key value found under a stream event key reads as "Event
  not found". The source would fail differently there, but `SaveKeepsWellFormed` shows that a
  store written only by `save` never holds one.
- Infrastructure.DenoEventRepository.Save: its contract covers a save with nothing interleaved.
  The interleaved case is stated by `OvertakenSave` for one overtaking save.
- Key encoding: Deno KV keys are tuples of strings ordered byte-wise. Here a key is a datatype
  and the order within a stream is the order of ids.

## Findings

| source | as written | input that shows it | evidently intended | confidence | as-written member | corrected member |
|---|---|---|---|---|---|---|
| test_specification.ts:52-59 | `thenThrows` throws "Handler did not fail as expected" inside its own `try`, so its own `catch` swallows that error. With no check the scenario passes; with a check, the check is applied to the harness's own error | any decider scenario whose handler returns normally, e.g. `given([]).when(createRestaurantCommand).thenThrows()` | `thenThrows` passes only when the handler throws an error the check accepts; for the total domain deciders and views it never passes | not executed | Specification.DeciderThenThrowsPassesWithoutThrow | Specification.ThenThrowsNeverPasses |
