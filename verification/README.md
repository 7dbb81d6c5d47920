# Historical Datastore: verified model

The historical datastore keeps time series for registered data streams. This project models
its core and proves what it keeps, and exactly when:

- the **MQTT connector** (`data/mqtt.go`): one client per broker, one subscription per topic
  with a reference count, a table of registrations that wait for a retry, a cache of streams;
- the **registry** (`registry/`): two interchangeable backends, in memory and on LevelDB, whose
  `Add`, `Update` and `Delete` reach the data store and the connector through a sequential
  fan-out that stops at the first error;
- **ingestion** (`data/http.go`, `data/mqtt.go`, `data/lightdb.go`): records are checked against
  the type of their stream and grouped by stream before they are stored;
- **paged retrieval**: following the `nextLink`s of a query down to the cursor of the store
  (`vendor/github.com/dschowta/lite.tsdb`), the pages and filters of the registry, and the
  sharing of a page among several sources (`common/pagination.go`).

Code that changes things in place is modelled by classes (`Connector.dfy`, `Events.dfy`,
`Memory.dfy`, `LevelDB.dfy`, `Lightdb.dfy`, and methods in `Cursor.dfy`, `Http.dfy`,
`PerItem.dfy`, `Validation.dfy`) with the source's fields and loops. Each method is proved to do
what a function on values says (`ConnectorSpec`, `EventsSpec`, `RegistrySpec`, `LightdbSpec`,
`IngestSpec`, `Cursor`, `QueryWalk`), and the properties of whole runs are proved of those
functions. Every call to a broker or to the store takes its answer as a parameter, so each
result holds for any pattern of errors and refusals of calls that are answered.

## Main results

- **Exact reference counts.** `Machine` is the service over the memory registry as a state
  machine. An `Add`, `Update` or `Delete` is two steps (the handlers, then the registry's own
  write), and so is a message (its check, then the write of its records); retry passes, messages,
  lost connections and other `Add`s come in between.
  `ExactRuns.RunExact`: throughout a run the counts equal the registered streams that are not
  waiting if and only if every step meets its guard, a condition on the state before the step.
  `LevelRuns.LifetimeExact` is the same for LevelDB, from the start of the process on. That
  registry has no lock, so there Adds, Updates and Deletes come in between each other's halves as
  well.
- **Every run from a fresh process** (`Lifetime.EveryRun`): what holds whatever fails, and the
  exact condition of what does not.
- **The broker's view.** A broker may refuse any topic, and the on-connect handler may overtake an
  Unsubscribe that waits for a reconnect. `BrokerView.RunHosted` and `BrokerView.RunAgrees`, and on
  LevelDB `LevelView.LifetimeView`, say exactly when no session holds a topic too many and, once
  restored, none too few; then a restored session holds exactly the topics somebody asks for
  (`BrokerView.RestoredSessionsServeTheRegistry`, `LevelView.RestoredSessionsServeTheEntries`), each
  at the QoS of its subscription. `Qos.RunQos` and `LevelQos.LifetimeQos`: that is the QoS of the
  stream that opened it.
- **Type safety and the cache.** `TypeSafety.RunSafe` and `LevelTypes.RunTyped`: over runs from any
  data store the stored records keep the registered types exactly while each action meets its
  guard; the cache changes nothing exactly while no cached source is stale
  (`TypeSafety.CacheIsTransparent`, `TypeSafety.RunFresh`, `LevelTypes.RunKeepsSources`).
- **Paging.** `QueryWalk.FollowingLinks`: when following the links delivers what one unpaged query
  would, in both orders. `Links.ParametersAre` and `Links.BareRequest` say what a request asks for in
  the first place. `Links.LinkRoundTrip`, `PerItem.WindowsTile` and `Backends.RunsInLockstep` are the
  others.
- **What is accepted and answered**, in the fields of the records and streams themselves:
  `Http.Submit`, `IngestSpec.VerdictIs` and `IngestSpec.KeptIs` for messages, and the lemmas of
  `Answers` for every operation of both registries.

## Where the code falls short

Each of these is a run the service can take (`Spoilers.dfy`). A guard of the if-and-only-if
results above, or the condition of `QueryWalk.FollowingLinks`, names the whole family it belongs to:

- an Add the connector refuses leaves its series in the data store (`registry/memory.go:46-50`,
  `main.go:98-100`), which refuses every later Add of the name
  (`vendor/github.com/dschowta/lite.tsdb/databoltdb.go:47-58`);
- when Unsubscribe fails, a subscription without receivers stays (`data/mqtt.go:185-187`);
- a topic the broker refuses in the SUBACK is no error to the client library
  (`vendor/github.com/eclipse/paho.mqtt.golang/net.go:239-250`) and counts as subscribed
  (`data/mqtt.go:160-163`), so an Add succeeds and a session that has been restored goes on without
  the topic;
- `onConnectHandler` takes no lock (`data/mqtt.go:201-210`) and an Unsubscribe made while the client
  reconnects waits (`vendor/github.com/eclipse/paho.mqtt.golang/client.go:605-617`): the handler
  may subscribe the topic again behind it, and the broker then delivers it for nobody;
- a stream that asks for a topic already subscribed gets it at the QoS of the stream that opened the
  subscription, whatever its own (`data/mqtt.go:166-168`);
- an Update whose new source cannot be subscribed leaves the stream with no subscription and not
  waiting (`data/mqtt.go:336-350`);
- deleting a waiting stream takes a receiver off somebody else's subscription, or dereferences
  nil (`data/mqtt.go:176-181`);
- the cache is flushed when the retention changes but not when the source does
  (`data/mqtt.go:331-333`), so messages of the new source are dropped and those of the old one
  still taken;
- a message checked before its stream is deleted and written after it (`data/http.go:77-113`) leaves
  a series whose name can never be registered again or, if the name has been added meanwhile,
  records of another type in it;
- LevelDB's Update shows the listeners one object as both the old and the new stream
  (`registry/leveldb.go:122-131`), so a moved source is never resubscribed and the cache never
  flushed, and its Add keeps an entry whose handlers failed (`registry/leveldb.go:92-102`);
- on LevelDB a Delete that comes between the entry and the handlers of an Add leaves a topic
  subscribed for nobody, and a record taken between the halves of a Delete comes back under the
  next stream of the name, whatever its type (`registry/leveldb.go:92-99`,
  `registry/leveldb.go:159-165`); a Delete that comes between the halves of an Update is undone,
  without a series and without a subscription (`registry/leveldb.go:110-142`);
- a descending query whose end lies between two records begins with the one after it
  (`vendor/github.com/dschowta/lite.tsdb/databoltdb.go:152-155`);
- a query that names no start and ends before 1970 gives every record, since the keys of the store
  are unsigned (`vendor/github.com/dschowta/lite.tsdb/databoltdb.go:32-38`);
- a `nextLink` is printed to the whole second and an empty range is refused
  (`data/http.go:237-240`, `data/http.go:366-368`): with a page boundary inside a second the links
  lead back to the same page for ever, or descending leave records out, and a last record
  exactly at the far end is never delivered when it is alone on its page, although the API
  promises a link to the next page (`apidoc/swagger.yaml:285-287`).

One more lies outside the model, in which every call is answered: the registry accepts a source
with an empty topic, a misplaced `#` or a QoS above 2, for which Subscribe returns a token that never
completes (`vendor/github.com/eclipse/paho.mqtt.golang/client.go:555-558`). The Add of such a stream
to a connected broker waits for ever, with the connector's lock held (`data/mqtt.go:160`).

## Model

| member | source | states |
|---|---|---|
| Lifetime.EveryRun | main.go:86-118 | over every run of a process with the memory registry, from any data store: the cache is coherent and no manager is empty; and throughout: records of registered streams have their types iff none is registered over others or written late (never, if no stream is deleted between the check and the write of a message for it), every count is at least 1 iff no last Unsubscribe is unanswered, the counts are exact iff each Update and Delete meets its guard, no session holds a dropped topic iff no Unsubscribe is overtaken, restored sessions are complete as well iff none is refused a new topic, and the cache makes no difference iff no Update leaves it stale |
| Lifetime.WritesKeep | registry/memory.go:46-59 | from there the guard of an Add's write follows from the others: the store refuses a second series of a name, so its name is still free |
| Lifetime.AddSucceeds | registry/memory.go:38-63 | an Add in memory succeeds exactly when name and type are valid, the name is free in the registry and in the store, and the store and, for a source, the broker answer |
| Lifetime.LevelAddSucceeds | registry/leveldb.go:76-106 | the same for LevelDB |
| Lifetime.RefusedAddIsForGood | registry/memory.go:46-50 | an Add of a free name that the connector refuses makes the name impossible to register in every run that follows |
| Lifetime.OrphanIsForGood | vendor/github.com/dschowta/lite.tsdb/databoltdb.go:47-58 | a series without a stream is never deleted or adopted in any run, and never written unless a message for it has been checked already |
| Lifetime.LateWriteIsForGood | data/http.go:112-116 | a message written after the Delete of its stream makes the name impossible to register in every run that follows |
| ExactRuns.RunExact | data/mqtt.go:113-199 | over whole runs with interleaved retries, Adds, writes and lost connections, the counts equal the registered streams that are not waiting after every step iff every step meets its guard |
| ExactRuns.StepExact | data/mqtt.go:312-372 | from an exact state each step leads to an exact state iff its guard on that state holds; only an Add's write, an Update and a Delete have one |
| ExactRuns.RetryPassMoves | data/mqtt.go:97-111 | in any order and with any failures a retry pass moves exactly its successes from the table into the counts |
| ExactRuns.RetryPassExact | data/mqtt.go:97-111 | a retry pass keeps the counts exact |
| ExactRuns.RetryPassEmpties | data/mqtt.go:97-111 | with every session up and every call answered, a pass empties the table |
| ExactRuns.NothingRegisteredNothingKept | data/mqtt.go:191-196 | in an exact state with no stream registered no broker stays connected and nothing waits |
| ExactRuns.SameRegistrySameCounts | data/mqtt.go:113-199 | two exact states with the same registry and the same streams waiting have the same managers, topics and counts |
| ExactRuns.CountsDetermineEntries | data/mqtt.go:113-199 | without dead entries the nested maps are determined, but for qos, by the counts they encode |
| DeadEntries.RunAlive | data/mqtt.go:181-190 | over every run, whatever else goes wrong, every count stays at least 1 iff no step takes a last receiver whose Unsubscribe goes unanswered |
| DeadEntries.StepAlive | data/mqtt.go:181-190 | the same for one step |
| RefCount.RegisterEffect | data/mqtt.go:113-173 | a register adds one receiver to its pair exactly when its broker call is not needed or succeeds, and otherwise changes nothing; no dead entry appears |
| RefCount.UnregisterEffect | data/mqtt.go:175-199 | leaving a counted pair takes one receiver off; it fails only for the last receiver when Unsubscribe fails, and then leaves a dead entry; for an uncounted pair it is a no-op or a nil dereference |
| RefCount.ReleasedEffect | data/mqtt.go:183-196 | dropping a topic without receivers changes no count and leaves no manager without topics |
| RefCount.CreateHandlerExact | data/mqtt.go:312-324 | on success the stream is counted for its Add, on failure nothing changes |
| RefCount.AddWriteExact | registry/memory.go:52-62 | the write of an Add keeps the counts exact iff the name is free or the stream has no source |
| RefCount.UpdateStatus | data/mqtt.go:335-352 | the update handler succeeds iff the old source can be left and the new one then taken, as a condition on the state before the call |
| RefCount.RegisterAfterLeaving | data/mqtt.go:336-350 | after leaving a source another is taken iff its broker has just lost its last topic or is connected, or the topic is subscribed already |
| RefCount.UpdateHandlerExact | data/mqtt.go:327-353 | against the registry as its answer leaves it, the update handler keeps the counts exact iff UpdateKeeps holds of the state before |
| RefCount.DeleteHandlerExact | data/mqtt.go:356-372 | against the registry as its answer leaves it, the delete handler keeps the counts exact iff a waiting stream's pair is not counted, or a counted one can be left |
| RefCount.DropExact | data/mqtt.go:175-199 | leaving a source keeps the counts exact under the same condition, and never leaves a pair counted too often |
| StartUp.StartExact | data/mqtt.go:63-86 | Start handles every stream once and encodes the registry exactly, counted or waiting, iff every stream with a source is declared an MQTT one, for any answers |
| StartUp.StartPanicsOnDangling | data/mqtt.go:73-81 | Start dereferences nil iff a stream is declared an MQTT one without a source, and fails in no other way |
| StartUp.WaitingIsOwnSource | data/mqtt.go:73-81 | a registration that waits after Start is its stream's own source, QoS included |
| LevelRuns.LifetimeExact | registry/leveldb.go:76-174 | from the start of a process over any database, with Adds, Updates and Deletes interleaving at every point between entry and handlers, the counts are exact throughout iff every source is declared an MQTT one and every action meets its guard |
| LevelRuns.RunExact | registry/leveldb.go:76-174 | over such runs the counts equal the entries that are notified and not about to be removed after every action iff every action meets its guard |
| LevelRuns.StepExact | registry/leveldb.go:92-171 | a notification keeps exactness iff what the handlers count is the source of an entry that is still there and not being deleted, the write of an Update iff it does not move a visible source or bring one back, a Delete as in memory or, of an entry not counted, iff its pair is not counted either |
| LevelRuns.StepSound | registry/leveldb.go:92-171 | every action keeps the database in key order with each stream under its own name |
| LevelRuns.AddIsActions | registry/leveldb.go:76-106 | LevelDBStorage.Add with the service's listeners is the writing of the entry followed by the notification |
| LevelRuns.UpdateIsActions | registry/leveldb.go:108-150 | LevelDBStorage.Update is a notification that changes nothing, whatever is answered, followed by the write of the entry |
| LevelRuns.DeleteIsActions | registry/leveldb.go:152-174 | a Delete its listeners let through is the notification followed by the removal |
| LevelRuns.RefusedIsNoAction | registry/leveldb.go:76-166 | an operation that is refused or whose listeners fail leaves the entries as they were |
| LevelRuns.SubmitIsActions | data/http.go:60-116 | Http.Submit on LevelDB is its check and, for an acceptable message, its write; a refused message changes nothing |
| LevelRuns.MessageIsActions | data/mqtt.go:232-302 | likewise Connector.OnMessage |
| LevelTypes.RunTyped | registry/leveldb.go:76-192 | over runs on LevelDB records of registered streams have their types, and cached streams their present name and type, throughout iff no Add and no Update writes an entry over records of another type (or an Update beside a cached stream of one), no Delete removes a cached one, and no message is written that does not fit the types any more |
| LevelTypes.StepTyped | registry/leveldb.go:92-171 | the same for one action |
| LevelTypes.FreshWriteFits | data/http.go:64-116 | a message written before anything else happens fits the types |
| LevelTypes.RunKeepsSources | registry/leveldb.go:122-131 | over runs on LevelDB every cached source is the present one throughout iff no action moves the source of a cached stream |
| LevelTypes.StepKeepsSources | registry/leveldb.go:122-131 | the same for one action |
| LevelView.LifetimeView | registry/leveldb.go:76-174 | from the start of a process over any database, throughout: no session holds a dropped topic iff no Delete's Unsubscribe is overtaken, restored sessions are complete as well iff none is refused a new topic, and every count is at least 1 iff no last Unsubscribe is unanswered |
| LevelView.StepSessions | data/mqtt.go:113-210 | the first two for one action |
| LevelView.StepAlive | data/mqtt.go:181-190 | the third for one action |
| LevelView.RestoredSessionsServeTheEntries | data/mqtt.go:113-210 | over runs on LevelDB that keep the guards a restored session holds a topic iff an entry that is notified, not being removed and not waiting asks for it |
| Atomic.AddIsSteps | registry/memory.go:38-63 | MemoryStorage.Add with the service's listeners is the handlers' step followed, on success, by the write |
| Atomic.UpdateIsSteps | registry/memory.go:65-100 | likewise Update |
| Atomic.DeleteIsSteps | registry/memory.go:102-122 | likewise Delete |
| Atomic.SubmitIsSteps | data/http.go:60-116 | Http.Submit is its check and, for an acceptable message, the write of the packs the store takes; a refused message changes nothing |
| Atomic.MessageIsSteps | data/mqtt.go:232-302 | likewise Connector.OnMessage |
| Atomic.LevelAddExact | registry/leveldb.go:92-105 | LevelDB's Add keeps the entry when a listener fails, and with it exactness iff the stream has no source |
| Atomic.LevelUpdateExact | registry/leveldb.go:122-149 | LevelDB's Update leaves the connector untouched, so exactness is kept iff the source stays on its topic |
| Atomic.LevelDeleteExact | registry/leveldb.go:152-174 | LevelDB's Delete keeps exactness iff the store refuses it or the delete handler's guard holds |
| Sessions.RegisterSessions | data/mqtt.go:140-170 | whatever the broker answers, a register leaves a topic out of a restored session iff the topic is new to it and refused |
| Sessions.UnregisterSessions | data/mqtt.go:175-199 | leaving a source leaves its topic in the session iff the on-connect handler overtakes the last Unsubscribe of a client with other topics and is granted the topic, and leaves out exactly what that handler is refused and the session lacks |
| Sessions.UpdateSessions | data/mqtt.go:327-353 | an Update leaves the old topic in the session iff it is left so and not taken again, and leaves a topic out iff leaving does or the new source is refused, as conditions on the state before |
| Sessions.RetryPassSessions | data/mqtt.go:97-111 | a retry pass leaves no dropped topic, and leaves a topic out iff an entry is refused when its turn comes |
| Sessions.AgreeingSession | data/mqtt.go:201-210 | a restored session that agrees holds exactly the subscriptions, each at its QoS |
| Qos.RegisterQos | data/mqtt.go:117-168 | a register that opens a subscription takes it at the QoS of its source; an open one, and every other, keeps its QoS |
| Qos.UpdateQos | data/mqtt.go:335-352 | an Update that takes a topic nobody else receives subscribes it at the new QoS, also when the topic is the old one |
| Qos.StepQos | data/mqtt.go:113-199 | a step that opens a pair sets its QoS, and no other step changes it |
| Qos.RunQos | data/mqtt.go:113-210 | after every run a subscription has the QoS of the stream that opened it last |
| LevelQos.StepQos | data/mqtt.go:113-199 | the same for one action on LevelDB |
| LevelQos.LifetimeQos | data/mqtt.go:63-86 | the same from the start of a process on LevelDB: the opener is one of an action or the first stream of the database whose register went through |
| BrokerView.RunSettled | data/mqtt.go:175-199 | over every run, whatever fails, no manager is without a subscription and a session that is down holds nothing |
| BrokerView.RunHosted | data/mqtt.go:175-210 | throughout a run no session holds a topic its manager has dropped iff no Unsubscribe is overtaken by the on-connect handler (or the topic is taken again by the same Update) |
| BrokerView.RunAgrees | data/mqtt.go:113-210 | sessions hold no dropped topic, and restored ones exactly the manager's subscriptions, throughout a run iff besides no Add, Update, Delete, retry or restore is refused a topic its restored session lacks |
| BrokerView.StepSessions | data/mqtt.go:113-210 | the same for one step, as conditions on the state before |
| BrokerView.RestoredSessionsServeTheRegistry | data/mqtt.go:113-210 | over runs that keep these guards and those of the counts a restored session holds a topic iff a registered, not waiting stream or an Add under way asks for it |
| BrokerView.LostSessionIsRestored | data/mqtt.go:201-214 | a lost session starts empty, and reconnecting gives every subscription back |
| TypeSafety.RunSafe | data/mqtt.go:216-307 | over every run from any data store, with streams deleted and added again under other types and messages checked and written at different times, every record stored under a registered name has the type registered for it throughout iff no Add is written over records of another type and no message is written of which a record that stays does not fit any more |
| TypeSafety.RunTidy | data/http.go:64-116 | a run in which no stream is deleted between the check and the write of a message for it has no such step |
| TypeSafety.RunCoherent | data/mqtt.go:236-251 | over every run, whatever fails, a cached stream is registered with its present name, type and retention |
| TypeSafety.OverlayWellTyped | data/lightdb.go:28-36 | writing a message keeps the stored records typed iff each record that no later one of its pack replaces conforms |
| TypeSafety.StepSafe | data/http.go:64-116 | the same iff for each step, whatever listeners, brokers and store answer |
| TypeSafety.TypeIsFixed | registry/validation.go:131-142 | the name and type of a stream do not change between its Add and its Delete |
| TypeSafety.HandlersOnlyFlush | data/mqtt.go:331-360 | handlers leave the cache alone or empty it: on every Delete, and on an Update exactly when the retention changes |
| TypeSafety.StepFresh | data/mqtt.go:327-353 | a step makes a cached source stale iff it is an Update that moves the source of a cached stream, keeps its retention, and can leave the old source and take the new one |
| TypeSafety.CacheIsTransparent | data/mqtt.go:236-264 | with a coherent cache every message is accepted as it would be without one iff no cached source is stale |
| TypeSafety.RunFresh | data/mqtt.go:236-264 | throughout a run no cached source is stale, so that every message is treated as if there were no cache, iff the run has no such Update |
| Spoilers.RefusedAddBlocksTheName | registry/memory.go:46-50 | counterexample: after an Add the connector refused, the same Add is refused by the store |
| Spoilers.UnansweredUnsubscribeSpoils | data/mqtt.go:185-187 | counterexample: a failed Unsubscribe leaves a registered stream without receivers |
| Spoilers.DeniedSubscribeLeavesOut | data/mqtt.go:160-163 | counterexample: a topic refused in the SUBACK of an Add is counted and missing from the restored session |
| Spoilers.OvertakenUnsubscribeStrays | data/mqtt.go:201-210 | counterexample: the on-connect handler overtakes the Unsubscribe of a Delete, and the session keeps the topic |
| Spoilers.TwoSensorsRun | data/mqtt.go:140-170 | the state of the line before is reached by two Adds |
| Spoilers.JoinerKeepsQos | data/mqtt.go:166-168 | counterexample: a second stream at QoS 2 is counted on a subscription at QoS 0 |
| Spoilers.LateWriteSpoilsTypes | data/http.go:77-113 | counterexample: a message checked before a Delete and written after an Add of another type |
| Spoilers.FailedReplacementSpoils | data/mqtt.go:336-350 | counterexample: a source that cannot be replaced is lost |
| Spoilers.MovedSourceStaysCached | data/mqtt.go:331-333 | counterexample: once a message has cached a stream and an Update has moved it, messages of its new topic are dropped and those of the old one taken |
| Spoilers.WaitingDeleteSpoils | data/mqtt.go:176-181 | counterexample: after a start that leaves one of two streams waiting, deleting it takes the other's receiver |
| Spoilers.WaitingDeletePanics | data/mqtt.go:181 | counterexample: the same with another topic dereferences nil |
| Spoilers.LevelAddSpoils | registry/leveldb.go:92-102 | counterexample: on LevelDB an Add the connector refuses leaves the stream registered and neither counted nor waiting |
| Spoilers.LevelMoveSpoils | registry/leveldb.go:122-131 | counterexample: on LevelDB an Update that moves a source leaves the counts wrong |
| Spoilers.LevelCacheStaysOld | registry/leveldb.go:122-131 | counterexample: on LevelDB the cached source of a moved stream is stale |
| Spoilers.DeleteOvertakesAdd | registry/leveldb.go:92-105 | counterexample: a Delete between entry and handlers of an Add leaves a topic subscribed for nobody |
| Spoilers.RaceBegins | registry/leveldb.go:76-106 | the stream of the next line is what an Add over an empty database leaves |
| Spoilers.DeleteRaceSpoilsTypes | registry/leveldb.go:159-165 | counterexample: a record taken while its stream is being deleted comes back under a stream of another type |
| Spoilers.UpdateBringsBack | registry/leveldb.go:110-142 | counterexample: a Delete between the halves of an Update is undone, without series and subscription |
| Spoilers.LinksLoopWithinASecond | data/http.go:236-241 | counterexample: with two records in one second the links never come to an end |
| Spoilers.LastLinkIsRefused | data/http.go:366-368 | counterexample: the link to a last record at the far end is refused |
| Spoilers.EndBeforeTheEpoch | vendor/github.com/dschowta/lite.tsdb/databoltdb.go:32-38 | counterexample: a query without a start that ends before 1970 gives every record |
| Spoilers.EndBetweenRecords | vendor/github.com/dschowta/lite.tsdb/databoltdb.go:152-155 | counterexample: descending from an end between two records gives the record after it |
| Spoilers.DescendingSkips | vendor/github.com/dschowta/lite.tsdb/databoltdb.go:152-162 | counterexample: descending over a page boundary inside a second loses a record |
| QueryWalk.FollowingLinks | data/http.go:294-318 | following the links delivers the first Limit records of the range in the asked order, each once, in as few pages as possible, iff (descending) the cursor starts in the range, no record precedes a page boundary within its second, no link asks for an empty range, and the far end is not moved over a record; with a start (other than none) or an end before the epoch only if nothing is served and nothing was asked for |
| QueryWalk.WholeSeconds | data/http.go:366-368 | with whole-second times that fails only for a descending cursor that starts past the end, and when the last record is alone on its page exactly at the far end |
| QueryWalk.PagesAreCeiling | data/lightdb.go:51-54 | the number of pages is the number of records over perPage, rounded up, and one for no records |
| QueryWalk.ResponseIsFirstPage | data/lightdb.go:38-75 | a response is the first perPage of what the cursor serves within the limit, and carries a link exactly when that is not all |
| QueryWalk.PerPageBelowOne | data/http.go:389-396 | a perPage below 1 is let through: a negative one lifts the limit too, and 0 gives an empty page whose link asks for the largest page |
| QueryWalk.CleanLink | data/http.go:298-317 | a link at a clean boundary serves exactly the records left, ascending and descending |
| QueryWalk.DeliveredIsClean | data/http.go:298-317 | only a walk with clean boundaries and a clean end delivers what is served |
| QueryWalk.OvershootIsDelivered | vendor/github.com/dschowta/lite.tsdb/databoltdb.go:152-155 | a walk whose descending cursor starts past the end never delivers what was asked for |
| Cursor.PassedMembers | vendor/github.com/dschowta/lite.tsdb/databoltdb.go:151-181 | the cursor passes the records of the closed range between the keys of start and end and, descending with none at the end, the first one after it; no start is the epoch, and a time before the epoch is after every record |
| Cursor.ReadDescending | vendor/github.com/dschowta/lite.tsdb/databoltdb.go:151-167 | the descending loop returns up to MaxEntries of those records and the time of the first left out |
| Cursor.ReadAscending | vendor/github.com/dschowta/lite.tsdb/databoltdb.go:168-181 | likewise the ascending loop |
| Links.LinkRoundTrip | data/http.go:228-252 | a printed link reads back as the same ids and the query at whole seconds (no start as no start, and the default page size for one below 1), or is refused exactly when no time is left between its ends |
| Links.FormRoundTrip | data/http.go:340-399 | the same for the parameters alone |
| Links.NamesDoNotSeparate | registry/validation.go:29-35 | a valid name holds no character that delimits ids or parameters |
| Links.ParametersAre | data/http.go:340-399 | for any form: what each parameter reads as, that none means no start, now, no limit, descending and 1000, and which error comes first |
| Links.BareRequest | data/http.go:345-396 | a request without parameters is answered with the newest records, up to 1000, the newest first |
| Links.LinkOfTwo | data/http.go:263 | a path is cut into ids at commas and the form follows the question mark |
| Text.AtoiHas | data/http.go:371-396 | a text is a number iff it is digits behind at most one sign |
| Text.AtoiSigned | data/http.go:371-396 | a number reads as its value, with leading zeros and a sign |
| Text.FormGetIsFirst | data/http.go:345 | a parameter is the value of the first field with its key, or empty |
| Text.FieldIs | data/http.go:258 | a field is cut at its first equals sign and unescaped on both sides |
| Text.UnescapeMarks | data/http.go:258 | a plus sign reads as a space, and a percent sign is followed by two hexadecimal digits or the text is refused |
| Text.UnescapeEscaped | data/http.go:258 | escaped bytes read back |
| Backends.RunsInLockstep | registry/leveldb.go:76-257 | from the same registry any sequence of operations, filters included, gets the same answers from both backends, but for the total LevelDB reports with an empty page; of a filtered page the number of streams, the total and the error are the same |
| Backends.Lockstep | registry/memory.go:38-167 | each operation keeps the two backends at the same registry and gives the same answer |
| Backends.SelectedCount | registry/leveldb.go:327-375 | as many streams match a filter in key order as in any order of the map |
| Backends.ScanIsSlice | registry/leveldb.go:229-248 | scanning from one key up to another reads exactly the entries between their positions |
| Backends.LevelPage | registry/leveldb.go:194-257 | LevelDB's page is that slice of the key-ordered registry the memory backend gives; an empty one reports 0 |
| Backends.IteratesListing | registry/leveldb.go:203-214 | iterating the database lists the registry's streams in key order |
| Backends.PutWrites | registry/leveldb.go:92-96 | a put keeps the key order and writes one key of the map |
| Backends.DeleteRemoves | registry/leveldb.go:165 | a delete keeps the key order and removes one key |
| Backends.GetReads | registry/leveldb.go:176-192 | a get reads the map |
| Backends.RegistryPagesCover | registry/memory.go:136-167 | the pages of a registry together give every stream exactly once, and nothing else, in key order |
| Answers.MemUpdateAnswer | registry/memory.go:65-100 | an Update goes through exactly if name and type stay and the listeners agree; the stream then has the source, function, retention and meta of the request, a Get gives it, every other name reads as before, and the errors are told apart |
| Answers.MemAddAnswer | registry/memory.go:38-63 | after an Add a Get gives the very stream, and every other name reads as before |
| Answers.MemDeleteAnswer | registry/memory.go:102-122 | after a Delete the name is not found, and every other reads as before |
| Answers.LevelUpdateAnswer | registry/leveldb.go:108-150 | the Update on LevelDB |
| Answers.LevelAddAnswer | registry/leveldb.go:76-106 | the Add on LevelDB, where a Get gives the stream even when the listeners have failed |
| Answers.LevelDeleteAnswer | registry/leveldb.go:152-174 | the Delete on LevelDB |
| Answers.PagesAnswered | vendor/code.linksmart.eu/sc/service-catalog/utils/pagination.go:70-84 | both backends answer a page or a filtered page exactly for a number from 1 on and a size from 1 to 100, and otherwise which error |
| Answers.StartReadsBackends | data/mqtt.go:66-72 | the pages Start reads are those the backends answer |
| Paging.GetPagingAttr | vendor/code.linksmart.eu/sc/service-catalog/utils/pagination.go:45-68 | the branches give the window of the page clipped to the total |
| Paging.GetPageOfSlice | vendor/code.linksmart.eu/sc/service-catalog/utils/pagination.go:16-41 | the branches give that page of the slice |
| Paging.PagesTile | registry/memory.go:150-164 | the first pages are a prefix of the listing |
| Paging.PagesCover | registry/memory.go:150-164 | pages 1 to ceil(total / perPage) are the whole listing |
| Paging.PageEmptyExactlyPastTheEnd | registry/memory.go:156-159 | a page is empty iff its number is past ceil(total / perPage) |
| Filtering.MatchObject | vendor/code.linksmart.eu/sc/service-catalog/utils/pathfilter.go:50-94 | a stream matches when it has the path and the comparison holds; an unknown operation is an error exactly on a stream that has the path |
| Filtering.MatchesIs | vendor/code.linksmart.eu/sc/service-catalog/utils/pathfilter.go:50-94 | the four operations: the text at the path is the value, begins with it, ends with it or holds it |
| Ordering.SortedIsSortedKeys | registry/memory.go:142-148 | whatever order the map gives the keys in, sorting gives the same sequence |
| Ordering.LessIs | registry/memory.go:142-148 | keys are compared at their first difference, a proper prefix first |
| PerItem.WindowsTile | common/pagination.go:73-116 | each of a source's first limit/n items (all, without a limit) falls in the window of exactly one page, and no other item in any |
| PerItem.PagesSumToTheLimit | common/pagination.go:86-94 | after any number of pages the items asked for are those that fit in them, up to the rounded limit |
| PerItem.EvenShares | common/pagination.go:95-100 | a page is shared evenly: its total is n times each source's share |
| PerItem.RoundedIsLeast | common/pagination.go:78-84 | rounding gives the least multiple of n not below the request |
| PerItem.ValidationSuggestsTheRounding | common/pagination.go:50-70 | a limit of 0 is refused, then an indivisible limit, then an indivisible page size; accepted requests are not rounded, and a refused one comes with the least admissible value above it, which passes the same test |
| PerItem.PerItemPagination | common/pagination.go:73-116 | every source gets the same number of items and the same offset, so both paddings are 0 |
| PerItem.Limits | common/pagination.go:74-107 | the two limits: what the page asks of all sources, and what a page asks regardless of its number |
| Validation.ValidateCreation | registry/validation.go:24-129 | refuses exactly what has no valid name or no supported type, and names the attributes at fault |
| Validation.ValidateUpdate | registry/validation.go:131-208 | refuses exactly a changed name or type |
| Validation.CreationIs | registry/validation.go:24-60 | the four types, and the characters of a name by their codes |
| RegistrySpec.MemRunInStep | registry/memory.go:38-122 | over every sequence of operations, whatever the listeners answer, both maps keep the same keys, each its stream's name, and a stream keeps its name and type until it is deleted |
| RegistrySpec.MemFailureChangesNothing | registry/memory.go:38-122 | a failed operation leaves both maps and the time of modification as they were |
| EventsSpec.ServiceFanOut | main.go:98-100 | with the service's listeners a failing store keeps the event from the connector, and an event succeeds exactly when both do |
| Events.EventHandler.Created | registry/events.go:13-21 | the listeners hear in order, up to the first error |
| Events.EventHandler.Updated | registry/events.go:23-31 | likewise |
| Events.EventHandler.Deleted | registry/events.go:33-41 | likewise |
| Memory.MemoryStorage.Add | registry/memory.go:38-63 | the listeners hear before the name is looked up; the maps change only when both go well |
| Memory.MemoryStorage.Update | registry/memory.go:65-100 | name and type stay, the writable elements are replaced, and only if the listeners agree |
| Memory.MemoryStorage.Delete | registry/memory.go:102-122 | both maps lose the name, and only if the listeners agree |
| Memory.MemoryStorage.Get | registry/memory.go:124-134 | the stream of a name or a not-found error |
| Memory.MemoryStorage.GetMany | registry/memory.go:136-167 | for a page from 1 on and a size from 1 to 100, and only then, that page of the streams in key order, with the total |
| Memory.MemoryStorage.Filter | registry/memory.go:200-232 | a page of the matching streams in some order, each once, with their number; an error exactly when the filter fails on a stream |
| Memory.MemoryStorage.FilterOne | registry/memory.go:179-197 | a registered matching stream, none exactly when none matches, an error exactly when the filter fails on a stream |
| LevelDB.LevelDBStorage.Add | registry/leveldb.go:76-106 | refuses a taken name before anyone hears; the entry stays when a listener fails |
| LevelDB.LevelDBStorage.Update | registry/leveldb.go:108-150 | the listeners hear the modified stream as old and as new; the entry is written if they agree |
| LevelDB.LevelDBStorage.Delete | registry/leveldb.go:152-174 | the entry goes if the listeners agree |
| LevelDB.LevelDBStorage.GetMany | registry/leveldb.go:194-257 | for a page from 1 on and a size from 1 to 100, and only then, the range scan gives that page of the key-ordered registry |
| LevelDB.LevelDBStorage.FilterOne | registry/leveldb.go:283-319 | the first match in key order, or none; an error exactly when the filter fails on a stream |
| LevelDB.LevelDBStorage.Filter | registry/leveldb.go:322-376 | that page of the matching streams in key order, and how many match; an error exactly when the filter fails on a stream |
| LevelDB.FilterPagesCover | registry/leveldb.go:322-376 | the pages of a filter together are the matching streams of the listing |
| Connector.MQTTConnector.Register | data/mqtt.go:113-173 | the nested maps move as ConnectorSpec.Register says: a new client, a new subscription, which the broker may have refused, or one more receiver |
| Connector.MQTTConnector.Unregister | data/mqtt.go:175-199 | as ConnectorSpec.Unregister says, the dead entry, the nil dereference and the on-connect handler that runs during Unsubscribe included |
| Connector.MQTTConnector.CreateHandler | data/mqtt.go:312-324 | registers the source of a stream that has one |
| Connector.MQTTConnector.UpdateHandler | data/mqtt.go:327-353 | flushes the cache on a new retention, and on a new source pointer leaves the old source before it takes the new one |
| Connector.MQTTConnector.DeleteHandler | data/mqtt.go:356-372 | flushes the cache and leaves the source; a failure keeps the stream waiting |
| Connector.MQTTConnector.RetryRegistrations | data/mqtt.go:97-111 | one pass over the table in any order is the fold RetryPass |
| Connector.MQTTConnector.Start | data/mqtt.go:63-86 | the page loop ends, every page it asks for is answered, and it registers each stream of the listing once, in order, although an empty page may report a total of 0 |
| Connector.MQTTConnector.OnMessage | data/mqtt.go:216-307 | caches every name found, and hands the store the wanted records grouped by stream, dropping only the others |
| Connector.Manager.OnConnectHandler | data/mqtt.go:201-210 | in any order, every topic the broker does not refuse is subscribed at its QoS |
| Connector.Manager.OnConnectionLostHandler | data/mqtt.go:212-214 | the subscriptions stay, the clean session does not |
| Lightdb.LightdbStorage.Submit | data/lightdb.go:28-36 | in any order, the packs written are overlaid on the store; it fails exactly when one of them is refused |
| Lightdb.LightdbStorage.Query | data/lightdb.go:38-76 | what the cursor passes in the series of the first source, up to the smaller of a positive limit and perPage, and the time of the next record; an error for a missing series |
| Lightdb.LightdbStorage.CreateHandler | data/lightdb.go:83-85 | a new empty series; one that exists is an error |
| Lightdb.LightdbStorage.DeleteHandler | data/lightdb.go:95-102 | the series goes; a missing one is no error |
| LightdbSpec.AddGroupsAnyOrder | data/lightdb.go:28-36 | whatever order the packs are added in, the store ends the same |
| LightdbSpec.InsertMembers | vendor/github.com/dschowta/lite.tsdb/databoltdb.go:68-74 | a record replaces the one with its timestamp and no other |
| LightdbSpec.InsertAllMembers | vendor/github.com/dschowta/lite.tsdb/databoltdb.go:60-80 | of a pack put into a series the last record of each timestamp stays, and of the old ones those with other timestamps |
| IngestSpec.GroupIsSubsequence | data/http.go:102-107 | a group is the subsequence, in order, of the records with its name |
| IngestSpec.GroupsPartition | data/http.go:102-107 | each record is in the group of its own name, as often as it was sent, and in no other |
| IngestSpec.HttpFineMeansAll | data/http.go:64-100 | a message is accepted iff every record of it is |
| IngestSpec.VerdictIs | data/http.go:64-100 | in its fields: a record without a name or without the kind of value its stream's type asks for is a bad request, and one of an unregistered name is not found |
| IngestSpec.FirstVerdict | data/http.go:64-100 | a message gets the verdict on its first unacceptable record |
| IngestSpec.OneKindOfValue | data/http.go:78-97 | a record with one kind of value is accepted by streams of that type and "data" streams only |
| IngestSpec.KeptIs | data/mqtt.go:232-294 | in their fields: the records of a message that are kept, judged by the cached stream or else the registered one |
| IngestSpec.WantedOfMembers | data/mqtt.go:253-294 | of a message exactly the wanted records are kept, each as often as it was sent |
| Http.Submit | data/http.go:40-119 | nothing is stored exactly when some record has no name, an unregistered name, no number for a "float" stream, no text for a "string" stream or no truth value for a "bool" stream; otherwise the groups are, and the answer says whether all were |
| Http.Check | data/http.go:60-108 | the verdict of the first unacceptable record, or all records grouped by stream |
| Http.FindSources | data/http.go:263-274 | the streams of the ids in order, or none exactly when one is not registered |
| Http.NextLink | data/http.go:296-318 | whether the response carries a link, and the query the link will be read back as: from the first record left, with what is left of the limit |
| Http.Query | data/http.go:256-336 | the response QueryWalk walks over, for the first id, if every id is registered, the range is not empty and the series exists; otherwise the error of the first of these that fails |

## Left out

Assumptions about libraries:

- bolt (`vendor/github.com/boltdb/bolt`): buckets are maps in key order, a cursor's Seek finds the
  first key not below the one sought, and a transaction happens as a whole or not at all;
- goleveldb: an iterator over a range gives its entries in key order;
- JSON, SenML (section 4.6 of RFC 8428) and RFC 3339 (section 5.6): decoding undoes encoding,
  normalization has been done, and a formatted time reads back truncated to the second, as the
  hypothesis `Standard` of the link results says;
- the MQTT library: every call is answered, Subscribe and Unsubscribe without an error only while the
  session is up; a session is clean (section 3.1.2.4 of MQTT 3.1.1); a topic is in it from the
  broker's grant to the broker's answer to Unsubscribe, in the order the packets are sent. The
  on-connect handler runs after Connect, as a step of its own or within an Unsubscribe; within a
  Connect, a Subscribe or `Start` it leaves what it would leave before or after them.

What the model does not capture:

- QueryWalk.FollowingLinks: one series that does not change during the walk and holds no record
  from before 1970, times that fit 64 bits of nanoseconds, a query with its start before its end,
  and a page size of at least 1.
- Links.LinkRoundTrip: a query with a start or an end before 1970, other than one without a start.
- Cursor.ReadDescending: times are whole ticks of 64 bits; the conversion to float64 seconds and
  back, which can move a time that is not a whole second by a fraction of a microsecond
  (`vendor/github.com/dschowta/senml.datastore/senmldatastore.go:91-111`), is not modelled.
- Filtering.MatchObject: what a path finds in the JSON of a stream is a parameter, and the panic on a
  path that leads through an array with an element that is not an object
  (`vendor/code.linksmart.eu/sc/service-catalog/utils/pathfilter.go:35-37`) is not modelled; with it
  `FilterOne` over memory panics or finds a match by the order of its map.
- Machine.Step: the lookups of one message, with what they leave in the cache, are one step, and so
  is the write of its packs; data races on the cache, on the subscriptions and in
  `MemoryStorage.Add`, which writes its maps under a read lock, are modelled only as interleaved
  steps.
- LevelRuns.StepExact: the lookup and the write of an entry of an Add, and the handlers of one event
  are one action each, and a message is as in `Machine`.
- LevelTypes.RunTyped: says nothing of the retention of a cached stream, which stays old on
  LevelDB because the connector is never shown a change.
- ConnectorSpec.Register: credentials and client options, which the counts do not depend on.
- A nil dereference ends the handler it happens in with the state it has reached (the HTTP server
  recovers and the locks are released); one in `Start` ends the process.
- Lightdb.LightdbStorage.Query: only the first of several sources is read, as in the code.
- PerItem.PerItemPagination: integers stand for float64, which agrees with them while every
  product stays below 2^53.
- Go's int width: counts and limits are unbounded integers.
- `SubmitWithoutID` and automatic registration (`data/http.go:123-226`), which look a stream up by
  a path that is not a field of a stream.
- If-Modified-Since, error message texts, credential masking, authentication, configuration, the
  service catalog, routing, the sleep between retry passes, the web interface and the scripts.
