# Pulse log of a Mongo-backed stand, and the logged instance wrapper

This project models two pieces of rultor in Dafny and proves properties of the model.

**`MongoStand`** keeps the pulses of a stand in the Mongo collection `stands`. Each record has the
attributes `pulse`, `stand`, `updated`, `xembly` and `tags`.
- `post(pulse, xembly)` loads the script stored for (pulse, stand) and appends the fragment to it.
  It replays the whole script on an empty document.
- When the replay works, `post` upserts the record of (pulse, stand). The new record holds the new
  script, the tags of the replayed document (`//tags/tag/label/text()`) and the current time.
- When the script has a syntax error or makes an impossible modification, `post` only logs a warning.
- `pulses()` returns a page. Its iterator walks a cursor over the stand's records, newest `updated`
  first. `tail` is not supported.

**`LoggedInstance.pulse(state)`** registers the calling thread group with the work in the log
appender. It then logs four signals (`started`, `owner`, `unit`, `spec`) and calls the wrapped
instance with the same state. It unregisters the group in a `finally`.

Files:
- `wrappers.dfy`: `Option`, `Result` and `Unit`.
- `xembly.dfy`: an XML document as a tree, the Xembly applier as a function-typed value with its two
  failures, and the meaning of the fixed tag query.
- `text_order.dfy`: the lexicographic order that sorting on the string field `updated` uses.
- `mongo_stand.dfy`: the collection as a map from (pulse, stand) to a record, with these parts:
  - `Posted`, the write path as a function;
  - lemmas about one post and about a run of posts;
  - the sorted listing and the cursor, iterator, pulse and page classes;
  - the class `Stand`, whose methods `Append`, `Save`, `Post`, `Iterator` and `Pulses` are proved
    against those functions.
- `utc_stamp.dfy`: the `yyyy-MM-dd'T'HH:mm'Z'` formatter over UTC calendar fields and a reader that
  inverts it.
- `conveyer.dfy`: the appender registry, the wrapped instance and `LoggedInstance`. A shared ghost
  journal records each step, written by the object that takes it: the appender on register and
  unregister, `Meta` for each signal, and the wrapped instance, together with the registry it runs
  under.

Inputs the Java code takes from its surroundings become parameters:
- the Xembly applier (`Stand.apply`);
- the clock (`now`);
- the store's answer to a write (`WriteVerdict`);
- the calling thread group.

Behaviour kept as the code has it:
- The iterator's `next()` does not move the cursor; each call of `xembly()` on a pulse moves it.
  `PulseIterator.Next` has an empty frame. `ReadTwoPulses` shows two pulses from one iterator that
  read their records in the order their `xembly()` is called.
- So a loop that calls `hasNext`/`next` and never `xembly()` does not advance.

## Model

| member | source | states |
|---|---|---|
| `Xembly.Tags` | rultor-users/src/main/java/com/rultor/users/mongo/MongoStand.java:269-271 | `tags(xml)`: the text of every text node whose parent is `label`, grandparent `tag` and great-grandparent `tags`, in document order, duplicates kept; its properties are the lemmas below |
| `Xembly.ForestTagsAppend` | rultor-users/src/main/java/com/rultor/users/mongo/MongoStand.java:269-271 | the tag query keeps document order: the tags of two runs of sibling nodes are the first's tags followed by the second's |
| `Xembly.TagsNeedTagsElement` | rultor-users/src/main/java/com/rultor/users/mongo/MongoStand.java:269-271 | a document with no `tags` element anywhere has no tags |
| `Xembly.TwoLabelsInOrder` | rultor-users/src/main/java/com/rultor/users/mongo/MongoStand.java:270 | `tags` holding two `tag/label` texts x and y yields exactly [x, y] |
| `TextOrder.NotAfterReflexive` | rultor-users/src/main/java/com/rultor/users/mongo/MongoStand.java:290 | the order used to sort `updated` is reflexive |
| `TextOrder.NotAfterTotal` | rultor-users/src/main/java/com/rultor/users/mongo/MongoStand.java:290 | any two `updated` values are comparable |
| `TextOrder.NotAfterTransitive` | rultor-users/src/main/java/com/rultor/users/mongo/MongoStand.java:290 | the order is transitive |
| `TextOrder.NotAfterAntisymmetric` | rultor-users/src/main/java/com/rultor/users/mongo/MongoStand.java:290 | two values that sort each no later than the other are equal |
| `MongoStand.StoredScript` | rultor-users/src/main/java/com/rultor/users/mongo/MongoStand.java:247-258 | the `find({pulse, stand})` of `append`: the `xembly` of the record under the key, or "" when there is none (a lookup that `LookupIsFieldFilter` shows equal to the field filter) |
| `MongoStand.LookupIsFieldFilter` | rultor-users/src/main/java/com/rultor/users/mongo/MongoStand.java:248-252 | in a keyed collection the records whose `pulse` and `stand` fields match a key are exactly the one under that key |
| `MongoStand.UpsertWritesOneRecord` | rultor-users/src/main/java/com/rultor/users/mongo/MongoStand.java:222-233 | `update(query, record, true, false)` on the record's own key: the record is under its key afterwards, the other keys keep their records, the key set grows by that key only, and a collection whose records sit under their own keys stays so |
| `MongoStand.PostTouchesOnlyItsKey` | rultor-users/src/main/java/com/rultor/users/mongo/MongoStand.java:219-233 | `Posted`'s collection in closed form (the definition restated, used by the commute proof): the collection unchanged, or the one record under its own (pulse, stand) key replaced by the one built from the stored script and the fragment |
| `MongoStand.Posted` | rultor-users/src/main/java/com/rultor/users/mongo/MongoStand.java:145-162 | `post` as a function of the old collection: replay of the stored script plus the fragment on an empty document, then a warning, an upsert or a write failure; the lemmas below state what it guarantees |
| `MongoStand.RejectedFragmentChangesNothing` | rultor-users/src/main/java/com/rultor/users/mongo/MongoStand.java:145-162 | when replaying the full script fails (syntax or impossible modification), the collection is exactly as before, nothing is raised, and one warning quoting the posted fragment is logged |
| `MongoStand.AcceptedFragmentUpserts` | rultor-users/src/main/java/com/rultor/users/mongo/MongoStand.java:219-233 | on a successful replay and an acknowledged write, exactly the record of (pulse, stand) is created or replaced with that pulse and stand, the new time, the stored script followed by the fragment, and the tags of the replayed document; the result is normal and no other record changes |
| `MongoStand.RejectedWriteRaises` | rultor-users/src/main/java/com/rultor/users/mongo/MongoStand.java:234-238 | when the store rejects the write, the caller gets an error whose message quotes the pulse after the fixed prefix and ends with the store's message, and no warning is logged |
| `MongoStand.TagsIgnoreStoredTags` | rultor-users/src/main/java/com/rultor/users/mongo/MongoStand.java:226-231 | two collections that hold the same script for (pulse, stand) but any tags give the same new record: stored tags are recomputed, never merged |
| `MongoStand.PostKeepsConsistent` | rultor-users/src/main/java/com/rultor/users/mongo/MongoStand.java:145-162 | a post keeps every record under its own key and reproducible: its script replays from an empty document to its stored tags |
| `MongoStand.PostsToOtherPulsesCommute` | rultor-users/src/main/java/com/rultor/users/mongo/MongoStand.java:219-233 | posts to two different pulses of one stand give the same collection in either order |
| `MongoStand.PostedScript` | rultor-users/src/main/java/com/rultor/users/mongo/MongoStand.java:247-262 | after a post the script of (pulse, stand) is the old script followed by the fragment if the post is stored, the old script otherwise |
| `MongoStand.StoredScriptIsKeptFragments` | rultor-users/src/main/java/com/rultor/users/mongo/MongoStand.java:145-150 | after any run of posts to one pulse with no other writer, the stored script is the starting script followed by the in-order concatenation of the fragments whose replay and write succeeded; dropped fragments add nothing |
| `MongoStand.KeptAreSubsequence` | rultor-users/src/main/java/com/rultor/users/mongo/MongoStand.java:145-161 | the fragments that survive are a subsequence of those posted |
| `MongoStand.PostAllLeavesOtherRecords` | rultor-users/src/main/java/com/rultor/users/mongo/MongoStand.java:222-233 | a run of posts to one pulse neither adds, removes nor changes any other record |
| `MongoStand.PostAllKeepsConsistent` | rultor-users/src/main/java/com/rultor/users/mongo/MongoStand.java:145-162 | a run of posts keeps the whole collection consistent, so replaying any stored script is deterministic and gives back its stored tags |
| `MongoStand.InsertionPoint` | rultor-users/src/main/java/com/rultor/users/mongo/MongoStand.java:290 | the place for a record among rows sorted newest first: every earlier row is no older, the next one is strictly older |
| `MongoStand.InsertKeepsNewestFirst` | rultor-users/src/main/java/com/rultor/users/mongo/MongoStand.java:290 | inserting there keeps rows sorted by `updated` descending |
| `MongoStand.ListingSkips` | rultor-users/src/main/java/com/rultor/users/mongo/MongoStand.java:278-280 | a record of another stand is not listed |
| `MongoStand.ListingInserts` | rultor-users/src/main/java/com/rultor/users/mongo/MongoStand.java:278-290 | a record of the stand is listed once, in sorted position |
| `MongoStand.Cursor.constructor` | rultor-users/src/main/java/com/rultor/users/mongo/MongoStand.java:278-280 | a new cursor is open and positioned before its first row |
| `MongoStand.Cursor.HasNext` | rultor-users/src/main/java/com/rultor/users/mongo/MongoStand.java:294-296 | more rows exist exactly when the cursor is open and not past its last row |
| `MongoStand.Cursor.Next` | rultor-users/src/main/java/com/rultor/users/mongo/MongoStand.java:302 | an open cursor with rows left returns the row under it and moves one on; otherwise it returns an error and does not move |
| `MongoStand.Cursor.Close` | rultor-users/src/main/java/com/rultor/users/mongo/MongoStand.java:281-289 | the timer's `close()` leaves the cursor closed |
| `MongoStand.StoredPulse.constructor` | rultor-users/src/main/java/com/rultor/users/mongo/MongoStand.java:299 | a pulse shares the iterator's cursor |
| `MongoStand.StoredPulse.Xembly` | rultor-users/src/main/java/com/rultor/users/mongo/MongoStand.java:301-304 | `xembly()` returns the script of the row under the shared cursor and advances it; when none is left it fails and the cursor stays |
| `MongoStand.StoredPulse.Stream` | rultor-users/src/main/java/com/rultor/users/mongo/MongoStand.java:306-308 | `stream()` always fails as unsupported |
| `MongoStand.PulseIterator.constructor` | rultor-users/src/main/java/com/rultor/users/mongo/MongoStand.java:292 | the iterator wraps the cursor it is given |
| `MongoStand.PulseIterator.HasNext` | rultor-users/src/main/java/com/rultor/users/mongo/MongoStand.java:294-296 | `hasNext()` is the cursor's: open and rows left |
| `MongoStand.PulseIterator.Next` | rultor-users/src/main/java/com/rultor/users/mongo/MongoStand.java:298-310 | `next()` returns a new pulse over the same cursor and changes nothing (empty frame), so the cursor does not move |
| `MongoStand.PulseIterator.Remove` | rultor-users/src/main/java/com/rultor/users/mongo/MongoStand.java:312-314 | `remove()` always fails as unsupported |
| `MongoStand.ReadTwoPulses` | rultor-users/src/main/java/com/rultor/users/mongo/MongoStand.java:298-304 | two pulses taken one after the other read consecutive rows in the order their `xembly()` is called: the one taken second, read first, gets the first row |
| `MongoStand.Stand.constructor` | rultor-users/src/main/java/com/rultor/users/mongo/MongoStand.java:136-139 | a stand over a given keyed collection (every record under its own pulse and stand), with no warnings logged |
| `MongoStand.Stand.Append` | rultor-users/src/main/java/com/rultor/users/mongo/MongoStand.java:247-262 | the script to replay is the stored script of (pulse, this stand), or nothing if there is no record, followed by the fragment |
| `MongoStand.Stand.Save` | rultor-users/src/main/java/com/rultor/users/mongo/MongoStand.java:219-239 | an acknowledged write upserts the record built from the script and the document's tags; a rejected one leaves the collection and fails with the pulse and the store's message |
| `MongoStand.Stand.Post` | rultor-users/src/main/java/com/rultor/users/mongo/MongoStand.java:145-162 | the new collection, the appended warnings and the outcome are those of `Posted` on the old collection, and the collection stays keyed; the lemmas above give what that means |
| `MongoStand.Stand.Iterator` | rultor-users/src/main/java/com/rultor/users/mongo/MongoStand.java:277-316 | a fresh open cursor whose rows are all the records with `stand` equal to the name, each once, sorted by `updated` descending |
| `MongoStand.Stand.Pulses` | rultor-users/src/main/java/com/rultor/users/mongo/MongoStand.java:168-179 | a new page over this stand |
| `MongoStand.PulsePage.constructor` | rultor-users/src/main/java/com/rultor/users/mongo/MongoStand.java:169 | the page belongs to the stand it is made for |
| `MongoStand.PulsePage.Iterator` | rultor-users/src/main/java/com/rultor/users/mongo/MongoStand.java:171-173 | each iteration opens a fresh cursor over the stand's current records, newest first |
| `MongoStand.PulsePage.Tail` | rultor-users/src/main/java/com/rultor/users/mongo/MongoStand.java:175-177 | `tail` fails as unsupported for every head |
| `UtcStamp.Started` | rultor-web/src/main/java/com/rultor/conveyer/LoggedInstance.java:93 | `formatUTC(date, "yyyy-MM-dd'T'HH:mm'Z'")` over UTC fields: year in at least four digits, the other fields in two, seconds dropped; its properties are the lemmas below |
| `UtcStamp.StartedShape` | rultor-web/src/main/java/com/rultor/conveyer/LoggedInstance.java:93 | for a valid time with a four-digit year the stamp has 17 characters, with `-` at 4 and 7, `T` at 10, `:` at 13 and `Z` last |
| `UtcStamp.ParseStartedInverts` | rultor-web/src/main/java/com/rultor/conveyer/LoggedInstance.java:93 | for a valid time with a four-digit year, reading the stamp back gives the year, month, day, hour and minute it was made from |
| `UtcStamp.SameStampSameMinute` | rultor-web/src/main/java/com/rultor/conveyer/LoggedInstance.java:93 | minute precision: two valid times, of any year, get the same stamp if and only if they fall in the same minute |
| `UtcStamp.ValueOfYearField` | rultor-web/src/main/java/com/rultor/conveyer/LoggedInstance.java:93 | the `yyyy` field of any year is all digits, at least four of them, and reads back as that year |
| `UtcStamp.DecimalLength` | rultor-web/src/main/java/com/rultor/conveyer/LoggedInstance.java:93 | a year of at least 10^k is written with more than k digits, so a year from 10000 on keeps all its digits |
| `UtcStamp.StampTailInjective` | rultor-web/src/main/java/com/rultor/conveyer/LoggedInstance.java:93 | the 13 characters after the year determine the month, day, hour and minute of a valid time |
| `UtcStamp.ValueOfFixed` | rultor-web/src/main/java/com/rultor/conveyer/LoggedInstance.java:93 | the zero-padded fixed-width fields read back as the number written |
| `Conveyer.MetaSignals` | rultor-web/src/main/java/com/rultor/conveyer/LoggedInstance.java:91-97 | the four (name, value) signals `started`, `owner`, `unit`, `spec` with the start stamp, the owner, the unit name and the spec text |
| `Conveyer.LifecycleOrder` | rultor-web/src/main/java/com/rultor/conveyer/LoggedInstance.java:88-103 | the steps of a pulse are registration of the group with the work, then the signals `started`, `owner`, `unit`, `spec`, then the delegate with the caller's state while the registry maps its group to the work and every other group keeps exactly the registration it had, then the signals the delegate itself logs, still before the group is unregistered, then exactly one unregistration of that group |
| `Conveyer.StartedSignalReadsBack` | rultor-web/src/main/java/com/rultor/conveyer/LoggedInstance.java:91-94 | for a valid time with a four-digit year, the first signal is `started`, 17 characters long, and reads back as the start minute |
| `Conveyer.ConveyerAppender.Register` | rultor-web/src/main/java/com/rultor/conveyer/LoggedInstance.java:90 | the group now maps to the work; other groups are untouched; the appender records the registration in the journal |
| `Conveyer.ConveyerAppender.Unregister` | rultor-web/src/main/java/com/rultor/conveyer/LoggedInstance.java:101 | the group has no registration left; other groups are untouched; the appender records the unregistration in the journal |
| `Conveyer.Instance.Pulse` | rultor-web/src/main/java/com/rultor/conveyer/LoggedInstance.java:99 | the wrapped instance receives the state, records in the journal the registry it runs under and then the signals it logs, and returns or throws as its behaviour says |
| `Conveyer.LoggedInstance.constructor` | rultor-web/src/main/java/com/rultor/conveyer/LoggedInstance.java:77-82 | the wrapper holds the given instance, work and appender, the instance logging through the same appender, with nothing logged yet |
| `Conveyer.LoggedInstance.Meta` | rultor-web/src/main/java/com/rultor/conveyer/LoggedInstance.java:110-112 | one signal (name, value) is appended to the log and recorded in the journal |
| `Conveyer.LoggedInstance.Pulse` | rultor-web/src/main/java/com/rultor/conveyer/LoggedInstance.java:88-103 | the outcome is the delegate's, a failure included, unchanged; the delegate got the same state; the group is unregistered afterwards on both paths; the wrapper itself logged exactly the four signals; the journal gained `Lifecycle`, including the delegate's own signals, whose events the appender, `Meta` and the instance each record themselves, so the delegate is shown to run with its group registered to the work |

## Left out

- The Mongo driver, `DBCollection`/`DBCursor` internals and the cached `collection()` lookup. The
  collection is an in-memory map, and a cursor is a sequence with a position. The
  `IllegalStateException` raised when the collection cannot be obtained is not modelled.
- Mongo's string sort follows its default binary comparison. `TextOrder` compares Unicode scalar
  values, which is the same order as comparing UTF-8 bytes, so it matches that comparison. Collations
  are not modelled. The order among records with equal `updated` is left open, as the store leaves it.
- MongoStand.Stand.Save: when the store reports a failed write, the model keeps the collection unchanged. A
  real write-concern failure may still have applied the write.
- A cursor's rows are fixed when the model opens it. A `DBCursor` runs its query lazily, at the
  first `hasNext()` or `next()`, so writes made between opening and first reading are not modelled.
- The `Timer` that closes the cursor ten seconds after it is opened. Only the closing itself
  (`Cursor.Close`) is modelled, with no clock.
- MongoStand.Cursor.HasNext: a closed cursor is modelled as reporting no more records, and its `Next` as
  failing with `CursorClosed`. The exception the driver raises there is not modelled.
- Races between concurrent `post` calls on the same pulse, because load, concatenate and upsert
  are not atomic. The lemmas about runs of posts assume no other writer.
- The Xembly language, `Snapshot` and `SimpleXml`. Replay is a function-typed parameter with only
  its two failure outcomes. The empty document is modelled as one with no nodes; what
  `Snapshot.empty()` contains is not part of this model.
- XPath in general. Only the meaning of the one fixed query `//tags/tag/label/text()` is modelled.
- `new Time()` and `new Date()`: they are parameters. `Time.toString()` is taken as the string
  stored in `updated`. The conversion of a `Date` to UTC calendar fields is not modelled, and
  neither are eras.
- UtcStamp.ParseStartedInverts: holds for years below 10000 only. Longer years are formatted with
  all their digits, with no claim about reading them back.
- UtcStamp.StartedShape: likewise holds for four-digit years only.
- Conveyer.StartedSignalReadsBack: likewise proved for four-digit years only; from the year 10000 on the stamp has 18 or more characters.
- `Logger` formatting and `Pulse.Signal.toString()`. Signals are (name, value) pairs.
- `ConveyerAppender` internals. The appender is a map from thread group to work.
- `name()`, `owner()` and `acl()` pass through to the original stand. Only `name` is kept, as a
  constant of `Stand`.
- Conveyer.Instance.Pulse: the wrapped instance's use of the registry is outside its frame. A
  delegate that registers or unregisters thread groups of its own, as a nested run in another
  group would, is not modelled. Its own signals reach the journal but not the wrapper's `log`,
  which holds only what `meta` wrote, and where the appender stores a captured line is not part of
  this model.
- Exceptions from `register` or from `meta`, which run before the `try`, and from `unregister` in
  the `finally`, are not modelled. All three are taken to return normally. A throw from
  `unregister` would replace the delegate's exception, so the promise that the delegate's outcome
  comes back unchanged rests on this.
- The `@NotNull` check on `state`. Dafny's class types are non-null.
- The notepad (`DomainNotepad`) and its integration test are not part of this model.
