# Plant phenotype observers and the molecular data pipeline, in Dafny

This project models the three pieces of logic in a small JavaScript code base
for tracking plant phenotypes:

- **The callback registry and threshold tracker**
  (`turn2modelA/PhenotypeObserver.js`, module `PhenotypeObservers`).
  - `PhenotypeObserver` keeps an ordered list of callbacks. `subscribe`
    appends, `unsubscribe` filters out every occurrence, and `notify` calls
    each listed callback in order.
  - `PlantPhenotype` keeps three numeric parameters and a fixed threshold
    table. `updatePhenotype` overwrites only parameters it already has. It
    sends one alert per parameter that ends strictly above its threshold.
  - Both are classes whose methods update their fields. Each call of a
    callback is recorded in a ghost log of (callback, payload) pairs.
- **The subject, observers, growth monitor and phenotype tracker**
  (`turn2modelB/DataPipeline.js`, module `GrowthTracking`).
  - `Subject` keeps a list of observers. `attachObserver` appends.
    `detachObserver` splices out the first occurrence. `notifyObservers`
    updates each observer in turn.
  - `GrowthMonitor.update` merges a change into the plant's record, or
    appends a new record.
  - `PhenotypeTracker.trackPhenotypes` keeps each parameter whose delta has
    magnitude at least 5. It then reports every item with a non-empty set of
    changes.
- **The two-stage pipeline** (`turn1modelA/DataPipeline.js`, module
  `MolecularPipeline`). `processMolecularData` validates its input outside the
  `try`, then runs the processor and the tracker. It turns any failure of a
  stage into one fixed error. The two mock stages add a `processed` or
  `tracked` flag to each element.

Shared modules:

- `JsValues` holds the JavaScript values that are modelled: primitives, plain
  objects as maps, and `Result`/`Outcome` for a call that returns or throws.
- `SeqFacts` holds generic facts about sequences.

Method contracts are tied to specification functions: `ApplyUpdates`,
`Notifications`, `Deliveries`, `RemoveAll`, `RemoveFirst`, `Upsert`,
`SignificantChanges`, `Changes`, `Reported` and `ApplyChanges`. Lemmas state
what those functions mean.

## Model

| member | source | states |
|---|---|---|
| JsValues.WithFlag | turn1modelA/DataPipeline.js:49 | `{ ...r, [name]: true }` has r's keys plus the flag, the flag is `true`, and every other field keeps its value |
| MolecularPipeline.ValidateInput | turn1modelA/DataPipeline.js:34-39 | passes exactly for an array with at least one element; otherwise fails with "Invalid input: expected a non-empty array." |
| MolecularPipeline.DataPipeline.ProcessMolecularData | turn1modelA/DataPipeline.js:17-27 | validation failure is returned unchanged, with no stage invoked; the stages run at most once each, in order; any stage failure becomes "Data processing failed"; success holds exactly when validation and both stages succeed, and returns the tracker's output on the processor's output |
| MolecularPipeline.FlagAll | turn1modelA/DataPipeline.js:47-61 | the `map` both mock stages perform (`process` with `processed`, `trackPhenotypes` with `tracked`) keeps length and order; each item keeps its fields and gains the flag set to `true` |
| MolecularPipeline.ProcessMarkers | turn1modelA/DataPipeline.js:47-50 | the mock `process`: one output per marker, in order, each the marker with `processed: true` added (`FlagAll` with `processed`) |
| MolecularPipeline.TrackMarkers | turn1modelA/DataPipeline.js:58-61 | the mock `trackPhenotypes`: one output per item, in order, each the item with `tracked: true` added (`FlagAll` with `tracked`) |
| MolecularPipeline.InvalidInputRunsNoStage | turn1modelA/DataPipeline.js:17-18 | for any stages, invalid input gives the validation error and runs no stage |
| MolecularPipeline.RejectedTestInputs | turn2modelB/DataPipeline.test.js:25-33 | `null`, `{}`, `''` and `[]` are all rejected with the validation message |
| MolecularPipeline.ProcessorFailureSkipsTracker | turn1modelA/DataPipeline.js:19-26 | a failing processor gives "Data processing failed" and the tracker is never invoked |
| MolecularPipeline.TrackerFailureIsWrapped | turn1modelA/DataPipeline.js:21-26 | a failing tracker gives the same wrapped error after both stages ran, with no partial result |
| MolecularPipeline.MockPipelineFlagsEveryMarker | turn1modelA/DataPipeline.js:46-61 | with the mock stages, each output element is its input marker plus `processed: true` and `tracked: true`, with the same length and order |
| MolecularPipeline.MockPipelineTestVector | turn2modelB/DataPipeline.test.js:14-23 | markers A and B come back as `{marker, processed: true, tracked: true}` |
| PhenotypeObservers.RemoveAll | turn2modelA/PhenotypeObserver.js:27 | the filtered list holds no `x`; every other callback keeps its count; the length drops by the count of `x`; without `x` the list is unchanged |
| PhenotypeObservers.RemoveAllDistributes | turn2modelA/PhenotypeObserver.js:27 | filtering distributes over concatenation, so the remaining callbacks keep their relative order |
| PhenotypeObservers.Deliveries | turn2modelA/PhenotypeObserver.js:35 | one call per list entry, the i-th to the i-th callback, all with the same payload |
| PhenotypeObservers.BroadcastAppend | turn2modelA/PhenotypeObserver.js:34-36 | a further `notify` appends its calls after the earlier ones |
| PhenotypeObservers.DeliveriesPerCallback | turn2modelA/PhenotypeObserver.js:34-36 | a callback is called once per entry it has in the list, and never if it has none |
| PhenotypeObservers.UnsubscribedNeverNotified | turn2modelA/PhenotypeObserver.js:26-36 | after `unsubscribe(x)`, no later sequence of `notify` calls calls `x` |
| PhenotypeObservers.BroadcastRecipients | turn2modelA/PhenotypeObserver.js:34-36 | every call made by a sequence of `notify` calls goes to a listed callback |
| PhenotypeObservers.DuplicateSubscriptionNotifiesTwice | turn2modelA/PhenotypeObserver.js:18-20 | a callback subscribed twice is called twice per `notify` |
| PhenotypeObservers.PhenotypeObserver.constructor | turn2modelA/PhenotypeObserver.js:10-12 | starts with no callbacks and no calls |
| PhenotypeObservers.PhenotypeObserver.Subscribe | turn2modelA/PhenotypeObserver.js:18-20 | appends at the end, earlier entries unchanged, the callback's count grows by one |
| PhenotypeObservers.PhenotypeObserver.Unsubscribe | turn2modelA/PhenotypeObserver.js:26-28 | the list becomes `RemoveAll` of the old list and no longer holds the callback |
| PhenotypeObservers.PhenotypeObserver.Notify | turn2modelA/PhenotypeObserver.js:34-36 | the list is unchanged; the call log grows by exactly `Deliveries(observers, data)` |
| PhenotypeObservers.NatToString | turn2modelA/PhenotypeObserver.js:80 | the decimal text of a natural number is non-empty and all digits; it starts with `0` only when the number is 0, and the text of 0 is exactly `0` |
| PhenotypeObservers.NatToStringRoundTrip | turn2modelA/PhenotypeObserver.js:80 | the decimal text reads back as the number |
| PhenotypeObservers.IntToString | turn2modelA/PhenotypeObserver.js:80 | a non-negative value prints as its digits; a negative one prints as `-` followed by the digits of its magnitude |
| PhenotypeObservers.IntToStringRoundTrip | turn2modelA/PhenotypeObserver.js:80 | the printed value reads back as the value, with its sign |
| PhenotypeObservers.Notification.Message | turn2modelA/PhenotypeObserver.js:80 | the alert message opens with the parameter name and is longer than the name and the fixed text together, so a value always follows |
| PhenotypeObservers.MessageIdentifiesValue | turn2modelA/PhenotypeObserver.js:77-81 | two alerts about the same parameter with the same message carry the same value: the message determines the value |
| PhenotypeObservers.MessageReadsBack | turn2modelA/PhenotypeObserver.js:77-81 | the message is the parameter, then " exceeded threshold! Current value: ", then the value's text, so each part can be recovered |
| PhenotypeObservers.ApplyUpdates | turn2modelA/PhenotypeObserver.js:61-68 | updating never adds or removes a parameter |
| PhenotypeObservers.Notifications | turn2modelA/PhenotypeObserver.js:61-83 | at most one alert per entry; every alert is for a known parameter whose value is strictly above its threshold |
| PhenotypeObservers.UntouchedParameterKeepsValue | turn2modelA/PhenotypeObserver.js:62-67 | a parameter that no entry names keeps its value |
| PhenotypeObservers.LastEntryWins | turn2modelA/PhenotypeObserver.js:62-67 | a known parameter ends with the value of the last entry that names it |
| PhenotypeObservers.ApplyUpdatesSplit | turn2modelA/PhenotypeObserver.js:61-68 | two updates in a row end where one update with all their entries ends |
| PhenotypeObservers.NotificationsSplit | turn2modelA/PhenotypeObserver.js:61-68 | the alerts of two batches are those of the first followed by those of the second |
| PhenotypeObservers.SingleEntryNotification | turn2modelA/PhenotypeObserver.js:75-83 | one entry alerts exactly when its key is known and its value is strictly above the threshold; a value equal to the threshold does not alert |
| PhenotypeObservers.UnknownKeysAreIgnored | turn2modelA/PhenotypeObserver.js:63 | entries with unknown keys change no parameter and send no alert |
| PhenotypeObservers.HitsOfLastEntry | turn2modelA/PhenotypeObserver.js:62-66 | the alerting entry positions are those of all but the last entry, plus the last one if it alerts |
| PhenotypeObservers.NotificationCount | turn2modelA/PhenotypeObserver.js:61-83 | the number of alerts equals the number of entries with a known key whose value exceeds its threshold |
| PhenotypeObservers.UpdateStep | turn2modelA/PhenotypeObserver.js:62-66 | one more entry sets a known key, or changes nothing; it adds that entry's calls, if any, after the earlier ones |
| PhenotypeObservers.PlantPhenotype.constructor | turn2modelA/PhenotypeObserver.js:43-55 | the three parameters start at 0; the thresholds are leafArea 50, stemHeight 30 and chlorophyllContent 5, and never change |
| PhenotypeObservers.PlantPhenotype.UpdatePhenotype | turn2modelA/PhenotypeObserver.js:61-68 | the parameters become `ApplyUpdates` of the old ones; the callback list is unchanged; the call log grows by each alert of `Notifications` delivered to every callback, in entry order |
| PhenotypeObservers.PlantPhenotype.CheckThreshold | turn2modelA/PhenotypeObserver.js:75-83 | the registry is notified once with the alert exactly when the value is strictly above the threshold; otherwise nothing is called |
| PhenotypeObservers.ApplyUpdatesAsWritten | turn2modelA/PhenotypeObserver.js:63-64 | with the `!== undefined` test as written, no parameter is ever lost |
| PhenotypeObservers.InheritedKeyBecomesParameter | turn2modelA/PhenotypeObserver.js:63 | `{constructor: 99}` adds a parameter as written, but changes nothing under the own-key test |
| PhenotypeObservers.ExampleScriptNotifications | turn2modelA/PhenotypeExampleObserver.js:16-19 | leafArea 60 and stemHeight 35 alert; chlorophyllContent 3 does not; chlorophyllContent 6 does |
| GrowthTracking.RemoveFirst | turn2modelB/DataPipeline.js:23-28 | an absent observer leaves the list unchanged; otherwise the length drops by one and exactly one occurrence is gone from the multiset |
| GrowthTracking.RemoveFirstSplices | turn2modelB/DataPipeline.js:24-26 | removing the first occurrence is `splice` at the index `indexOf` finds |
| GrowthTracking.DetachAfterDoubleAttach | turn2modelB/DataPipeline.js:15-28 | attaching an observer twice and detaching it once leaves it attached once |
| GrowthTracking.IndexOf | turn2modelB/DataPipeline.js:24 | -1 exactly when absent; otherwise the first index that holds the element |
| GrowthTracking.FirstBase | turn2modelB/DataPipeline.js:33-35 | every entry before the returned index is a monitor, and the entry at it, if any, is a base observer |
| GrowthTracking.FirstBaseAt | turn2modelB/DataPipeline.js:33-35 | the first base observer is determined by the entries before it |
| GrowthTracking.VisitsCountsEntries | turn2modelB/DataPipeline.js:34 | the number of visits to a monitor is the number of its entries |
| GrowthTracking.VisitsStep | turn2modelB/DataPipeline.js:34 | one more entry adds one visit exactly when it is the monitor's |
| GrowthTracking.VisitUpdates | turn2modelB/DataPipeline.js:34 | visiting one more entry updates a monitor once more exactly when the entry is that monitor's, and leaves its records alone otherwise |
| GrowthTracking.SoleMonitorReachedOnce | turn2modelB/DataPipeline.js:34 | a monitor that is the only observer is updated exactly once per round |
| GrowthTracking.Subject.constructor | turn2modelB/DataPipeline.js:7-9 | starts with no observers |
| GrowthTracking.Subject.AttachObserver | turn2modelB/DataPipeline.js:15-17 | appends at the end; the observer's count grows by one |
| GrowthTracking.Subject.DetachObserver | turn2modelB/DataPipeline.js:23-28 | the list becomes `RemoveFirst` of the old one; a present observer's count drops by exactly one |
| GrowthTracking.Subject.NotifyObservers | turn2modelB/DataPipeline.js:33-35 | with the change passed on: fails with the abstract-method error exactly when a base observer is listed; every monitor is updated once per entry it has before that observer |
| GrowthTracking.Subject.NotifyObserversDroppingPayload | turn2modelB/DataPipeline.js:33-35 | as written: the first observer throws (abstract-method or destructuring error), no record changes, and an empty list passes |
| GrowthTracking.Observer.constructor | turn2modelB/DataPipeline.js:42-44 | starts with no subject |
| GrowthTracking.Observer.SetSubject | turn2modelB/DataPipeline.js:50-52 | sets the subject |
| GrowthTracking.Observer.Update | turn2modelB/DataPipeline.js:57-59 | always fails with "Abstract method update() must be implemented." |
| GrowthTracking.FindRecord | turn2modelB/DataPipeline.js:111 | the index found is in range and its record is for the plant |
| GrowthTracking.FindRecordFindsFirst | turn2modelB/DataPipeline.js:111 | -1 exactly when no record is for the plant; otherwise no earlier record is for it |
| GrowthTracking.NewRecord | turn2modelB/DataPipeline.js:116 | `{ plantId, ...changedPhenotypes }` has the key `plantId` and the changed keys; every changed field has its changed value, and `plantId` is the change's plant id unless a changed field of that name overrides it |
| GrowthTracking.Upsert | turn2modelB/DataPipeline.js:108-118 | an update grows the records by at most one |
| GrowthTracking.UpsertAtFoundIndex | turn2modelB/DataPipeline.js:111-117 | the update merges the record at the index `find` returns, or appends `{plantId, ...changedPhenotypes}` when there is none |
| GrowthTracking.UpsertMerges | turn2modelB/DataPipeline.js:113-114 | a merge overwrites the changed fields, keeps the record's other fields and the record count, and leaves every other record untouched |
| GrowthTracking.UpsertAppends | turn2modelB/DataPipeline.js:115-116 | without a record, exactly one record is appended, after the unchanged old ones; it holds the plant id and the changed fields |
| GrowthTracking.UpsertKeepsPlantIds | turn2modelB/DataPipeline.js:110-117 | when the change does not rename the plant, every record keeps its plant id and an appended record has the plant's id |
| GrowthTracking.UpsertRecordsPlant | turn2modelB/DataPipeline.js:110-117 | after the update the plant has a record, and one record per plant is preserved |
| GrowthTracking.UpsertIdempotent | turn2modelB/DataPipeline.js:110-117 | the same change applied twice leaves the records as one application does |
| GrowthTracking.UpsertTimesIsUpsert | turn2modelB/DataPipeline.js:33-35 | a monitor attached several times ends as if updated once |
| GrowthTracking.ApplyChangesStep | turn2modelB/DataPipeline.js:88-92 | one more reported change is applied after the earlier ones |
| GrowthTracking.GrowthMonitor.constructor | turn2modelB/DataPipeline.js:103-106 | starts with no subject and no records |
| GrowthTracking.GrowthMonitor.SetSubject | turn2modelB/DataPipeline.js:50-52 | sets the subject |
| GrowthTracking.GrowthMonitor.Update | turn2modelB/DataPipeline.js:108-118 | an `undefined` change fails with the destructuring error and keeps the records; otherwise the records become `Upsert` of the old ones |
| GrowthTracking.GrowthMonitor.GetGrowthRecords | turn2modelB/DataPipeline.js:120-122 | returns the current records |
| GrowthTracking.SignificantAmongSelects | turn2modelB/DataPipeline.js:78-83 | among the parameters seen so far, exactly those whose delta has magnitude at least 5 are kept, each with its delta, and nothing else |
| GrowthTracking.SignificantChanges | turn2modelB/DataPipeline.js:75-83 | a parameter is kept exactly when its delta has magnitude at least 5, with the delta as value; only the three parameters can appear |
| GrowthTracking.Changes | turn2modelB/DataPipeline.js:74-85 | one change per item, in order, each holding the item and its significant changes |
| GrowthTracking.Reported | turn2modelB/DataPipeline.js:88-92 | no more reports than changes |
| GrowthTracking.ReportedSplit | turn2modelB/DataPipeline.js:88-92 | the reports of two batches are those of the first followed by those of the second |
| GrowthTracking.ReportedStep | turn2modelB/DataPipeline.js:88-92 | one more change is reported after the earlier ones exactly when it is non-empty |
| GrowthTracking.FirstReport | turn2modelB/DataPipeline.js:88-92 | a non-empty change with no report before it is the first report |
| GrowthTracking.ReportedExactly | turn2modelB/DataPipeline.js:89 | a change is reported exactly when it is among the changes and has at least one changed parameter |
| GrowthTracking.ChangesNeverRenamePlants | turn2modelB/DataPipeline.js:84 | no change ever names `plantId` among its changed parameters |
| GrowthTracking.ReportedPlantsHaveRecords | turn2modelB/DataPipeline.js:88-92 | after the reports, a reached monitor has a record for every reported plant, and one record per plant is preserved |
| GrowthTracking.PhenotypeTracker.constructor | turn2modelB/DataPipeline.js:67-69 | starts as a subject with no observers |
| GrowthTracking.PhenotypeTracker.ChangedPhenotypes | turn2modelB/DataPipeline.js:75-83 | the loop over the three parameters builds `SignificantChanges` of the deltas |
| GrowthTracking.PhenotypeTracker.PhenotypeChanges | turn2modelB/DataPipeline.js:74-85 | the `map` keeps the length and each item's data, introduces no other parameter, and equals `Changes` |
| GrowthTracking.PhenotypeTracker.ReportChanges | turn2modelB/DataPipeline.js:88-92 | with the change passed on to each observer's `update` (the corrected `notifyObservers`, see Findings), passes unless a base observer is listed and some change is reported, and then fails with the abstract-method error; each monitor ends with the reported changes applied in order, once per entry it has before the first base observer, and only the first report applied when a base observer stops the round |
| GrowthTracking.PhenotypeTracker.TrackPhenotypes | turn2modelB/DataPipeline.js:71-95 | with the change passed on to each observer's `update` (the corrected `notifyObservers`, see Findings), returns all the changes, unless a base observer is listed and some change is reported (then the abstract-method error); each monitor ends with every reported change applied in order, once per entry it has before the first base observer; with a base observer, only the first report is applied |
| GrowthTracking.DroppedPayloadExample | turn2modelB/DataPipeline.js:90 | with one monitor and a change to plant p1, the call as written fails with the destructuring error and records nothing; passing the change succeeds and records `{plantId: "p1", leafArea: 7.5}` |

## Left out

- Console output (`console.log` in the example script, `console.error` in `processMolecularData`) is not modelled; it has no effect on results.
- `Math.random` is replaced by a parameter. `trackPhenotypes` takes the draws as `deltas`, three per item in parameter order, and any real number is allowed. The `* 20 - 10` range is not modelled.
- `async`/`await` and Promises become plain sequencing. A rejected promise is an `Err` result.
- Numbers: the parameter values of `PlantPhenotype` are integers, and the message prints them in decimal. The deltas and records of the growth monitor are exact reals. IEEE 754 floating point, `NaN` and the way JavaScript prints non-integers are not modelled.
- IntToString: prints every digit of an integer. JavaScript's `${value}` prints an integer of magnitude 10^21 or more in exponent form (`1e+21`), and such values are not modelled.
- `Object.entries` order: an update is a sequence of (key, value) entries in the order given. JavaScript's own key order (integer-like keys first) is not modelled.
- `updatePhenotype` values are integers, so an entry whose value is `undefined` is not modelled. In the source such an entry stores `undefined`, and the `!== undefined` test then skips every later update of that parameter.
- MolecularPipeline.Input: an array holds records only. `validateInput` also accepts an array of non-objects such as `[null]`, `[1]` or `['ab']`, and the mock stages then spread each element into `{}` or into an object keyed by index (`{0: 'a', 1: 'b'}`) before adding the flag. Such arrays are not modelled.
- Values are primitives. Objects, functions and arrays nested inside records are not modelled, so `===` on them (object identity) is not either.
- The `GrowthMonitor` records are values. `Object.assign` on the found record becomes replacing it, which is the same while no one else holds that record. The array `getGrowthRecords` returns is a copy in the model, so a caller cannot change the monitor's records through it.
- An observer callback's own behaviour is not modelled: a call is recorded in the `delivered` ghost log and has no other effect. A callback that throws, or that subscribes or unsubscribes while `notify` runs, is not modelled.
- Observers are compared by identity. In the first registry a callback is an abstract id. In the `Subject`, an observer is either the base `Observer` or a `GrowthMonitor`. Other duck-typed objects with an `update` method are not modelled.
- `extends` is modelled by composition. `PhenotypeTracker` holds its `Subject` in a `const` field, and `GrowthMonitor` repeats the `subject` field and `setSubject` of `Observer`.
- The change object `{ ...data, changedPhenotypes }` is kept as its two parts. An item whose data already has a `changedPhenotypes` field, which the spread would overwrite, is not modelled.
- The error text of destructuring `undefined` is the one V8 prints. Other engines word it differently.
- turn2modelB/DataPipeline.js:126-128 exports `DataPipeline`, which that file never defines, so loading the module throws a `ReferenceError`. Module loading is not modelled.
- The Jest test runner and `jest.spyOn` are not modelled. The spy's role is played by the `invoked` list of stages in a `Run`.

## Findings

| source | as written | input that shows it | evidently intended | confidence | as-written member | corrected member |
|---|---|---|---|---|---|---|
| turn2modelB/DataPipeline.js:34 | `notifyObservers()` calls `observer.update()` with no argument, so the change passed at line 90 is dropped | one `GrowthMonitor` attached, one change for plant "p1" with `leafArea: 7.5`: `update(undefined)` throws while destructuring and no record is kept | each observer is updated with the change | not executed | GrowthTracking.Subject.NotifyObserversDroppingPayload, GrowthTracking.DroppedPayloadExample | GrowthTracking.Subject.NotifyObservers |
| turn2modelA/PhenotypeObserver.js:63 | the test `phenotypeParameters[key] !== undefined` also accepts names inherited from `Object.prototype` | `updatePhenotype({constructor: 99})` stores `constructor` as a fourth parameter | only the three own parameters are updated | not executed | PhenotypeObservers.ApplyUpdatesAsWritten, PhenotypeObservers.InheritedKeyBecomesParameter | PhenotypeObservers.ApplyUpdates |

The rest of the model uses the corrected members: `PlantPhenotype.UpdatePhenotype` applies `ApplyUpdates`, and `PhenotypeTracker.ReportChanges` calls `Subject.NotifyObservers`.
