/** The object-style observer of turn2modelB/DataPipeline.js: a subject that
    keeps an ordered list of observer objects, the abstract base observer, a
    growth monitor that keeps one growth record per plant, and a phenotype
    tracker that reports significant phenotype changes to its observers.

    `PhenotypeTracker extends Subject` in the source; here the tracker owns
    its subject as a constant field. The two kinds of observer object are
    told apart by an `ObserverHandle`, whose equality is the identity of the
    object it holds, as `indexOf` compares with `===`. */
module GrowthTracking {
  import opened JsValues
  import opened SeqFacts

  const AbstractUpdateMessage: string := "Abstract method update() must be implemented."

  /** The error V8 raises when `update` destructures an `undefined` change. */
  const UndefinedChangeMessage: string := "Cannot destructure property 'plantId' of 'change' as it is undefined."

  /** The parameters the tracker draws a change for, in drawing order. */
  const PhenotypeParams: seq<string> := ["leafArea", "stemHeight", "chlorophyllContent"]

  /** A change is significant when its magnitude is at least this. */
  const SignificanceThreshold: real := 5.0

  datatype Option<T> = None | Some(value: T)

  /** `{ ...data, changedPhenotypes }`: an input item together with the
      parameters whose change was significant. */
  datatype PhenotypeChange = PhenotypeChange(data: Record, changedPhenotypes: Record)
  {
    /** The `plantId` the monitor destructures from the change. */
    function PlantId(): Value
    {
      Get(data, "plantId")
    }
  }

  // ---------------------------------------------------------------------------
  // The observer list
  // ---------------------------------------------------------------------------

  /** The list after `splice(indexOf(x), 1)`: the first occurrence of `x` is
      gone, everything else stays in order. */
  function RemoveFirst<T(==)>(s: seq<T>, x: T): (r: seq<T>)
    ensures x !in s ==> r == s
    ensures x in s ==> |r| == |s| - 1 && multiset(r) == multiset(s) - multiset{x}
  {
    if s == [] then []
    else
      assert s == [s[0]] + s[1..];
      if s[0] == x then s[1..] else [s[0]] + RemoveFirst(s[1..], x)
  }

  /** Removing the first occurrence is splicing out its index. */
  lemma {:induction false} RemoveFirstSplices<T>(s: seq<T>, x: T, i: nat)
    requires i < |s| && s[i] == x && x !in s[..i]
    ensures RemoveFirst(s, x) == s[..i] + s[i + 1..]
  {
    if i > 0 {
      var tail := s[1..];
      assert s[0] in s[..i];
      assert tail[..i - 1] == s[1..i];
      RemoveFirstSplices(tail, x, i - 1);
      assert tail[i..] == s[i + 1..];
      assert [s[0]] + s[1..i] == s[..i];
      AppendAssociates([s[0]], s[1..i], s[i + 1..]);
    }
  }

  /** Attaching an observer twice and detaching it once leaves it attached
      once, at its first place. */
  lemma DetachAfterDoubleAttach<T>(s: seq<T>, x: T)
    requires x !in s
    ensures RemoveFirst(s + [x] + [x], x) == s + [x]
  {
    RemoveFirstSplices(s + [x] + [x], x, |s|);
    assert (s + [x] + [x])[..|s|] == s;
  }

  /** `indexOf`: the first index holding `x`, or -1. */
  method IndexOf<T(==)>(s: seq<T>, x: T) returns (i: int)
    ensures i == -1 <==> x !in s
    ensures i != -1 ==> 0 <= i < |s| && s[i] == x && x !in s[..i]
  {
    i := 0;
    while i < |s|
      invariant 0 <= i <= |s|
      invariant x !in s[..i]
    {
      if s[i] == x {
        return;
      }
      assert s[..i + 1] == s[..i] + [s[i]];
      i := i + 1;
    }
    assert s[..i] == s;
    i := -1;
  }

  /** An attached observer: the abstract base class or a growth monitor. */
  datatype ObserverHandle = Base(observer: Observer) | Monitor(monitor: GrowthMonitor)

  /** The index of the first base observer, or the length when there is none:
      `forEach` stops at the first `update` that throws. */
  function FirstBase(observers: seq<ObserverHandle>): (k: nat)
    ensures k <= |observers|
    ensures forall j :: 0 <= j < k ==> observers[j].Monitor?
    ensures k < |observers| ==> observers[k].Base?
  {
    if observers == [] || observers[0].Base? then 0 else 1 + FirstBase(observers[1..])
  }

  /** The first base observer is at `i` when all entries before it are
      monitors and `i` is a base observer or the end of the list. */
  lemma {:induction false} FirstBaseAt(observers: seq<ObserverHandle>, i: nat)
    requires i <= |observers|
    requires forall j :: 0 <= j < i ==> observers[j].Monitor?
    requires i < |observers| ==> observers[i].Base?
    ensures FirstBase(observers) == i
  {
    if i > 0 {
      FirstBaseAt(observers[1..], i - 1);
    }
  }

  /** The number of entries for monitor `m`. */
  function Visits(observers: seq<ObserverHandle>, m: GrowthMonitor): nat
  {
    if observers == [] then 0
    else Visits(observers[..|observers| - 1], m) + if observers[|observers| - 1] == Monitor(m) then 1 else 0
  }

  /** `Visits` counts the entries for the monitor. */
  lemma {:induction false} VisitsCountsEntries(observers: seq<ObserverHandle>, m: GrowthMonitor)
    ensures Visits(observers, m) == multiset(observers)[Monitor(m)]
  {
    if observers != [] {
      var front := observers[..|observers| - 1];
      VisitsCountsEntries(front, m);
      assert observers == front + [observers[|observers| - 1]];
    }
  }

  /** One more entry: `Visits` grows by one exactly when it is for `m`. */
  lemma VisitsStep(observers: seq<ObserverHandle>, i: nat, m: GrowthMonitor)
    requires i < |observers|
    ensures Visits(observers[..i + 1], m) == Visits(observers[..i], m) + if observers[i] == Monitor(m) then 1 else 0
  {
    PrefixStep(observers, i);
  }

  /** Visiting entry `i` updates `m` once more exactly when the entry is
      `m`'s, and leaves its records alone otherwise. */
  lemma VisitUpdates(initial: seq<Record>, before: seq<Record>, after: seq<Record>, change: PhenotypeChange,
                     observers: seq<ObserverHandle>, i: nat, m: GrowthMonitor)
    requires i < |observers|
    requires before == UpsertTimes(initial, change, Visits(observers[..i], m))
    requires after == if observers[i] == Monitor(m) then Upsert(before, change) else before
    ensures after == UpsertTimes(initial, change, Visits(observers[..i + 1], m))
  {
    VisitsStep(observers, i, m);
  }

  /** How many times one round of notification updates monitor `m`: once per
      entry for it before the first base observer. */
  function Reached(observers: seq<ObserverHandle>, m: GrowthMonitor): nat
  {
    Visits(observers[..FirstBase(observers)], m)
  }

  /** `Subject`: the ordered list of attached observers. */
  class Subject {
    var observers: seq<ObserverHandle>

    constructor()
      ensures observers == []
    {
      observers := [];
    }

    /** The growth monitors attached to this subject. */
    ghost function Monitors(): set<GrowthMonitor>
      reads this
    {
      set h | h in observers && h.Monitor? :: h.monitor
    }

    /** `attachObserver`: pushes, without looking for an earlier entry. */
    method AttachObserver(observer: ObserverHandle)
      modifies this`observers
      ensures observers == old(observers) + [observer]
      ensures multiset(observers)[observer] == multiset(old(observers))[observer] + 1
    {
      observers := observers + [observer];
    }

    /** `detachObserver`: removes the first entry for `observer`, if any. */
    method DetachObserver(observer: ObserverHandle)
      modifies this`observers
      ensures observers == RemoveFirst(old(observers), observer)
      ensures observer in old(observers) ==> multiset(observers)[observer] == multiset(old(observers))[observer] - 1
    {
      var index := IndexOf(observers, observer);
      if index != -1 {
        RemoveFirstSplices(observers, observer, index);
        observers := observers[..index] + observers[index + 1..];
      }
    }

    /** `notifyObservers(change)`, the call `trackPhenotypes` makes: every
        entry, in list order, is updated with the change, until a base
        observer throws; its error then escapes. A monitor attached twice is
        updated twice. */
    method NotifyObservers(change: PhenotypeChange) returns (r: Outcome)
      modifies Monitors()`growthRecords
      ensures r == if FirstBase(observers) < |observers| then Fail(AbstractUpdateMessage) else Pass
      ensures forall m {:trigger old(m.growthRecords)} :: m in Monitors() ==>
                m.growthRecords == UpsertTimes(old(m.growthRecords), change, Reached(observers, m))
    {
      var list := observers;
      ghost var monitors := Monitors();
      ghost var stop := FirstBase(list);
      for i := 0 to |list|
        invariant i <= stop
        invariant forall m {:trigger old(m.growthRecords)} :: m in monitors ==>
                    m.growthRecords == UpsertTimes(old(m.growthRecords), change, Visits(list[..i], m))
      {
        if list[i].Base? {
          r := list[i].observer.Update();
          return;
        }
        var monitor := list[i].monitor;
        label before:
        var _ := monitor.Update(Some(change));
        forall m | m in monitors
          ensures m.growthRecords == UpsertTimes(old(m.growthRecords), change, Visits(list[..i + 1], m))
        {
          VisitUpdates(old(m.growthRecords), old@before(m.growthRecords), m.growthRecords, change, list, i, m);
        }
      }
      WholePrefix(list);
      r := Pass;
    }

    /** `notifyObservers()` as written: `update` is called without the change,
        so the first observer throws (a base observer its abstract-method
        error, a monitor a destructuring error) and no record changes. */
    method NotifyObserversDroppingPayload() returns (r: Outcome)
      modifies Monitors()`growthRecords
      ensures forall m :: m in Monitors() ==> m.growthRecords == old(m.growthRecords)
      ensures observers == [] ==> r == Pass
      ensures observers != [] && observers[0].Base? ==> r == Fail(AbstractUpdateMessage)
      ensures observers != [] && observers[0].Monitor? ==> r == Fail(UndefinedChangeMessage)
    {
      if observers == [] {
        return Pass;
      }
      match observers[0]
      case Base(o) =>
        r := o.Update();
      case Monitor(m) =>
        r := m.Update(None);
    }
  }

  /** `Observer`: the abstract base class. */
  class Observer {
    var subject: Subject?

    constructor()
      ensures subject == null
    {
      subject := null;
    }

    method SetSubject(subject: Subject)
      modifies this`subject
      ensures this.subject == subject
    {
      this.subject := subject;
    }

    /** `update`: the base class always throws. */
    method Update() returns (r: Outcome)
      ensures r == Fail(AbstractUpdateMessage)
    {
      r := Fail(AbstractUpdateMessage);
    }
  }

  // ---------------------------------------------------------------------------
  // Growth records
  // ---------------------------------------------------------------------------

  /** `growthRecords.find(record => record.plantId === plantId)`: the index of
      the first record for the plant, or -1. */
  function FindRecord(records: seq<Record>, plantId: Value): (i: int)
    ensures -1 <= i < |records|
    ensures i >= 0 ==> Get(records[i], "plantId") == plantId
  {
    if records == [] then -1
    else if Get(records[0], "plantId") == plantId then 0
    else
      var j := FindRecord(records[1..], plantId);
      if j == -1 then -1 else j + 1
  }

  /** `find` returns -1 exactly when no record is for the plant, and otherwise
      the first record that is. */
  lemma {:induction false} FindRecordFindsFirst(records: seq<Record>, plantId: Value)
    ensures var i := FindRecord(records, plantId);
            && (i == -1 <==> forall k :: 0 <= k < |records| ==> Get(records[k], "plantId") != plantId)
            && (i >= 0 ==> forall k :: 0 <= k < i ==> Get(records[k], "plantId") != plantId)
  {
    if records != [] {
      FindRecordFindsFirst(records[1..], plantId);
      assert forall k :: 1 <= k < |records| ==> records[k] == records[1..][k - 1];
    }
  }

  /** The record `{ plantId, ...changedPhenotypes }` an update appends. */
  function NewRecord(change: PhenotypeChange): (r: Record)
    ensures r.Keys == change.changedPhenotypes.Keys + {"plantId"}
    ensures forall k :: k in change.changedPhenotypes ==> r[k] == change.changedPhenotypes[k]
    ensures "plantId" !in change.changedPhenotypes ==> r["plantId"] == change.PlantId()
  {
    map["plantId" := change.PlantId()] + change.changedPhenotypes
  }

  /** The records after `update(change)`: the plant's first record is merged
      with the changed fields (`Object.assign`), or a new record is appended
      when the plant has none. */
  function Upsert(records: seq<Record>, change: PhenotypeChange): (r: seq<Record>)
    ensures |records| <= |r| <= |records| + 1
  {
    if records == [] then [NewRecord(change)]
    else if Get(records[0], "plantId") == change.PlantId() then [records[0] + change.changedPhenotypes] + records[1..]
    else [records[0]] + Upsert(records[1..], change)
  }

  /** `Upsert` is the update at the index `find` returns: a merge of that
      record, or an append when there is none. */
  lemma {:induction false} UpsertAtFoundIndex(records: seq<Record>, change: PhenotypeChange)
    ensures var i := FindRecord(records, change.PlantId());
            Upsert(records, change) ==
              if i == -1 then records + [NewRecord(change)] else records[i := records[i] + change.changedPhenotypes]
  {
    if records != [] {
      var head, tail := records[0], records[1..];
      assert records == [head] + tail;
      if Get(head, "plantId") != change.PlantId() {
        UpsertAtFoundIndex(tail, change);
        var j := FindRecord(tail, change.PlantId());
        if j == -1 {
          assert [head] + (tail + [NewRecord(change)]) == records + [NewRecord(change)];
        } else {
          assert [head] + tail[j := tail[j] + change.changedPhenotypes] ==
                 records[j + 1 := records[j + 1] + change.changedPhenotypes];
        }
      }
    }
  }

  /** An update of a plant that has a record overwrites the changed fields of
      its first record, keeps that record's other fields, and touches no other
      record. */
  lemma UpsertMerges(records: seq<Record>, change: PhenotypeChange)
    requires FindRecord(records, change.PlantId()) >= 0
    ensures var i, r := FindRecord(records, change.PlantId()), Upsert(records, change);
            && |r| == |records|
            && r[i].Keys == records[i].Keys + change.changedPhenotypes.Keys
            && (forall k :: k in change.changedPhenotypes ==> r[i][k] == change.changedPhenotypes[k])
            && (forall k :: k in records[i] && k !in change.changedPhenotypes ==> r[i][k] == records[i][k])
            && (forall j :: 0 <= j < |records| && j != i ==> r[j] == records[j])
  {
    UpsertAtFoundIndex(records, change);
  }

  /** An update of a plant without a record appends exactly one record, made
      of the plant id and the changed fields. */
  lemma UpsertAppends(records: seq<Record>, change: PhenotypeChange)
    requires FindRecord(records, change.PlantId()) == -1
    ensures var r := Upsert(records, change);
            && |r| == |records| + 1
            && r[..|records|] == records
            && r[|records|].Keys == {"plantId"} + change.changedPhenotypes.Keys
            && (forall k :: k in change.changedPhenotypes ==> r[|records|][k] == change.changedPhenotypes[k])
            && ("plantId" !in change.changedPhenotypes ==> r[|records|]["plantId"] == change.PlantId())
  {
    UpsertAtFoundIndex(records, change);
  }

  /** No two records are for the same plant. */
  predicate OneRecordPerPlant(records: seq<Record>)
  {
    forall i, j :: 0 <= i < j < |records| ==> Get(records[i], "plantId") != Get(records[j], "plantId")
  }

  /** An update that does not rename a plant keeps every record's plant and
      gives an appended record the plant's id. */
  lemma UpsertKeepsPlantIds(records: seq<Record>, change: PhenotypeChange)
    requires "plantId" !in change.changedPhenotypes
    ensures var r := Upsert(records, change);
            && (forall k :: 0 <= k < |records| ==> Get(r[k], "plantId") == Get(records[k], "plantId"))
            && (forall k :: |records| <= k < |r| ==> Get(r[k], "plantId") == change.PlantId())
  {
    UpsertAtFoundIndex(records, change);
    var i := FindRecord(records, change.PlantId());
    if i == -1 {
      assert Get(NewRecord(change), "plantId") == change.PlantId();
    } else {
      assert Get(records[i] + change.changedPhenotypes, "plantId") == Get(records[i], "plantId");
    }
  }

  /** After an update that does not rename a plant, the plant has a record,
      and there is still one record per plant. */
  lemma UpsertRecordsPlant(records: seq<Record>, change: PhenotypeChange)
    requires "plantId" !in change.changedPhenotypes
    ensures var r := Upsert(records, change);
            && FindRecord(r, change.PlantId()) >= 0
            && (OneRecordPerPlant(records) ==> OneRecordPerPlant(r))
  {
    var r, id := Upsert(records, change), change.PlantId();
    UpsertAtFoundIndex(records, change);
    UpsertKeepsPlantIds(records, change);
    FindRecordFindsFirst(records, id);
    FindRecordFindsFirst(r, id);
    var i := FindRecord(records, id);
    var w := if i == -1 then |records| else i;
    assert Get(r[w], "plantId") == id;
    if OneRecordPerPlant(records) {
      forall a, b | 0 <= a < b < |r|
        ensures Get(r[a], "plantId") != Get(r[b], "plantId")
      {
        if b == |records| {
          assert Get(r[a], "plantId") == Get(records[a], "plantId");
        }
      }
    }
  }

  /** Updating a monitor twice with the same change leaves the records as one
      update does, when the change does not rename the plant. */
  lemma {:induction false} UpsertIdempotent(records: seq<Record>, change: PhenotypeChange)
    requires "plantId" !in change.changedPhenotypes
    ensures Upsert(Upsert(records, change), change) == Upsert(records, change)
  {
    var c := change.changedPhenotypes;
    if records == [] {
      assert Get(NewRecord(change), "plantId") == change.PlantId();
      assert NewRecord(change) + c == NewRecord(change);
    } else if Get(records[0], "plantId") == change.PlantId() {
      assert Get(records[0] + c, "plantId") == change.PlantId();
      assert (records[0] + c) + c == records[0] + c;
    } else {
      var once := Upsert(records, change);
      UpsertIdempotent(records[1..], change);
      assert once[0] == records[0] && once[1..] == Upsert(records[1..], change);
    }
  }

  /** The records after `n` updates with the same change. */
  function UpsertTimes(records: seq<Record>, change: PhenotypeChange, n: nat): seq<Record>
  {
    if n == 0 then records else Upsert(UpsertTimes(records, change, n - 1), change)
  }

  /** A monitor attached more than once ends as if attached once. */
  lemma {:induction false} UpsertTimesIsUpsert(records: seq<Record>, change: PhenotypeChange, n: nat)
    requires "plantId" !in change.changedPhenotypes
    requires n >= 1
    ensures UpsertTimes(records, change, n) == Upsert(records, change)
  {
    if n > 1 {
      UpsertTimesIsUpsert(records, change, n - 1);
      UpsertIdempotent(records, change);
    }
  }

  /** The records after each change of a sequence, in order, reached `n` times. */
  function ApplyChanges(records: seq<Record>, changes: seq<PhenotypeChange>, n: nat): seq<Record>
  {
    if changes == [] then records
    else UpsertTimes(ApplyChanges(records, changes[..|changes| - 1], n), changes[|changes| - 1], n)
  }

  /** One more change applies after the earlier ones. */
  lemma ApplyChangesStep(records: seq<Record>, changes: seq<PhenotypeChange>, change: PhenotypeChange, n: nat)
    ensures ApplyChanges(records, changes + [change], n) == UpsertTimes(ApplyChanges(records, changes, n), change, n)
  {
    PrefixOfSnoc(changes, change);
  }

  /** `GrowthMonitor`: the growth records it has built from the changes it was
      given. */
  class GrowthMonitor {
    var subject: Subject?
    var growthRecords: seq<Record>

    constructor()
      ensures subject == null && growthRecords == []
    {
      subject := null;
      growthRecords := [];
    }

    method SetSubject(subject: Subject)
      modifies this`subject
      ensures this.subject == subject
    {
      this.subject := subject;
    }

    /** `update(change)`: an `undefined` change cannot be destructured;
        otherwise the plant's record is merged or appended. */
    method Update(change: Option<PhenotypeChange>) returns (r: Outcome)
      modifies this`growthRecords
      ensures change.None? ==> r == Fail(UndefinedChangeMessage) && growthRecords == old(growthRecords)
      ensures change.Some? ==> r == Pass && growthRecords == Upsert(old(growthRecords), change.value)
    {
      if change.None? {
        return Fail(UndefinedChangeMessage);
      }
      var plantId, changedPhenotypes := change.value.PlantId(), change.value.changedPhenotypes;
      UpsertAtFoundIndex(growthRecords, change.value);
      var existing := FindRecord(growthRecords, plantId);
      if existing != -1 {
        growthRecords := growthRecords[existing := growthRecords[existing] + changedPhenotypes];
      } else {
        growthRecords := growthRecords + [map["plantId" := plantId] + changedPhenotypes];
      }
      r := Pass;
    }

    method GetGrowthRecords() returns (records: seq<Record>)
      ensures records == growthRecords
    {
      records := growthRecords;
    }
  }

  // ---------------------------------------------------------------------------
  // Tracking phenotypes
  // ---------------------------------------------------------------------------

  function Abs(x: real): real
  {
    if x < 0.0 then -x else x
  }

  /** The changed parameters among the first `n`, given one delta per
      parameter. */
  function SignificantAmong(deltas: seq<real>, n: nat): Record
    requires |deltas| == |PhenotypeParams| && n <= |PhenotypeParams|
  {
    if n == 0 then map[]
    else
      var earlier := SignificantAmong(deltas, n - 1);
      if Abs(deltas[n - 1]) >= SignificanceThreshold then earlier[PhenotypeParams[n - 1] := Num(deltas[n - 1])]
      else earlier
  }

  /** Among the first `n` parameters, exactly those whose delta has magnitude
      at least 5 are changed, each to its delta, and nothing else is. */
  lemma {:induction false} SignificantAmongSelects(deltas: seq<real>, n: nat)
    requires |deltas| == |PhenotypeParams| && n <= |PhenotypeParams|
    ensures var changed := SignificantAmong(deltas, n);
            && (forall j :: 0 <= j < n ==>
                  (PhenotypeParams[j] in changed <==> Abs(deltas[j]) >= SignificanceThreshold))
            && (forall j :: 0 <= j < n && PhenotypeParams[j] in changed ==> changed[PhenotypeParams[j]] == Num(deltas[j]))
            && (forall k :: k in changed ==> k in PhenotypeParams[..n])
  {
    if n > 0 {
      SignificantAmongSelects(deltas, n - 1);
      assert PhenotypeParams[..n] == PhenotypeParams[..n - 1] + [PhenotypeParams[n - 1]];
    }
  }

  /** The `changedPhenotypes` of one item, given its three deltas. */
  function SignificantChanges(deltas: seq<real>): (changed: Record)
    requires |deltas| == |PhenotypeParams|
    ensures forall j :: 0 <= j < |PhenotypeParams| ==>
              (PhenotypeParams[j] in changed <==> Abs(deltas[j]) >= SignificanceThreshold)
    ensures forall j :: 0 <= j < |PhenotypeParams| && PhenotypeParams[j] in changed ==>
              changed[PhenotypeParams[j]] == Num(deltas[j])
    ensures changed.Keys <= {"leafArea", "stemHeight", "chlorophyllContent"}
  {
    WholePrefix(PhenotypeParams);
    SignificantAmongSelects(deltas, |PhenotypeParams|);
    SignificantAmong(deltas, |PhenotypeParams|)
  }

  /** The changes `trackPhenotypes` returns, one per input item. */
  function Changes(processedData: seq<Record>, deltas: seq<seq<real>>): (changes: seq<PhenotypeChange>)
    requires |deltas| == |processedData|
    requires forall i :: 0 <= i < |deltas| ==> |deltas[i]| == |PhenotypeParams|
    ensures |changes| == |processedData|
    ensures forall i :: 0 <= i < |changes| ==>
              changes[i] == PhenotypeChange(processedData[i], SignificantChanges(deltas[i]))
  {
    seq(|processedData|, i requires 0 <= i < |processedData| => PhenotypeChange(processedData[i], SignificantChanges(deltas[i])))
  }

  /** The changes that are sent to the observers: those with a non-empty
      `changedPhenotypes`, in order. */
  function Reported(changes: seq<PhenotypeChange>): (sent: seq<PhenotypeChange>)
    ensures |sent| <= |changes|
  {
    if changes == [] then []
    else
      var last := changes[|changes| - 1];
      Reported(changes[..|changes| - 1]) + if |last.changedPhenotypes| > 0 then [last] else []
  }

  /** `Reported` of two batches is the concatenation of theirs. */
  lemma {:induction false} ReportedSplit(a: seq<PhenotypeChange>, b: seq<PhenotypeChange>)
    ensures Reported(a + b) == Reported(a) + Reported(b)
  {
    if b == [] {
      assert a + b == a;
    } else {
      ReportedSplit(a, b[..|b| - 1]);
      DropLastOfAppend(a, b);
    }
  }

  /** One more change adds itself to the reports when it is non-empty. */
  lemma ReportedStep(changes: seq<PhenotypeChange>, i: nat)
    requires i < |changes|
    ensures Reported(changes[..i + 1]) ==
              Reported(changes[..i]) + if |changes[i].changedPhenotypes| > 0 then [changes[i]] else []
  {
    PrefixStep(changes, i);
  }

  /** A non-empty change with no report before it is the first report. */
  lemma FirstReport(changes: seq<PhenotypeChange>, i: nat)
    requires i < |changes| && |changes[i].changedPhenotypes| > 0
    requires Reported(changes[..i]) == []
    ensures Reported(changes) != [] && Reported(changes)[..1] == [changes[i]]
  {
    var head, rest := changes[..i + 1], changes[i + 1..];
    ReportedStep(changes, i);
    assert Reported(head) == [changes[i]];
    ReportedSplit(head, rest);
    SplitAt(changes, i + 1);
    assert Reported(changes) == [changes[i]] + Reported(rest);
  }

  /** Every change whose `changedPhenotypes` is non-empty is reported, and
      only those. */
  lemma {:induction false} ReportedExactly(changes: seq<PhenotypeChange>, c: PhenotypeChange)
    ensures c in Reported(changes) <==> c in changes && |c.changedPhenotypes| > 0
  {
    if changes != [] {
      var front := changes[..|changes| - 1];
      ReportedExactly(front, c);
      assert changes == front + [changes[|changes| - 1]];
    }
  }

  /** Changed parameters never name the plant, so reporting a change never
      renames a record. */
  lemma ChangesNeverRenamePlants(processedData: seq<Record>, deltas: seq<seq<real>>)
    requires |deltas| == |processedData|
    requires forall i :: 0 <= i < |deltas| ==> |deltas[i]| == |PhenotypeParams|
    ensures forall c :: c in Changes(processedData, deltas) ==> "plantId" !in c.changedPhenotypes
  {
  }

  /** After a round of reports, a monitor that was reached holds a record for
      every reported plant, and still one record per plant. */
  lemma {:induction false} ReportedPlantsHaveRecords(records: seq<Record>, sent: seq<PhenotypeChange>, n: nat)
    requires n >= 1
    requires forall c :: c in sent ==> "plantId" !in c.changedPhenotypes
    ensures var r := ApplyChanges(records, sent, n);
            && (forall c :: c in sent ==> FindRecord(r, c.PlantId()) >= 0)
            && (OneRecordPerPlant(records) ==> OneRecordPerPlant(r))
  {
    if sent != [] {
      var front, last := sent[..|sent| - 1], sent[|sent| - 1];
      assert sent == front + [last];
      ReportedPlantsHaveRecords(records, front, n);
      var before := ApplyChanges(records, front, n);
      UpsertTimesIsUpsert(before, last, n);
      UpsertKeepsPlantIds(before, last);
      UpsertRecordsPlant(before, last);
      var after := Upsert(before, last);
      assert ApplyChanges(records, sent, n) == after;
      forall c | c in front
        ensures FindRecord(after, c.PlantId()) >= 0
      {
        var k := FindRecord(before, c.PlantId());
        assert Get(after[k], "plantId") == c.PlantId();
        FindRecordFindsFirst(after, c.PlantId());
      }
    }
  }

  /** `PhenotypeTracker`: a subject that reports phenotype changes. */
  class PhenotypeTracker {
    const subject: Subject

    constructor()
      ensures fresh(subject) && subject.observers == []
    {
      subject := new Subject();
    }

    /** The `forEach` over the three parameters: keeps each one whose delta
        has magnitude at least 5. */
    method ChangedPhenotypes(deltas: seq<real>) returns (changedPhenotypes: Record)
      requires |deltas| == |PhenotypeParams|
      ensures changedPhenotypes == SignificantChanges(deltas)
    {
      changedPhenotypes := map[];
      for j := 0 to |PhenotypeParams|
        invariant changedPhenotypes == SignificantAmong(deltas, j)
      {
        var randomChange := deltas[j];
        if Abs(randomChange) >= SignificanceThreshold {
          changedPhenotypes := changedPhenotypes[PhenotypeParams[j] := Num(randomChange)];
        }
      }
    }

    /** The `map` over the items: each item with its changed parameters. */
    method PhenotypeChanges(processedData: seq<Record>, deltas: seq<seq<real>>)
      returns (phenotypeChanges: seq<PhenotypeChange>)
      requires |deltas| == |processedData|
      requires forall i :: 0 <= i < |deltas| ==> |deltas[i]| == |PhenotypeParams|
      ensures |phenotypeChanges| == |processedData|
      ensures forall i :: 0 <= i < |processedData| ==>
                && phenotypeChanges[i].data == processedData[i]
                && phenotypeChanges[i].changedPhenotypes.Keys <= {"leafArea", "stemHeight", "chlorophyllContent"}
      ensures phenotypeChanges == Changes(processedData, deltas)
    {
      phenotypeChanges := [];
      for i := 0 to |processedData|
        invariant |phenotypeChanges| == i
        invariant forall k :: 0 <= k < i ==>
                    phenotypeChanges[k] == PhenotypeChange(processedData[k], SignificantChanges(deltas[k]))
      {
        var changedPhenotypes := ChangedPhenotypes(deltas[i]);
        phenotypeChanges := phenotypeChanges + [PhenotypeChange(processedData[i], changedPhenotypes)];
      }
    }

    /** The `forEach` that reports each non-empty change to the observers, in
        order. If a report throws, its error escapes and the remaining changes
        are not reported. */
    method ReportChanges(phenotypeChanges: seq<PhenotypeChange>) returns (r: Outcome)
      modifies subject.Monitors()`growthRecords
      ensures var sent := Reported(phenotypeChanges);
              var fails := FirstBase(subject.observers) < |subject.observers| && sent != [];
              && r == (if fails then Fail(AbstractUpdateMessage) else Pass)
              && forall m {:trigger old(m.growthRecords)} :: m in subject.Monitors() ==>
                   m.growthRecords ==
                     ApplyChanges(old(m.growthRecords), if fails then sent[..1] else sent, Reached(subject.observers, m))
    {
      ghost var observers, monitors := subject.observers, subject.Monitors();
      ghost var fails := FirstBase(observers) < |observers|;
      WholePrefix(phenotypeChanges);
      ghost var sent: seq<PhenotypeChange> := [];
      for i := 0 to |phenotypeChanges|
        invariant sent == Reported(phenotypeChanges[..i])
        invariant fails ==> sent == []
        invariant forall m {:trigger old(m.growthRecords)} :: m in monitors ==>
                    m.growthRecords == ApplyChanges(old(m.growthRecords), sent, Reached(observers, m))
      {
        var change := phenotypeChanges[i];
        ReportedStep(phenotypeChanges, i);
        if |change.changedPhenotypes| > 0 {
          var outcome := subject.NotifyObservers(change);
          forall m | m in monitors
            ensures m.growthRecords == ApplyChanges(old(m.growthRecords), sent + [change], Reached(observers, m))
          {
            ApplyChangesStep(old(m.growthRecords), sent, change, Reached(observers, m));
          }
          if outcome.Fail? {
            FirstReport(phenotypeChanges, i);
            return outcome;
          }
          sent := sent + [change];
        }
      }
      WholePrefix(phenotypeChanges);
      r := Pass;
    }

    /** `trackPhenotypes(processedData)`, with the random draws given as
        `deltas` (three per item, in parameter order): builds one change per
        item, then reports each non-empty one to the observers in order. If a
        report throws, the call fails with that error and the remaining
        changes are not reported. */
    method TrackPhenotypes(processedData: seq<Record>, deltas: seq<seq<real>>)
      returns (r: Result<seq<PhenotypeChange>>)
      requires |deltas| == |processedData|
      requires forall i :: 0 <= i < |deltas| ==> |deltas[i]| == |PhenotypeParams|
      modifies subject.Monitors()`growthRecords
      ensures var sent := Reported(Changes(processedData, deltas));
              var fails := FirstBase(subject.observers) < |subject.observers| && sent != [];
              && r == (if fails then Err(AbstractUpdateMessage) else Ok(Changes(processedData, deltas)))
              && forall m :: m in subject.Monitors() ==>
                   m.growthRecords ==
                     ApplyChanges(old(m.growthRecords), if fails then sent[..1] else sent, Reached(subject.observers, m))
    {
      var phenotypeChanges := PhenotypeChanges(processedData, deltas);
      var outcome := ReportChanges(phenotypeChanges);
      if outcome.Fail? {
        return Err(outcome.error);
      }
      r := Ok(phenotypeChanges);
    }
  }

  // ---------------------------------------------------------------------------
  // The payload that `notifyObservers` drops
  // ---------------------------------------------------------------------------

  /** A monitor that is the only observer is updated once per round. */
  lemma SoleMonitorReachedOnce(monitor: GrowthMonitor)
    ensures FirstBase([Monitor(monitor)]) == 1 && Reached([Monitor(monitor)], monitor) == 1
  {
    WholePrefix([Monitor(monitor)]);
    assert Visits([Monitor(monitor)], monitor) == Visits([], monitor) + 1;
  }

  /** The record the example's change creates. */
  lemma NewRecordOfExample()
    ensures NewRecord(PhenotypeChange(map["plantId" := Str("p1")], map["leafArea" := Num(7.5)]))
         == map["plantId" := Str("p1"), "leafArea" := Num(7.5)]
  {
    assert map["plantId" := Str("p1")] + map["leafArea" := Num(7.5)] == map["plantId" := Str("p1"), "leafArea" := Num(7.5)];
  }

  /** One monitor attached to a tracker's subject, one significant change for
      plant "p1": the call as written fails and records nothing, while the
      call that passes the change succeeds and records the plant. */
  method DroppedPayloadExample() returns (asWritten: Outcome, recordsAsWritten: seq<Record>,
                                         corrected: Outcome, recordsCorrected: seq<Record>)
    ensures asWritten == Fail(UndefinedChangeMessage) && recordsAsWritten == []
    ensures corrected == Pass
    ensures recordsCorrected == [map["plantId" := Str("p1"), "leafArea" := Num(7.5)]]
  {
    var change := PhenotypeChange(map["plantId" := Str("p1")], map["leafArea" := Num(7.5)]);
    var tracker := new PhenotypeTracker();
    var monitor := new GrowthMonitor();
    tracker.subject.AttachObserver(Monitor(monitor));
    monitor.SetSubject(tracker.subject);
    asWritten := tracker.subject.NotifyObserversDroppingPayload();
    recordsAsWritten := monitor.GetGrowthRecords();
    corrected := tracker.subject.NotifyObservers(change);
    recordsCorrected := monitor.GetGrowthRecords();
    SoleMonitorReachedOnce(monitor);
    NewRecordOfExample();
    assert Upsert([], change) == [NewRecord(change)];
  }
}
