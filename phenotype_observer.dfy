/** The callback-style observer of turn2modelA/PhenotypeObserver.js: a
    registry of observer callbacks, and a plant phenotype that keeps three
    numeric parameters and notifies the registry whenever an update takes a
    parameter strictly above its threshold.

    A callback is known to the registry only by its identity. Calling it is
    recorded in the registry's ghost `delivered` log as the pair of the
    callback and the payload it was called with. */
module PhenotypeObservers {
  import opened SeqFacts

  /** An observer callback, compared by identity as JavaScript's `!==` does. */
  type Callback = nat

  /** The payload `checkThreshold` sends to the observers: the parameter, its
      new value, and a message text that is determined by those two. */
  datatype Notification = Notification(parameter: string, value: int)
  {
    /** The payload's `message` property: it opens with the parameter name
        and goes on past the fixed text that follows it. */
    function Message(): (m: string)
      ensures |m| > |parameter| + |MessageInfix|
      ensures m[..|parameter|] == parameter
    {
      parameter + MessageInfix + IntToString(value)
    }
  }

  // ---------------------------------------------------------------------------
  // The observer list
  // ---------------------------------------------------------------------------

  /** `observers.filter(obs => obs !== observer)`: drops every occurrence of
      `x`, keeps the others with their multiplicities. */
  function RemoveAll(s: seq<Callback>, x: Callback): (r: seq<Callback>)
    ensures x !in r
    ensures forall y :: y != x ==> multiset(r)[y] == multiset(s)[y]
    ensures |r| == |s| - multiset(s)[x]
    ensures x !in s ==> r == s
  {
    if s == [] then []
    else
      assert s == [s[0]] + s[1..];
      if s[0] == x then RemoveAll(s[1..], x) else [s[0]] + RemoveAll(s[1..], x)
  }

  /** Filtering a concatenation filters each part: the callbacks that stay
      keep their relative order. */
  lemma {:induction false} RemoveAllDistributes(a: seq<Callback>, b: seq<Callback>, x: Callback)
    ensures RemoveAll(a + b, x) == RemoveAll(a, x) + RemoveAll(b, x)
  {
    if a == [] {
      assert a + b == b;
    } else {
      assert (a + b)[0] == a[0];
      assert (a + b)[1..] == a[1..] + b;
      RemoveAllDistributes(a[1..], b, x);
      if a[0] != x {
        AppendAssociates([a[0]], RemoveAll(a[1..], x), RemoveAll(b, x));
      }
    }
  }

  /** The calls `notify(data)` makes: each listed callback once, in list order. */
  function Deliveries(observers: seq<Callback>, data: Notification): (log: seq<(Callback, Notification)>)
    ensures |log| == |observers|
    ensures forall i :: 0 <= i < |observers| ==> log[i] == (observers[i], data)
  {
    if observers == [] then []
    else [(observers[0], data)] + Deliveries(observers[1..], data)
  }

  /** The calls a sequence of `notify` calls makes, one payload after another. */
  function Broadcast(observers: seq<Callback>, payloads: seq<Notification>): seq<(Callback, Notification)>
  {
    if payloads == [] then []
    else Broadcast(observers, payloads[..|payloads| - 1]) + Deliveries(observers, payloads[|payloads| - 1])
  }

  /** One more payload adds its deliveries at the end. */
  lemma BroadcastAppend(observers: seq<Callback>, payloads: seq<Notification>, data: Notification)
    ensures Broadcast(observers, payloads + [data]) == Broadcast(observers, payloads) + Deliveries(observers, data)
  {
    assert (payloads + [data])[..|payloads|] == payloads;
  }

  /** The number of calls a callback receives from one `notify` is the number
      of times it is subscribed; a callback that is not subscribed receives
      none. */
  lemma {:induction false} DeliveriesPerCallback(observers: seq<Callback>, data: Notification, x: Callback)
    ensures multiset(Deliveries(observers, data))[(x, data)] == multiset(observers)[x]
  {
    if observers != [] {
      var head, rest := observers[0], Deliveries(observers[1..], data);
      DeliveriesPerCallback(observers[1..], data, x);
      assert observers == [head] + observers[1..];
      assert Deliveries(observers, data) == [(head, data)] + rest;
      assert multiset(observers)[x] == multiset(observers[1..])[x] + if head == x then 1 else 0;
      assert multiset(Deliveries(observers, data))[(x, data)] == multiset(rest)[(x, data)] + if head == x then 1 else 0;
    }
  }

  /** After `unsubscribe(x)`, no later `notify` calls `x`. */
  lemma UnsubscribedNeverNotified(observers: seq<Callback>, x: Callback, payloads: seq<Notification>)
    ensures forall i :: 0 <= i < |Broadcast(RemoveAll(observers, x), payloads)| ==>
              Broadcast(RemoveAll(observers, x), payloads)[i].0 != x
  {
    var kept := RemoveAll(observers, x);
    BroadcastRecipients(kept, payloads);
  }

  /** Every call a sequence of broadcasts makes goes to a listed callback. */
  lemma {:induction false} BroadcastRecipients(observers: seq<Callback>, payloads: seq<Notification>)
    ensures forall i :: 0 <= i < |Broadcast(observers, payloads)| ==> Broadcast(observers, payloads)[i].0 in observers
  {
    if payloads != [] {
      BroadcastRecipients(observers, payloads[..|payloads| - 1]);
    }
  }

  /** Subscribing the same callback twice makes every `notify` call it twice. */
  lemma DuplicateSubscriptionNotifiesTwice(observers: seq<Callback>, x: Callback, data: Notification)
    requires x !in observers
    ensures multiset(Deliveries(observers + [x] + [x], data))[(x, data)] == 2
  {
    DeliveriesPerCallback(observers + [x] + [x], data, x);
    assert multiset(observers + [x] + [x]) == multiset(observers) + multiset{x, x};
  }

  /** `PhenotypeObserver`: the ordered list of subscribed callbacks. */
  class PhenotypeObserver {
    var observers: seq<Callback>
    /** Every call made to a callback so far, in order. */
    ghost var delivered: seq<(Callback, Notification)>

    constructor()
      ensures observers == [] && delivered == []
    {
      observers := [];
      delivered := [];
    }

    /** `subscribe`: appends, without looking for an earlier entry. */
    method Subscribe(observer: Callback)
      modifies this`observers
      ensures observers == old(observers) + [observer]
      ensures multiset(observers)[observer] == multiset(old(observers))[observer] + 1
    {
      observers := observers + [observer];
    }

    /** `unsubscribe`: replaces the list by the one without `observer`. */
    method Unsubscribe(observer: Callback)
      modifies this`observers
      ensures observers == RemoveAll(old(observers), observer)
      ensures observer !in observers
    {
      observers := RemoveAll(observers, observer);
    }

    /** `notify`: calls every listed callback with `data`, in list order. */
    method Notify(data: Notification)
      modifies this`delivered
      ensures observers == old(observers)
      ensures delivered == old(delivered) + Deliveries(observers, data)
    {
      for i := 0 to |observers|
        invariant delivered == old(delivered) + Deliveries(observers[..i], data)
      {
        assert Deliveries(observers[..i + 1], data) == Deliveries(observers[..i], data) + [(observers[i], data)];
        delivered := delivered + [(observers[i], data)];
      }
      assert observers[..|observers|] == observers;
    }
  }

  // ---------------------------------------------------------------------------
  // Parameters, thresholds and notifications
  // ---------------------------------------------------------------------------

  /** The parameters a new `PlantPhenotype` knows, all starting at 0. */
  const InitialParameters: map<string, int> := map["leafArea" := 0, "stemHeight" := 0, "chlorophyllContent" := 0]

  /** The threshold table every `PlantPhenotype` is built with. */
  const DefaultThresholds: map<string, int> := map["leafArea" := 50, "stemHeight" := 30, "chlorophyllContent" := 5]

  /** The decimal digits of `n`, as a template literal prints an integer. */
  function NatToString(n: nat): (s: string)
    ensures |s| >= 1
    ensures forall i :: 0 <= i < |s| ==> '0' <= s[i] <= '9'
    ensures s[0] == '0' ==> n == 0
    ensures s[0] == '0' ==> s == "0"
    decreases n
  {
    if n < 10 then [DigitChar(n)] else NatToString(n / 10) + [DigitChar(n % 10)]
  }

  function DigitChar(d: nat): char
    requires d < 10
  {
    "0123456789"[d]
  }

  /** The value a string of decimal digits denotes. */
  function DigitsValue(s: string): nat
    requires forall i :: 0 <= i < |s| ==> '0' <= s[i] <= '9'
  {
    if s == [] then 0 else 10 * DigitsValue(s[..|s| - 1]) + (s[|s| - 1] as int - '0' as int)
  }

  /** The decimal text of `n` reads back as `n`. */
  lemma {:induction false} NatToStringRoundTrip(n: nat)
    ensures DigitsValue(NatToString(n)) == n
  {
    if n >= 10 {
      NatToStringRoundTrip(n / 10);
      var s := NatToString(n);
      assert s[..|s| - 1] == NatToString(n / 10);
    }
  }

  /** `${value}` for an integer value. */
  function IntToString(v: int): (s: string)
    ensures v >= 0 ==> s == NatToString(v)
    ensures v < 0 ==> |s| >= 2 && s[0] == '-' && s[1..] == NatToString(-v)
  {
    if v < 0 then "-" + NatToString(-v) else NatToString(v)
  }

  /** The fixed text between the parameter name and the value in a message. */
  const MessageInfix: string := " exceeded threshold! Current value: "

  /** The text of a negative value is a minus sign followed by the digits of
      its magnitude; either way the digits read back as the magnitude. */
  lemma IntToStringRoundTrip(v: int)
    ensures v >= 0 ==> DigitsValue(IntToString(v)) == v
    ensures v < 0 ==> IntToString(v)[0] == '-' && DigitsValue(IntToString(v)[1..]) == -v
  {
    if v >= 0 {
      NatToStringRoundTrip(v);
    } else {
      NatToStringRoundTrip(-v);
    }
  }

  /** A message names its parameter, then the fixed text, then the value's
      decimal text, so that both can be read back from it. */
  lemma MessageReadsBack(n: Notification)
    ensures var m, k := n.Message(), |n.parameter| + |MessageInfix|;
            && m[..|n.parameter|] == n.parameter
            && m[|n.parameter|..k] == MessageInfix
            && m[k..] == IntToString(n.value)
  {
    var k := |n.parameter| + |MessageInfix|;
    assert n.Message() == (n.parameter + MessageInfix) + IntToString(n.value);
    assert (n.parameter + MessageInfix)[..|n.parameter|] == n.parameter;
  }

  /** Notifications about the same parameter carry the same message only when
      they carry the same value: the message text determines the value. */
  lemma MessageIdentifiesValue(a: Notification, b: Notification)
    requires a.parameter == b.parameter
    requires a.Message() == b.Message()
    ensures a.value == b.value
  {
    MessageReadsBack(a);
    MessageReadsBack(b);
    var sa, sb := IntToString(a.value), IntToString(b.value);
    assert sa == sb;
    IntToStringRoundTrip(a.value);
    IntToStringRoundTrip(b.value);
  }

  /** `value > thresholds[parameter]`; a parameter without a threshold compares
      with `undefined`, which is never exceeded. */
  predicate Exceeds(thresholds: map<string, int>, parameter: string, value: int)
  {
    parameter in thresholds && value > thresholds[parameter]
  }

  /** Whether `updatePhenotype` accepts a key: only keys the parameter object
      already holds. */
  predicate Recognised(parameters: map<string, int>, key: string)
  {
    key in parameters
  }

  /** The parameters after `updatePhenotype(updates)`, entries taken in order. */
  function ApplyUpdates(parameters: map<string, int>, updates: seq<(string, int)>): (r: map<string, int>)
    ensures r.Keys == parameters.Keys
  {
    if updates == [] then parameters
    else
      var before := ApplyUpdates(parameters, updates[..|updates| - 1]);
      var last := updates[|updates| - 1];
      if Recognised(before, last.0) then before[last.0 := last.1] else before
  }

  /** The notifications `updatePhenotype(updates)` sends, in entry order. */
  function Notifications(known: set<string>, thresholds: map<string, int>, updates: seq<(string, int)>): (ns: seq<Notification>)
    ensures |ns| <= |updates|
    ensures forall n :: n in ns ==> n.parameter in known && Exceeds(thresholds, n.parameter, n.value)
  {
    if updates == [] then []
    else
      var earlier := Notifications(known, thresholds, updates[..|updates| - 1]);
      var last := updates[|updates| - 1];
      if Notifies(known, thresholds, last) then earlier + [Notification(last.0, last.1)] else earlier
  }

  /** A key that no entry names keeps its value. */
  lemma {:induction false} UntouchedParameterKeepsValue(parameters: map<string, int>, updates: seq<(string, int)>, key: string)
    requires key in parameters
    requires forall i :: 0 <= i < |updates| ==> updates[i].0 != key
    ensures ApplyUpdates(parameters, updates)[key] == parameters[key]
  {
    if updates != [] {
      UntouchedParameterKeepsValue(parameters, updates[..|updates| - 1], key);
    }
  }

  /** The last entry that names a known key decides its value. */
  lemma {:induction false} LastEntryWins(parameters: map<string, int>, updates: seq<(string, int)>, i: nat)
    requires i < |updates| && updates[i].0 in parameters
    requires forall j :: i < j < |updates| ==> updates[j].0 != updates[i].0
    ensures ApplyUpdates(parameters, updates)[updates[i].0] == updates[i].1
  {
    var head, tail := updates[..i + 1], updates[i + 1..];
    assert head[..i] == updates[..i];
    assert ApplyUpdates(parameters, head)[updates[i].0] == updates[i].1;
    ApplyUpdatesSplit(parameters, head, tail);
    assert head + tail == updates;
    assert forall j :: 0 <= j < |tail| ==> tail[j] == updates[i + 1 + j];
    UntouchedParameterKeepsValue(ApplyUpdates(parameters, head), tail, updates[i].0);
  }

  /** Updates in two batches end where one batch of all of them ends. */
  lemma {:induction false} ApplyUpdatesSplit(parameters: map<string, int>, a: seq<(string, int)>, b: seq<(string, int)>)
    ensures ApplyUpdates(parameters, a + b) == ApplyUpdates(ApplyUpdates(parameters, a), b)
  {
    if b == [] {
      assert a + b == a;
    } else {
      ApplyUpdatesSplit(parameters, a, b[..|b| - 1]);
      assert (a + b)[..|a + b| - 1] == a + b[..|b| - 1];
    }
  }

  /** Notifications of two batches are those of the first followed by those of
      the second. */
  lemma {:induction false} NotificationsSplit(known: set<string>, thresholds: map<string, int>, a: seq<(string, int)>, b: seq<(string, int)>)
    ensures Notifications(known, thresholds, a + b) == Notifications(known, thresholds, a) + Notifications(known, thresholds, b)
  {
    if b == [] {
      assert a + b == a;
    } else {
      NotificationsSplit(known, thresholds, a, b[..|b| - 1]);
      assert (a + b)[..|a + b| - 1] == a + b[..|b| - 1];
    }
  }

  /** One entry notifies exactly when its key is known and its value is
      strictly above the threshold; a value equal to the threshold does not. */
  lemma SingleEntryNotification(known: set<string>, thresholds: map<string, int>, key: string, value: int)
    ensures Notifications(known, thresholds, [(key, value)]) ==
              if key in known && key in thresholds && value > thresholds[key] then [Notification(key, value)] else []
    ensures key in thresholds && value == thresholds[key] ==> Notifications(known, thresholds, [(key, value)]) == []
  {
    assert [(key, value)][..0] == [];
  }

  /** Entries whose keys are unknown change nothing and notify nobody. */
  lemma {:induction false} UnknownKeysAreIgnored(parameters: map<string, int>, thresholds: map<string, int>, updates: seq<(string, int)>)
    requires forall i :: 0 <= i < |updates| ==> updates[i].0 !in parameters
    ensures ApplyUpdates(parameters, updates) == parameters
    ensures Notifications(parameters.Keys, thresholds, updates) == []
  {
    if updates != [] {
      UnknownKeysAreIgnored(parameters, thresholds, updates[..|updates| - 1]);
    }
  }

  /** Whether an entry of an update notifies: its key is known and its value
      exceeds the key's threshold. */
  predicate Notifies(known: set<string>, thresholds: map<string, int>, entry: (string, int))
  {
    entry.0 in known && Exceeds(thresholds, entry.0, entry.1)
  }

  /** The positions of the entries of an update that notify. */
  function Hits(known: set<string>, thresholds: map<string, int>, updates: seq<(string, int)>): set<int>
  {
    set i | 0 <= i < |updates| && Notifies(known, thresholds, updates[i])
  }

  /** The notifying positions of an update are those of all its entries but
      the last, and the last one if it notifies. */
  lemma HitsOfLastEntry(known: set<string>, thresholds: map<string, int>, updates: seq<(string, int)>)
    requires updates != []
    ensures var n := |updates| - 1;
            Hits(known, thresholds, updates) ==
              Hits(known, thresholds, updates[..n]) + if Notifies(known, thresholds, updates[n]) then {n} else {}
  {
    var n := |updates| - 1;
    forall i | 0 <= i < n
      ensures updates[..n][i] == updates[i]
    {
    }
  }

  /** The number of notifications of one update is the number of its entries
      with a known key whose value exceeds the threshold. */
  lemma {:induction false} NotificationCount(known: set<string>, thresholds: map<string, int>, updates: seq<(string, int)>)
    ensures |Notifications(known, thresholds, updates)| == |Hits(known, thresholds, updates)|
  {
    if updates == [] {
      assert Hits(known, thresholds, updates) == {};
    } else {
      var n := |updates| - 1;
      NotificationCount(known, thresholds, updates[..n]);
      HitsOfLastEntry(known, thresholds, updates);
      assert n !in Hits(known, thresholds, updates[..n]);
    }
  }

  /** What one more entry of `updatePhenotype` does to the parameters and to
      the calls made so far. */
  lemma {:induction false} UpdateStep(parameters: map<string, int>, thresholds: map<string, int>,
                                      observers: seq<Callback>, updates: seq<(string, int)>, i: nat)
    requires i < |updates|
    ensures var before := ApplyUpdates(parameters, updates[..i]);
            ApplyUpdates(parameters, updates[..i + 1]) ==
              if Recognised(before, updates[i].0) then before[updates[i].0 := updates[i].1] else before
    ensures Broadcast(observers, Notifications(parameters.Keys, thresholds, updates[..i + 1])) ==
              Broadcast(observers, Notifications(parameters.Keys, thresholds, updates[..i])) +
              if Notifies(parameters.Keys, thresholds, updates[i])
              then Deliveries(observers, Notification(updates[i].0, updates[i].1)) else []
  {
    var key, value := updates[i].0, updates[i].1;
    var sent := Notifications(parameters.Keys, thresholds, updates[..i]);
    assert updates[..i + 1][..i] == updates[..i];
    if Notifies(parameters.Keys, thresholds, updates[i]) {
      BroadcastAppend(observers, sent, Notification(key, value));
    }
  }

  /** `PlantPhenotype`: the current parameter values, the fixed thresholds, and
      the registry it notifies. */
  class PlantPhenotype {
    const observer: PhenotypeObserver
    var phenotypeParameters: map<string, int>
    const thresholds: map<string, int>

    constructor(observer: PhenotypeObserver)
      ensures this.observer == observer
      ensures phenotypeParameters == InitialParameters
      ensures thresholds == DefaultThresholds
    {
      this.observer := observer;
      phenotypeParameters := InitialParameters;
      thresholds := DefaultThresholds;
    }

    /** `updatePhenotype`: for each entry, in order, a known key takes the new
        value and is checked against its threshold; other keys are skipped. */
    method UpdatePhenotype(updates: seq<(string, int)>)
      modifies this`phenotypeParameters, observer`delivered
      ensures phenotypeParameters == ApplyUpdates(old(phenotypeParameters), updates)
      ensures observer.observers == old(observer.observers)
      ensures observer.delivered == old(observer.delivered) +
                Broadcast(observer.observers, Notifications(old(phenotypeParameters).Keys, thresholds, updates))
    {
      ghost var initial, log := phenotypeParameters, observer.delivered;
      for i := 0 to |updates|
        invariant phenotypeParameters == ApplyUpdates(initial, updates[..i])
        invariant observer.delivered == log + Broadcast(observer.observers, Notifications(initial.Keys, thresholds, updates[..i]))
      {
        var key, value := updates[i].0, updates[i].1;
        UpdateStep(initial, thresholds, observer.observers, updates, i);
        ghost var sent := Broadcast(observer.observers, Notifications(initial.Keys, thresholds, updates[..i]));
        ghost var more := if Notifies(initial.Keys, thresholds, updates[i])
                          then Deliveries(observer.observers, Notification(key, value)) else [];
        ghost var before := observer.delivered;
        if Recognised(phenotypeParameters, key) {
          phenotypeParameters := phenotypeParameters[key := value];
          CheckThreshold(key, value);
        }
        assert observer.delivered == before + more;
        AppendAssociates(log, sent, more);
      }
      assert updates[..|updates|] == updates;
    }

    /** `checkThreshold`: notifies once, with the alert payload, when the value
        is strictly above the parameter's threshold. */
    method CheckThreshold(parameter: string, value: int)
      modifies observer`delivered
      ensures observer.delivered == old(observer.delivered) +
                if Exceeds(thresholds, parameter, value) then Deliveries(observer.observers, Notification(parameter, value)) else []
    {
      if parameter in thresholds && value > thresholds[parameter] {
        observer.Notify(Notification(parameter, value));
      }
    }
  }

  // ---------------------------------------------------------------------------
  // The recognition test as written
  // ---------------------------------------------------------------------------

  /** The names every plain JavaScript object inherits from Object.prototype
      whose value is a function, so that reading them never gives `undefined`. */
  const InheritedMembers: set<string> :=
    {"constructor", "hasOwnProperty", "isPrototypeOf", "propertyIsEnumerable",
     "toLocaleString", "toString", "valueOf",
     "__defineGetter__", "__defineSetter__", "__lookupGetter__", "__lookupSetter__"}

  /** The test `phenotypeParameters[key] !== undefined` as written: it also
      accepts a name inherited from Object.prototype. */
  predicate RecognisedAsWritten(parameters: map<string, int>, key: string)
  {
    key in parameters || key in InheritedMembers
  }

  /** `updatePhenotype` on the parameters as written: an accepted inherited
      name is stored as a new own parameter. */
  function ApplyUpdatesAsWritten(parameters: map<string, int>, updates: seq<(string, int)>): (r: map<string, int>)
    ensures parameters.Keys <= r.Keys
  {
    if updates == [] then parameters
    else
      var before := ApplyUpdatesAsWritten(parameters, updates[..|updates| - 1]);
      var last := updates[|updates| - 1];
      if RecognisedAsWritten(before, last.0) then before[last.0 := last.1] else before
  }

  /** `updatePhenotype({constructor: 99})` on a new plant adds a fourth
      parameter as written, where the own-key test leaves the three
      parameters as they are. */
  lemma InheritedKeyBecomesParameter()
    ensures "constructor" in ApplyUpdatesAsWritten(InitialParameters, [("constructor", 99)])
    ensures ApplyUpdates(InitialParameters, [("constructor", 99)]) == InitialParameters
  {
    assert [("constructor", 99)][..0] == [];
  }

  /** The example script's updates, each applied to a plant whose parameters
      are the three known ones: leafArea 60 and stemHeight 35 notify,
      chlorophyllContent 3 does not, then 6 does. */
  lemma ExampleScriptNotifications()
    ensures Notifications(InitialParameters.Keys, DefaultThresholds, [("leafArea", 60)]) == [Notification("leafArea", 60)]
    ensures Notifications(InitialParameters.Keys, DefaultThresholds, [("stemHeight", 35)]) == [Notification("stemHeight", 35)]
    ensures Notifications(InitialParameters.Keys, DefaultThresholds, [("chlorophyllContent", 3)]) == []
    ensures Notifications(InitialParameters.Keys, DefaultThresholds, [("chlorophyllContent", 6)]) == [Notification("chlorophyllContent", 6)]
  {
    SingleEntryNotification(InitialParameters.Keys, DefaultThresholds, "leafArea", 60);
    SingleEntryNotification(InitialParameters.Keys, DefaultThresholds, "stemHeight", 35);
    SingleEntryNotification(InitialParameters.Keys, DefaultThresholds, "chlorophyllContent", 3);
    SingleEntryNotification(InitialParameters.Keys, DefaultThresholds, "chlorophyllContent", 6);
  }
}
