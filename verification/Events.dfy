/** Searching the events of a transaction. Two searches exist: one turns every event into
    a map (a repeated key keeps its last value) and looks for an action, the other scans
    for the first attribute with a key. Both see the transaction's own events first, then
    those of its logs. */
module Events {
  import opened Options
  import opened TxEvents

  const ACTION: string := "action"

  function Flatten(logs: seq<seq<Event>>): seq<Event> {
    if logs == [] then [] else Flatten(logs[..|logs| - 1]) + logs[|logs| - 1]
  }

  function AllEvents(tx: TxResponse): seq<Event> {
    tx.events + Flatten(tx.logs)
  }

  lemma {:induction false} FlattenSplits(logs: seq<seq<Event>>, j: nat)
    requires j <= |logs|
    ensures Flatten(logs) == Flatten(logs[..j]) + Flatten(logs[j..])
  {
    if j == |logs| {
      assert logs[..j] == logs && logs[j..] == [];
    } else {
      var last := |logs| - 1;
      FlattenSplits(logs[..last], j);
      assert logs[..last][..j] == logs[..j] && logs[..last][j..] == logs[j..][..last - j];
    }
  }

  /** Where log j's event k stands among all events. */
  lemma {:induction false} FlatIndex(tx: TxResponse, j: nat, k: nat)
    requires j < |tx.logs| && k < |tx.logs[j]|
    ensures var i := |tx.events| + |Flatten(tx.logs[..j])| + k;
            i < |AllEvents(tx)| && AllEvents(tx)[i] == tx.logs[j][k]
  {
    FlattenSplits(tx.logs, j + 1);
    assert tx.logs[..j + 1][..j] == tx.logs[..j];
  }

  /** Where log j ends among all events. */
  lemma {:induction false} LogEnds(tx: TxResponse, j: nat)
    requires j < |tx.logs|
    ensures var base := |tx.events| + |Flatten(tx.logs[..j])|;
            |tx.events| + |Flatten(tx.logs[..j + 1])| == base + |tx.logs[j]| <= |AllEvents(tx)|
  {
    assert tx.logs[..j + 1][..j] == tx.logs[..j];
    FlattenSplits(tx.logs, j + 1);
  }

  lemma {:induction false} FlattenLength(logs: seq<seq<Event>>, j: nat)
    requires j <= |logs|
    ensures |Flatten(logs[..j])| == LogLength(logs, j)
  {
    if j > 0 {
      FlattenLength(logs, j - 1);
      assert logs[..j][..j - 1] == logs[..j - 1];
    }
  }

  lemma {:induction false} LogEventAt(tx: TxResponse, j: nat, k: nat)
    requires j < |tx.logs| && k < |tx.logs[j]|
    ensures var i := |tx.events| + LogLength(tx.logs, j) + k;
            i < |AllEvents(tx)| && AllEvents(tx)[i] == tx.logs[j][k]
  {
    FlatIndex(tx, j, k);
    FlattenLength(tx.logs, j);
  }

  /** The log in which the event at position p of the flattened logs stands. */
  lemma {:induction false} FindLog(logs: seq<seq<Event>>, n: nat, p: nat) returns (j: nat, k: nat)
    requires n <= |logs| && p < LogLength(logs, n)
    ensures j < n && k < |logs[j]| && p == LogLength(logs, j) + k
  {
    if p >= LogLength(logs, n - 1) {
      j, k := n - 1, p - LogLength(logs, n - 1);
    } else {
      j, k := FindLog(logs, n - 1, p);
    }
  }

  lemma {:induction false} StandingIsListed(tx: TxResponse, i: nat, ev: Event)
    requires Stands(tx, i, ev)
    ensures i < |AllEvents(tx)| && AllEvents(tx)[i] == ev
  {
    if !(i < |tx.events| && ev == tx.events[i]) {
      var j: nat, k: nat :| j < |tx.logs| && k < |tx.logs[j]|
                            && i == |tx.events| + LogLength(tx.logs, j) + k && ev == tx.logs[j][k];
      LogEventAt(tx, j, k);
    }
  }

  lemma {:induction false} ListedStands(tx: TxResponse, i: nat)
    requires i < |AllEvents(tx)|
    ensures Stands(tx, i, AllEvents(tx)[i])
  {
    if i >= |tx.events| {
      assert tx.logs[..|tx.logs|] == tx.logs;
      FlattenLength(tx.logs, |tx.logs|);
      var j, k := FindLog(tx.logs, |tx.logs|, i - |tx.events|);
      LogEventAt(tx, j, k);
    }
  }

  /** The list of all events holds at each index the event that stands there, and there are
      as many as the transaction and its logs have. */
  lemma {:induction false} AllEventsStand(tx: TxResponse)
    ensures |AllEvents(tx)| == |tx.events| + LogLength(tx.logs, |tx.logs|)
    ensures forall i | 0 <= i < |tx.events| :: AllEvents(tx)[i] == tx.events[i]
    ensures forall i: nat, ev :: Stands(tx, i, ev) <==> i < |AllEvents(tx)| && AllEvents(tx)[i] == ev
  {
    assert tx.logs[..|tx.logs|] == tx.logs;
    FlattenLength(tx.logs, |tx.logs|);
    forall i: nat, ev | Stands(tx, i, ev) ensures i < |AllEvents(tx)| && AllEvents(tx)[i] == ev {
      StandingIsListed(tx, i, ev);
    }
    forall i: nat | i < |AllEvents(tx)| ensures Stands(tx, i, AllEvents(tx)[i]) {
      ListedStands(tx, i);
    }
  }

  // ---------- The search by map ----------

  /** A repeated key keeps its last value. */
  function MapOf(attrs: seq<Attr>): map<string, string> {
    if attrs == [] then map[]
    else
      var last := attrs[|attrs| - 1];
      MapOf(attrs[..|attrs| - 1])[last.key := last.value]
  }

  /** A missing key reads as the empty string. */
  function At(m: map<string, string>, key: string): string {
    if key in m then m[key] else ""
  }

  predicate HasAction(ev: Event, action: string) {
    At(MapOf(ev.attrs), ACTION) == action
  }

  /** The position of the first event with the action, from position k on. */
  function FirstAction(events: seq<Event>, action: string, k: nat): (r: Option<nat>)
    requires k <= |events|
    ensures r.Some? ==> k <= r.value < |events| && HasAction(events[r.value], action)
                        && forall i | k <= i < r.value :: !HasAction(events[i], action)
    ensures r.None? ==> forall i | k <= i < |events| :: !HasAction(events[i], action)
    decreases |events| - k
  {
    if k == |events| then None
    else if HasAction(events[k], action) then Some(k)
    else FirstAction(events, action, k + 1)
  }

  predicate Carries(attrs: seq<Attr>, key: string) {
    exists i | 0 <= i < |attrs| :: attrs[i].key == key
  }

  lemma {:induction false} MapKeys(attrs: seq<Attr>, key: string)
    ensures key in MapOf(attrs) <==> Carries(attrs, key)
  {
    if attrs != [] {
      var last := |attrs| - 1;
      MapKeys(attrs[..last], key);
      if Carries(attrs, key) && attrs[last].key != key {
        var i :| 0 <= i < |attrs| && attrs[i].key == key;
        assert attrs[..last][i].key == key;
      }
    }
  }

  lemma {:induction false} MapValueAt(attrs: seq<Attr>, key: string, i: nat)
    requires i < |attrs| && attrs[i].key == key && forall j | i < j < |attrs| :: attrs[j].key != key
    ensures key in MapOf(attrs) && MapOf(attrs)[key] == attrs[i].value
  {
    var last := |attrs| - 1;
    if i < last {
      MapValueAt(attrs[..last], key, i);
    }
  }

  lemma {:induction false} LastValueAt(attrs: seq<Attr>, key: string) returns (l: nat)
    requires Carries(attrs, key)
    ensures l < |attrs| && attrs[l].key == key && forall j | l < j < |attrs| :: attrs[j].key != key
  {
    l := |attrs| - 1;
    if attrs[l].key != key {
      var j :| 0 <= j < |attrs| && attrs[j].key == key;
      assert attrs[..l][j].key == key;
      l := LastValueAt(attrs[..l], key);
    }
  }

  lemma {:induction false} MapOfIsExact(ev: Event)
    ensures IsMapOf(MapOf(ev.attrs), ev)
  {
    forall key | key in MapOf(ev.attrs)
      ensures exists l: nat :: LastAt(ev, key, l) && ev.attrs[l].value == MapOf(ev.attrs)[key]
    {
      MapKeys(ev.attrs, key);
      var l := LastValueAt(ev.attrs, key);
      MapValueAt(ev.attrs, key, l);
      assert LastAt(ev, key, l);
    }
    forall i | 0 <= i < |ev.attrs| ensures ev.attrs[i].key in MapOf(ev.attrs) {
      MapKeys(ev.attrs, ev.attrs[i].key);
    }
  }

  lemma {:induction false} AtIsGiven(ev: Event, key: string, value: string)
    ensures Gives(ev, key, value) <==> At(MapOf(ev.attrs), key) == value
  {
    MapKeys(ev.attrs, key);
    if Carries(ev.attrs, key) {
      var l := LastValueAt(ev.attrs, key);
      MapValueAt(ev.attrs, key, l);
      assert LastAt(ev, key, l);
    }
  }

  /** The search by map finds the event of least index that acts, or there is none. */
  lemma {:induction false} FirstActionActs(tx: TxResponse, action: string)
    ensures match FirstAction(AllEvents(tx), action, 0)
            case Some(i) => FirstToAct(tx, action, i, AllEvents(tx)[i])
            case None => NoneActs(tx, action)
  {
    AllEventsStand(tx);
    forall ev ensures Gives(ev, "action", action) <==> HasAction(ev, action) {
      AtIsGiven(ev, "action", action);
    }
  }

  method EventAttrs(ev: Event) returns (m: map<string, string>)
    ensures m == MapOf(ev.attrs)
  {
    m := map[];
    for i := 0 to |ev.attrs|
      invariant m == MapOf(ev.attrs[..i])
    {
      assert ev.attrs[..i + 1][..i] == ev.attrs[..i];
      m := m[ev.attrs[i].key := ev.attrs[i].value];
    }
    assert ev.attrs[..|ev.attrs|] == ev.attrs;
  }

  function Maps(events: seq<Event>): seq<map<string, string>> {
    seq(|events|, i requires 0 <= i < |events| => MapOf(events[i].attrs))
  }

  lemma {:induction false} MapsAreInOrder(tx: TxResponse)
    ensures MapsInOrder(tx, Maps(AllEvents(tx)))
  {
    assert tx.logs[..|tx.logs|] == tx.logs;
    FlattenLength(tx.logs, |tx.logs|);
    var maps := Maps(AllEvents(tx));
    forall i | 0 <= i < |tx.events| ensures IsMapOf(maps[i], tx.events[i]) {
      MapOfIsExact(tx.events[i]);
    }
    forall j: nat, k: nat | j < |tx.logs| && k < |tx.logs[j]| ensures LogMapAt(tx, maps, j, k) {
      LogEventAt(tx, j, k);
      MapOfIsExact(tx.logs[j][k]);
    }
  }

  method FlatEventAttrs(tx: Option<TxResponse>) returns (out: seq<map<string, string>>)
    ensures out == if tx.None? then [] else Maps(AllEvents(tx.value))
    ensures if tx.None? then out == [] else MapsInOrder(tx.value, out)
  {
    out := [];
    if tx.None? {
      return;
    }
    var t := tx.value;
    for i := 0 to |t.events|
      invariant out == Maps(t.events[..i])
    {
      var m := EventAttrs(t.events[i]);
      out := out + [m];
    }
    assert t.events[..|t.events|] == t.events;
    for j := 0 to |t.logs|
      invariant out == Maps(t.events + Flatten(t.logs[..j]))
    {
      assert t.logs[..j + 1][..j] == t.logs[..j];
      var log := t.logs[j];
      for k := 0 to |log|
        invariant out == Maps(t.events + Flatten(t.logs[..j]) + log[..k])
      {
        var m := EventAttrs(log[k]);
        out := out + [m];
      }
      assert log[..|log|] == log;
      assert t.events + Flatten(t.logs[..j]) + log == t.events + Flatten(t.logs[..j + 1]);
    }
    assert t.logs[..|t.logs|] == t.logs;
    MapsAreInOrder(t);
  }

  method FindWasmActionEvent(tx: Option<TxResponse>, action: string) returns (found: Option<(nat, map<string, string>)>)
    ensures found == if tx.None? then None
                     else match FirstAction(AllEvents(tx.value), action, 0)
                          case None => None
                          case Some(i) => Some((i, MapOf(AllEvents(tx.value)[i].attrs)))
    ensures tx.None? ==> found.None?
    ensures tx.Some? && found.None? ==> NoneActs(tx.value, action)
    ensures tx.Some? && found.Some? ==>
              exists ev :: FirstToAct(tx.value, action, found.value.0, ev) && IsMapOf(found.value.1, ev)
  {
    var list := FlatEventAttrs(tx);
    if tx.None? {
      return None;
    }
    ghost var all := AllEvents(tx.value);
    FirstActionActs(tx.value, action);
    for i := 0 to |list|
      invariant FirstAction(all, action, i) == FirstAction(all, action, 0)
    {
      if At(list[i], ACTION) == action {
        MapOfIsExact(all[i]);
        return Some((i, list[i]));
      }
    }
    return None;
  }

  // ---------- The scan ----------

  /** The value of the first attribute with the key. */
  function FirstValue(attrs: seq<Attr>, key: string): (r: Option<string>)
    ensures r.Some? <==> Carries(attrs, key)
  {
    if attrs == [] then None
    else if attrs[0].key == key then
      assert Carries(attrs, key);
      Some(attrs[0].value)
    else
      assert Carries(attrs[1..], key) ==> Carries(attrs, key) by {
        if Carries(attrs[1..], key) {
          var i :| 0 <= i < |attrs[1..]| && attrs[1..][i].key == key;
          assert attrs[i + 1].key == key;
        }
      }
      FirstValue(attrs[1..], key)
  }

  /** The first value of the key in the first event that carries it. */
  function ScanFrom(events: seq<Event>, key: string, k: nat): Option<string>
    requires k <= |events|
    decreases |events| - k
  {
    if k == |events| then None
    else if FirstValue(events[k].attrs, key).Some? then FirstValue(events[k].attrs, key)
    else ScanFrom(events, key, k + 1)
  }

  method EventFind(ev: Event, key: string) returns (value: Option<string>)
    ensures value == FirstValue(ev.attrs, key)
  {
    for i := 0 to |ev.attrs|
      invariant FirstValue(ev.attrs[i..], key) == FirstValue(ev.attrs, key)
    {
      if ev.attrs[i].key == key {
        return Some(ev.attrs[i].value);
      }
      assert ev.attrs[i..][1..] == ev.attrs[i + 1..];
    }
    return None;
  }

  lemma {:induction false} FirstValueAt(attrs: seq<Attr>, key: string) returns (i: nat)
    requires Carries(attrs, key)
    ensures i < |attrs| && attrs[i].key == key && FirstValue(attrs, key) == Some(attrs[i].value)
    ensures forall j | 0 <= j < i :: attrs[j].key != key
  {
    if attrs[0].key == key {
      i := 0;
    } else {
      var j :| 0 <= j < |attrs| && attrs[j].key == key;
      assert attrs[1..][j - 1].key == key;
      var i' := FirstValueAt(attrs[1..], key);
      i := i' + 1;
      forall j | 0 <= j < i ensures attrs[j].key != key {
        if j > 0 {
          assert attrs[j] == attrs[1..][j - 1];
        }
      }
    }
  }

  /** The scan succeeds exactly when some map has the key. */
  lemma {:induction false} ScanSucceeds(events: seq<Event>, key: string, k: nat)
    requires k <= |events|
    ensures ScanFrom(events, key, k).Some? <==> exists i | k <= i < |events| :: key in MapOf(events[i].attrs)
    decreases |events| - k
  {
    if k < |events| {
      MapKeys(events[k].attrs, key);
      ScanSucceeds(events, key, k + 1);
    }
  }

  predicate Once(attrs: seq<Attr>, key: string) {
    forall i, j | 0 <= i < j < |attrs| :: !(attrs[i].key == key && attrs[j].key == key)
  }

  /** The first value and the map's value agree when the key is not repeated. */
  lemma {:induction false} SameWhenOnce(attrs: seq<Attr>, key: string)
    requires Carries(attrs, key) && Once(attrs, key)
    ensures key in MapOf(attrs) && FirstValue(attrs, key) == Some(MapOf(attrs)[key])
  {
    var i := FirstValueAt(attrs, key);
    MapValueAt(attrs, key, i);
  }

  /** Event i is the first, from position k on, whose map has the key. */
  predicate FirstCarrier(events: seq<Event>, key: string, k: nat, i: nat) {
    && k <= i < |events| && key in MapOf(events[i].attrs)
    && forall j | k <= j < i :: key !in MapOf(events[j].attrs)
  }

  /** The scan picks from the first event whose map has the key, and its value is that
      map's, unless the key is repeated there. */
  lemma {:induction false} ScanAndMaps(events: seq<Event>, key: string, k: nat, i: nat)
    requires FirstCarrier(events, key, k, i)
    ensures ScanFrom(events, key, k) == FirstValue(events[i].attrs, key)
    ensures Once(events[i].attrs, key) ==> ScanFrom(events, key, k) == Some(MapOf(events[i].attrs)[key])
    decreases i - k
  {
    MapKeys(events[k].attrs, key);
    if k == i {
      if Once(events[i].attrs, key) {
        SameWhenOnce(events[i].attrs, key);
      }
    } else {
      ScanAndMaps(events, key, k + 1, i);
    }
  }

  lemma {:induction false} FirstCarrierExists(events: seq<Event>, key: string, k: nat) returns (i: nat)
    requires k <= |events| && ScanFrom(events, key, k).Some?
    ensures FirstCarrier(events, key, k, i)
    decreases |events| - k
  {
    MapKeys(events[k].attrs, key);
    if key in MapOf(events[k].attrs) {
      i := k;
    } else {
      i := FirstCarrierExists(events, key, k + 1);
    }
  }

  /** What the scan finds, position by position. */
  lemma {:induction false} ScanIsFirst(tx: TxResponse, key: string)
    ensures match ScanFrom(AllEvents(tx), key, 0)
            case Some(value) => FirstWithKey(tx, key, value)
            case None => NoneHasKey(tx, key)
  {
    AllEventsStand(tx);
    forall ev: Event ensures key in MapOf(ev.attrs) <==> !Lacks(ev, key) {
      MapKeys(ev.attrs, key);
    }
    ScanSucceeds(AllEvents(tx), key, 0);
    if ScanFrom(AllEvents(tx), key, 0).Some? {
      var i := FirstCarrierExists(AllEvents(tx), key, 0);
      var ev := AllEvents(tx)[i];
      ScanAndMaps(AllEvents(tx), key, 0, i);
      MapKeys(ev.attrs, key);
      var f := FirstValueAt(ev.attrs, key);
      assert Stands(tx, i, ev) && FirstAt(ev, key, f);
    }
  }

  /** The inner loop: the events of log j. */
  method ScanLog(t: TxResponse, j: nat, key: string) returns (value: Option<string>)
    requires j < |t.logs|
    ensures var base := |t.events| + |Flatten(t.logs[..j])|;
            && base + |t.logs[j]| <= |AllEvents(t)|
            && ScanFrom(AllEvents(t), key, base)
            == if value.Some? then value else ScanFrom(AllEvents(t), key, base + |t.logs[j]|)
  {
    ghost var all := AllEvents(t);
    ghost var base := |t.events| + |Flatten(t.logs[..j])|;
    LogEnds(t, j);
    for k := 0 to |t.logs[j]|
      invariant ScanFrom(all, key, base + k) == ScanFrom(all, key, base)
    {
      FlatIndex(t, j, k);
      var v := EventFind(t.logs[j][k], key);
      if v.Some? {
        return v;
      }
    }
    return None;
  }

  /** The loops of the scan: the transaction's events, then those of each log. */
  method Scan(t: TxResponse, key: string) returns (value: Option<string>)
    ensures value == ScanFrom(AllEvents(t), key, 0)
  {
    ghost var all := AllEvents(t);
    for i := 0 to |t.events|
      invariant ScanFrom(all, key, i) == ScanFrom(all, key, 0)
    {
      var v := EventFind(t.events[i], key);
      if v.Some? {
        return v;
      }
    }
    for j := 0 to |t.logs|
      invariant |t.events| + |Flatten(t.logs[..j])| <= |all|
      invariant ScanFrom(all, key, |t.events| + |Flatten(t.logs[..j])|) == ScanFrom(all, key, 0)
    {
      LogEnds(t, j);
      var v := ScanLog(t, j, key);
      if v.Some? {
        return v;
      }
    }
    assert t.logs[..|t.logs|] == t.logs;
    return None;
  }

  method TxResponseFirstAttribute(tx: Option<TxResponse>, key: string) returns (value: Option<string>)
    ensures value == if tx.None? then None else ScanFrom(AllEvents(tx.value), key, 0)
    ensures tx.Some? && value.None? ==> NoneHasKey(tx.value, key)
    ensures tx.Some? && value.Some? ==> FirstWithKey(tx.value, key, value.value)
  {
    if tx.None? {
      return None;
    }
    ScanIsFirst(tx.value, key);
    value := Scan(tx.value, key);
  }

  // ---------- How the two searches relate ----------

  /** The first and the last attribute of an event that carry the key. */
  predicate FirstAndLast(attrs: seq<Attr>, key: string, f: nat, l: nat) {
    && f <= l < |attrs| && attrs[f].key == key && attrs[l].key == key
    && (forall j | 0 <= j < f :: attrs[j].key != key)
    && (forall j | l < j < |attrs| :: attrs[j].key != key)
  }

  /** An event that carries the key has a first and a last attribute with it. */
  lemma {:induction false} FirstAndLastExist(attrs: seq<Attr>, key: string) returns (f: nat, l: nat)
    requires Carries(attrs, key)
    ensures FirstAndLast(attrs, key, f, l)
  {
    f := FirstValueAt(attrs, key);
    l := LastValueAt(attrs, key);
  }

  /** In one event the two searches give the first value and the last. */
  lemma {:induction false} FirstAndLastValues(attrs: seq<Attr>, key: string, f: nat, l: nat)
    requires FirstAndLast(attrs, key, f, l)
    ensures FirstValue(attrs, key) == Some(attrs[f].value)
    ensures key in MapOf(attrs) && MapOf(attrs)[key] == attrs[l].value
  {
    var i := FirstValueAt(attrs, key);
    assert i == f;
    MapValueAt(attrs, key, l);
  }

  /** When the scan succeeds there is a first event that carries the key, and in it a
      first and a last attribute with the key. */
  lemma {:induction false} CarrierExists(tx: TxResponse, key: string) returns (i: nat, f: nat, l: nat)
    requires ScanFrom(AllEvents(tx), key, 0).Some?
    ensures FirstCarrier(AllEvents(tx), key, 0, i) && FirstAndLast(AllEvents(tx)[i].attrs, key, f, l)
  {
    i := FirstCarrierExists(AllEvents(tx), key, 0);
    MapKeys(AllEvents(tx)[i].attrs, key);
    f, l := FirstAndLastExist(AllEvents(tx)[i].attrs, key);
  }

  /** The two searches agree on a transaction exactly when the first event that carries
      the key gives it the same value first and last. */
  lemma {:induction false} AgreeIffFirstIsLast(tx: TxResponse, key: string, i: nat, f: nat, l: nat)
    requires FirstCarrier(AllEvents(tx), key, 0, i) && FirstAndLast(AllEvents(tx)[i].attrs, key, f, l)
    ensures var attrs := AllEvents(tx)[i].attrs;
            ScanFrom(AllEvents(tx), key, 0) == Some(MapOf(attrs)[key]) <==> attrs[f].value == attrs[l].value
  {
    ScanAndMaps(AllEvents(tx), key, 0, i);
    FirstAndLastValues(AllEvents(tx)[i].attrs, key, f, l);
  }

  /** A transaction on which they disagree. */
  lemma {:induction false} RepeatedKeyCanDiffer()
    ensures var tx := TxResponse("hash", [Event([Attr("k", "first"), Attr("k", "last")])], []);
            ScanFrom(AllEvents(tx), "k", 0) == Some("first") && At(MapOf(AllEvents(tx)[0].attrs), "k") == "last"
  {
    var attrs := [Attr("k", "first"), Attr("k", "last")];
    var tx := TxResponse("hash", [Event(attrs)], []);
    assert AllEvents(tx) == [Event(attrs)];
    FirstAndLastValues(attrs, "k", 0, 1);
    ScanAndMaps(AllEvents(tx), "k", 0, 0);
  }
}
