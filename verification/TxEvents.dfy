/** The events of a transaction, and what can be said of them position by position: where an
    event stands, and what the attributes of an event give for a key. */
module TxEvents {

  datatype Attr = Attr(key: string, value: string)

  datatype Event = Event(attrs: seq<Attr>)

  datatype TxResponse = TxResponse(hash: string, events: seq<Event>, logs: seq<seq<Event>>)

  /** The number of events in the first j logs. */
  function LogLength(logs: seq<seq<Event>>, j: nat): nat
    requires j <= |logs|
  {
    if j == 0 then 0 else LogLength(logs, j - 1) + |logs[j - 1]|
  }

  /** Event ev has index i: the transaction's own events come first, then log by log. */
  ghost predicate Stands(tx: TxResponse, i: nat, ev: Event) {
    || (i < |tx.events| && ev == tx.events[i])
    || exists j: nat, k: nat ::
         j < |tx.logs| && k < |tx.logs[j]| && i == |tx.events| + LogLength(tx.logs, j) + k && ev == tx.logs[j][k]
  }

  ghost predicate Lacks(ev: Event, key: string) {
    forall i | 0 <= i < |ev.attrs| :: ev.attrs[i].key != key
  }

  ghost predicate FirstAt(ev: Event, key: string, f: nat) {
    f < |ev.attrs| && ev.attrs[f].key == key && forall i | 0 <= i < f :: ev.attrs[i].key != key
  }

  ghost predicate LastAt(ev: Event, key: string, l: nat) {
    l < |ev.attrs| && ev.attrs[l].key == key && forall i | l < i < |ev.attrs| :: ev.attrs[i].key != key
  }

  /** The last attribute with the key has the value; a missing one counts as empty. */
  ghost predicate Gives(ev: Event, key: string, value: string) {
    || (value == "" && Lacks(ev, key))
    || exists l: nat :: LastAt(ev, key, l) && ev.attrs[l].value == value
  }

  /** The map has exactly the keys of the event, each with its last value. */
  ghost predicate IsMapOf(m: map<string, string>, ev: Event) {
    && (forall key | key in m :: exists l: nat :: LastAt(ev, key, l) && ev.attrs[l].value == m[key])
    && (forall i | 0 <= i < |ev.attrs| :: ev.attrs[i].key in m)
  }

  /** The map at log j's event k, counted after the transaction's own events. */
  ghost predicate LogMapAt(tx: TxResponse, maps: seq<map<string, string>>, j: nat, k: nat)
    requires j < |tx.logs| && k < |tx.logs[j]|
  {
    var i := |tx.events| + LogLength(tx.logs, j) + k;
    i < |maps| && IsMapOf(maps[i], tx.logs[j][k])
  }

  /** The maps of all events in the order of their indices, and no more. */
  ghost predicate MapsInOrder(tx: TxResponse, maps: seq<map<string, string>>) {
    && |maps| == |tx.events| + LogLength(tx.logs, |tx.logs|)
    && (forall i | 0 <= i < |tx.events| :: IsMapOf(maps[i], tx.events[i]))
    && (forall j: nat, k: nat | j < |tx.logs| && k < |tx.logs[j]| :: LogMapAt(tx, maps, j, k))
  }

  /** Index i is the least whose event gives "action" the value asked for. */
  ghost predicate FirstToAct(tx: TxResponse, action: string, i: nat, ev: Event) {
    && Stands(tx, i, ev) && Gives(ev, "action", action)
    && forall i': nat, ev' | i' < i && Stands(tx, i', ev') :: !Gives(ev', "action", action)
  }

  ghost predicate NoneActs(tx: TxResponse, action: string) {
    forall i: nat, ev | Stands(tx, i, ev) :: !Gives(ev, "action", action)
  }

  /** The value stands at the first attribute with the key in the first event with it. */
  ghost predicate FirstWithKey(tx: TxResponse, key: string, value: string) {
    exists i: nat, ev, f: nat ::
      && Stands(tx, i, ev) && FirstAt(ev, key, f) && ev.attrs[f].value == value
      && forall i': nat, ev' | i' < i && Stands(tx, i', ev') :: Lacks(ev', key)
  }

  ghost predicate NoneHasKey(tx: TxResponse, key: string) {
    forall i: nat, ev | Stands(tx, i, ev) :: Lacks(ev, key)
  }
}
