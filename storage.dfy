/**
 * The prefixed key/value facade over the browser's localStorage: every key gets the
 * application prefix, and every value is wrapped in an envelope carrying the format version
 * and the time it was written. JSON text is treated as an opaque, faithful encoding: a stored
 * entry is described by what `JSON.parse` makes of it.
 */
module Storage {

  const AppVersion := "1.0.0"
  const AppPrefix := "simpliquote_"

  /** The key `isAvailable` writes and removes again. */
  const TestKey := AppPrefix + "test"

  /** What `JSON.parse` makes of the text stored under a key. */
  datatype Entry<D> =
    | Envelope(version: string, timestamp: string, data: D)  // `{version, timestamp, data}`
    | NoDataField                                             // parses, but has no `data` (an array, a number, ...)
    | NullValue                                               // the text "null": destructuring it throws
    | Unparsable                                              // not JSON at all: parsing throws
    | EmptyText                                               // "", which is falsy

  /** What `load` hands back: the stored `data`, or `undefined` when the parsed value has none. */
  datatype Loaded<D> = Data(d: D) | Undefined

  /** The key under which the application stores `key`. */
  function StorageKey(key: string): (k: string)
    ensures |k| == |AppPrefix| + |key|
    ensures k[..|AppPrefix|] == AppPrefix && k[|AppPrefix|..] == key
  {
    AppPrefix + key
  }

  /** Prefixing is injective: two application keys never share a storage key. */
  lemma StorageKeyInjective(a: string, b: string)
    requires StorageKey(a) == StorageKey(b)
    ensures a == b
  {
    assert a == StorageKey(a)[|AppPrefix|..];
    assert b == StorageKey(b)[|AppPrefix|..];
  }

  /** The entries after `save(key, data)` succeeded at time `now`. */
  function Saved<D>(items: map<string, Entry<D>>, key: string, data: D, now: string): (r: map<string, Entry<D>>)
    ensures StorageKey(key) in r && r[StorageKey(key)] == Envelope(AppVersion, now, data)
    ensures forall k :: k != StorageKey(key) ==> (k in r <==> k in items)
    ensures forall k :: k in items && k != StorageKey(key) ==> r[k] == items[k]
  {
    items[StorageKey(key) := Envelope(AppVersion, now, data)]
  }

  /** What `load(key, defaultValue)` returns for the given entries. */
  function LoadFrom<D>(items: map<string, Entry<D>>, available: bool, key: string, defaultValue: D): (r: Loaded<D>)
    ensures !available ==> r == Data(defaultValue)
    ensures StorageKey(key) !in items ==> r == Data(defaultValue)
  {
    if !available || StorageKey(key) !in items then Data(defaultValue)
    else
      match items[StorageKey(key)]
      case Envelope(_, _, d) => Data(d)
      case NoDataField => Undefined
      case NullValue => Data(defaultValue)
      case Unparsable => Data(defaultValue)
      case EmptyText => Data(defaultValue)
  }

  /**
   * localStorage as the application sees it through the facade. `available` is false when
   * the browser refuses every access (storage disabled); `full` is true when writes fail
   * for lack of quota.
   */
  class Store<D> {
    var items: map<string, Entry<D>>
    var available: bool
    var full: bool

    constructor(items: map<string, Entry<D>>, available: bool, full: bool)
      ensures this.items == items && this.available == available && this.full == full
    {
      this.items := items;
      this.available := available;
      this.full := full;
    }

    /** `storage.save(key, data)`: true exactly when the envelope could be written. */
    method Save(key: string, data: D, now: string) returns (ok: bool)
      modifies this
      ensures ok == (available && !full)
      ensures ok ==> items == Saved(old(items), key, data, now)
      ensures !ok ==> items == old(items)
      ensures available == old(available) && full == old(full)
    {
      if !available || full {
        return false;
      }
      items := items[StorageKey(key) := Envelope(AppVersion, now, data)];
      ok := true;
    }

    /** `storage.load(key, defaultValue)`: never fails; every failure yields the default. */
    method Load(key: string, defaultValue: D) returns (r: Loaded<D>)
      ensures r == LoadFrom(items, available, key, defaultValue)
    {
      if !available {
        return Data(defaultValue);
      }
      var k := StorageKey(key);
      if k !in items {
        return Data(defaultValue);
      }
      match items[k] {
        case Envelope(_, _, d) => r := Data(d);
        case NoDataField => r := Undefined;
        case NullValue => r := Data(defaultValue);
        case Unparsable => r := Data(defaultValue);
        case EmptyText => r := Data(defaultValue);
      }
    }

    /** `storage.remove(key)`: true exactly when storage could be reached. */
    method Remove(key: string) returns (ok: bool)
      modifies this
      ensures ok == available
      ensures ok ==> items == old(items) - {StorageKey(key)}
      ensures !ok ==> items == old(items)
      ensures available == old(available) && full == old(full)
    {
      if !available {
        return false;
      }
      items := items - {StorageKey(key)};
      ok := true;
    }

    /** `storage.isAvailable()`: writes and removes a test entry. */
    method IsAvailable() returns (ok: bool)
      modifies this
      ensures ok == (available && !full)
      ensures ok ==> items == old(items) - {TestKey}
      ensures !ok ==> items == old(items)
      ensures available == old(available) && full == old(full)
    {
      if !available || full {
        return false;
      }
      items := items[TestKey := Unparsable];
      items := items - {TestKey};
      ok := true;
    }
  }

  // ---- Properties -------------------------------------------------------------------------

  /** Round trip: what `save` wrote, `load` reads back. */
  lemma SaveThenLoad<D>(items: map<string, Entry<D>>, key: string, data: D, now: string, defaultValue: D)
    ensures LoadFrom(Saved(items, key, data, now), true, key, defaultValue) == Data(data)
  {
  }

  /** Saving under one key leaves what every other key loads as it was. */
  lemma SaveKeepsOtherKeys<D>(items: map<string, Entry<D>>, key: string, data: D, now: string,
                              available: bool, other: string, defaultValue: D)
    requires other != key
    ensures LoadFrom(Saved(items, key, data, now), available, other, defaultValue)
            == LoadFrom(items, available, other, defaultValue)
  {
    if StorageKey(other) == StorageKey(key) {
      StorageKeyInjective(other, key);
    }
  }

  /** After `remove(key)`, loading the key gives the default. */
  lemma RemoveThenLoad<D>(items: map<string, Entry<D>>, key: string, available: bool, defaultValue: D)
    ensures LoadFrom(items - {StorageKey(key)}, available, key, defaultValue) == Data(defaultValue)
  {
  }

  /** Removing one key leaves what every other key loads as it was. */
  lemma RemoveKeepsOtherKeys<D>(items: map<string, Entry<D>>, key: string, available: bool,
                                other: string, defaultValue: D)
    requires other != key
    ensures LoadFrom(items - {StorageKey(key)}, available, other, defaultValue)
            == LoadFrom(items, available, other, defaultValue)
  {
    if StorageKey(other) == StorageKey(key) {
      StorageKeyInjective(other, key);
    }
  }

  /** `load` returns the caller's default for every entry it cannot use, never an error. */
  lemma UnusableEntriesGiveDefault<D>(items: map<string, Entry<D>>, key: string, defaultValue: D)
    requires StorageKey(key) in items
    requires !items[StorageKey(key)].Envelope? && !items[StorageKey(key)].NoDataField?
    ensures LoadFrom(items, true, key, defaultValue) == Data(defaultValue)
  {
  }

  /** `isAvailable` can disturb only an application entry named "test". */
  lemma ProbeKeepsApplicationKeys<D>(items: map<string, Entry<D>>, key: string, available: bool, defaultValue: D)
    requires key != "test"
    ensures LoadFrom(items - {TestKey}, available, key, defaultValue) == LoadFrom(items, available, key, defaultValue)
  {
    RemoveKeepsOtherKeys(items, "test", available, key, defaultValue);
  }

  /** A save followed by a load through the class, as one caller would use it. */
  method SaveAndReload<D>(s: Store<D>, key: string, data: D, now: string, defaultValue: D) returns (r: Loaded<D>)
    requires s.available && !s.full
    modifies s
    ensures r == Data(data)
  {
    var ok := s.Save(key, data, now);
    r := s.Load(key, defaultValue);
  }
}
