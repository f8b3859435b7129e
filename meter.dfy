/**
 * The per-site view meter kept in the browser's local storage under the key
 * "pw_meter_<site>". Both SDK revisions have the same loadMeter/saveMeter.
 * Local storage is a map from keys to stored values; a stored value either
 * parses as an integer or does not parse at all.
 */
module Meter {

  /** What local storage holds under a key, as JSON.parse sees it. */
  datatype Stored = Int(n: int) | Unparsable

  const KeyPrefix: string := "pw_meter_"

  /** The storage key of a site's meter. */
  function Key(site: string): string
  {
    KeyPrefix + site
  }

  /** Distinct sites never share a meter. */
  lemma KeyInjective(a: string, b: string)
    requires Key(a) == Key(b)
    ensures a == b
  {
    assert a == Key(a)[|KeyPrefix|..];
    assert b == Key(b)[|KeyPrefix|..];
  }

  /** loadMeter: the stored count, or 0 when the key is absent or its value
    * does not parse. */
  function LoadMeter(storage: map<string, Stored>, site: string): (count: int)
    ensures Key(site) !in storage ==> count == 0
    ensures Key(site) in storage && storage[Key(site)] == Unparsable ==> count == 0
    ensures Key(site) in storage && storage[Key(site)].Int? ==> count == storage[Key(site)].n
  {
    if Key(site) in storage then
      match storage[Key(site)]
      case Int(n) => n
      case Unparsable => 0
    else 0
  }

  /** saveMeter: the storage after writing `v` under the site's key. Loading
    * gives `v` back; every other key, and so every other site's meter, is
    * left as it was. */
  function SaveMeter(storage: map<string, Stored>, site: string, v: int): (storage': map<string, Stored>)
    ensures LoadMeter(storage', site) == v
    ensures storage'.Keys == storage.Keys + {Key(site)}
    ensures forall k :: k in storage && k != Key(site) ==> storage'[k] == storage[k]
    ensures forall other :: other != site ==> LoadMeter(storage', other) == LoadMeter(storage, other)
  {
    var storage' := storage[Key(site) := Int(v)];
    forall other | other != site
      ensures LoadMeter(storage', other) == LoadMeter(storage, other)
    {
      if Key(other) == Key(site) {
        KeyInjective(other, site);
      }
    }
    storage'
  }

  /** The browser's local storage, shared by every page of the origin. */
  class MeterStore {
    var entries: map<string, Stored>

    constructor (initial: map<string, Stored>)
      ensures entries == initial
    {
      entries := initial;
    }

    function Load(site: string): int
      reads this
    {
      LoadMeter(entries, site)
    }

    method Save(site: string, v: int)
      modifies this
      ensures entries == SaveMeter(old(entries), site, v)
      ensures Load(site) == v
    {
      entries := entries[Key(site) := Int(v)];
    }
  }
}
