/** The loading record `isLoading: Record<string, boolean>`: a key that was
    never set reads as `undefined`, which the page treats as not loading. */
module Tracker {

  /** `isLoading[key]` is truthy. */
  predicate IsPending(m: map<string, bool>, key: string)
  {
    key in m && m[key]
  }

  /** `m` and `m'` agree on `key`: both lack it, or both hold the same flag. */
  predicate Agree(m: map<string, bool>, m': map<string, bool>, key: string)
  {
    (key in m <==> key in m') && (key in m ==> m[key] == m'[key])
  }

  /** `prev => ({ ...prev, [key]: flag })`: sets one entry, keeps the rest. */
  function Set(m: map<string, bool>, key: string, flag: bool): (r: map<string, bool>)
    ensures key in r && r[key] == flag
    ensures IsPending(r, key) <==> flag
    ensures r.Keys == m.Keys + {key}
    ensures forall k :: k != key ==> Agree(m, r, k)
  {
    m[key := flag]
  }

  /** Marks `key` as loading. */
  function Begin(m: map<string, bool>, key: string): (r: map<string, bool>)
    ensures IsPending(r, key)
    ensures forall k :: k != key ==> Agree(m, r, k)
  {
    Set(m, key, true)
  }

  /** Marks `key` as no longer loading; harmless for a key never begun. */
  function End(m: map<string, bool>, key: string): (r: map<string, bool>)
    ensures !IsPending(r, key) && key in r
    ensures forall k :: k != key ==> Agree(m, r, k)
  {
    Set(m, key, false)
  }

  /** Agreement is transitive, so frames compose along a run. */
  lemma AgreeTrans(m1: map<string, bool>, m2: map<string, bool>, m3: map<string, bool>, key: string)
    requires Agree(m1, m2, key) && Agree(m2, m3, key)
    ensures Agree(m1, m3, key)
  {
  }
}
