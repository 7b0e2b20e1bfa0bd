/**
 * The engine's key-value preference store, modelled as a map from key to typed value.
 * Reading a key that is absent, or that holds a value of another type, gives the default.
 */
module Prefs {
  import opened UnityMath

  datatype Pref = IntPref(i: int) | FloatPref(f: Float) | StringPref(s: string)

  type Store = map<string, Pref>

  predicate HasKey(store: Store, key: string)
  {
    key in store
  }

  function GetInt(store: Store, key: string, default: int): (r: int)
    ensures key !in store ==> r == default
  {
    if key in store && store[key].IntPref? then store[key].i else default
  }

  function GetFloat(store: Store, key: string, default: Float): (r: Float)
    ensures key !in store ==> r == default
  {
    if key in store && store[key].FloatPref? then store[key].f else default
  }

  function GetString(store: Store, key: string, default: string): (r: string)
    ensures key !in store ==> r == default
  {
    if key in store && store[key].StringPref? then store[key].s else default
  }

  /** Writing then reading the same key gives back what was written. */
  lemma SetThenGet(store: Store, key: string, p: Pref)
    ensures p.IntPref? ==> GetInt(store[key := p], key, 0) == p.i
    ensures p.FloatPref? ==> GetFloat(store[key := p], key, PositiveInfinity) == p.f
    ensures p.StringPref? ==> GetString(store[key := p], key, "") == p.s
  {
  }
}
