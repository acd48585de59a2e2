/**
 * Boolean flag maps keyed by string, updated with `{ ...prev, [key]: !prev[key] }`:
 * the recipe accordion (`expandedIds`) and the sidebar submenus (`openMenus`).
 */
module Flags {

  /** Truthiness of `m[k]`: a missing key reads `undefined`, which is falsy. */
  predicate Flag(m: map<string, bool>, k: string) {
    k in m && m[k]
  }

  /** `{ ...m, [k]: !m[k] }`. */
  function Toggle(m: map<string, bool>, k: string): (r: map<string, bool>)
    ensures Flag(r, k) == !Flag(m, k)
    ensures r.Keys == m.Keys + {k}
    ensures forall j :: j in m && j != k ==> r[j] == m[j]
  {
    m[k := !Flag(m, k)]
  }

  /** `{ ...m, [k]: true }`. */
  function Raise(m: map<string, bool>, k: string): (r: map<string, bool>)
    ensures Flag(r, k)
    ensures r.Keys == m.Keys + {k}
    ensures forall j :: j in m && j != k ==> r[j] == m[j]
  {
    m[k := true]
  }

  /** Toggling the same key twice gives back every flag as it was. */
  lemma ToggleTwice(m: map<string, bool>, k: string)
    ensures forall j :: Flag(Toggle(Toggle(m, k), k), j) == Flag(m, j)
  {
  }
}
