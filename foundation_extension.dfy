/** The dictionary operators of Foundation+Extension.swift: `lhs += rhs`
    copies every entry of an optional dictionary into `lhs`, and `lhs + rhs`
    merges two optional dictionaries into a new one. */
module FoundationExtension {
  import opened Wrappers

  /** `lhs += rhs` with `lhs` passed `inout`: the loop over `rhs` writes each
      of its entries into the dictionary, so `rhs` wins on shared keys. */
  method AddAssign<K, V>(lhs: map<K, V>, rhs: Option<map<K, V>>) returns (r: map<K, V>)
    ensures r == Updated(lhs, rhs)
  {
    r := lhs;
    if rhs.None? {
      return;
    }
    var m := rhs.value;
    var remaining := m.Keys;
    while remaining != {}
      invariant remaining <= m.Keys
      invariant r.Keys == lhs.Keys + (m.Keys - remaining)
      invariant forall k :: k in m && k !in remaining ==> r[k] == m[k]
      invariant forall k :: k in lhs && (k !in m || k in remaining) ==> r[k] == lhs[k]
      decreases remaining
    {
      var k :| k in remaining;
      r := r[k := m[k]];
      remaining := remaining - {k};
    }
    assert r.Keys == Updated(lhs, rhs).Keys;
  }

  /** What `lhs += rhs` leaves in `lhs`. */
  function Updated<K, V>(lhs: map<K, V>, rhs: Option<map<K, V>>): (r: map<K, V>)
    ensures rhs.None? ==> r == lhs
    ensures rhs.Some? ==> r.Keys == lhs.Keys + rhs.value.Keys
    ensures rhs.Some? ==> forall k :: k in rhs.value ==> r[k] == rhs.value[k]
    ensures rhs.Some? ==> forall k :: k in lhs && k !in rhs.value ==> r[k] == lhs[k]
  {
    match rhs
    case None => lhs
    case Some(m) => lhs + m
  }

  /** `lhs + rhs`: nil when both are nil, the present one when only one is,
      and otherwise a fresh dictionary filled from `lhs` and then from `rhs`,
      so that `rhs` wins on shared keys. */
  function Plus<K, V>(lhs: Option<map<K, V>>, rhs: Option<map<K, V>>): (r: Option<map<K, V>>)
    ensures r.None? <==> lhs.None? && rhs.None?
    ensures lhs.None? ==> r == rhs
    ensures rhs.None? ==> r == lhs
    ensures lhs.Some? && rhs.Some? ==> r.Some? && r.value.Keys == lhs.value.Keys + rhs.value.Keys
    ensures lhs.Some? && rhs.Some? ==> forall k :: k in rhs.value ==> r.value[k] == rhs.value[k]
    ensures lhs.Some? && rhs.Some? ==> forall k :: k in lhs.value && k !in rhs.value ==> r.value[k] == lhs.value[k]
  {
    if lhs.None? && rhs.None? then None
    else if lhs.None? then rhs
    else if rhs.None? then lhs
    else Some(Updated(Updated(map[], lhs), rhs))
  }
}
