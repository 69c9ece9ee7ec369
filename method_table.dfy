/**
 * The server's method table: the methods handed to `New`, copied and sorted by
 * (InterfaceID, MethodID), and the lower-bound binary search `find` that looks a
 * call's method up in it (server/server.go).
 */
module MethodTable {
  import opened Wrappers

  newtype uint64 = x: int | 0 <= x < 0x1_0000_0000_0000_0000
  newtype uint16 = x: int | 0 <= x < 0x1_0000

  /** The identity of an interface method, `capnp.Method` without its display names. */
  datatype MethodId = MethodId(interfaceId: uint64, methodId: uint16)

  /**
   * A method the server implements. The implementation closure is foreign code;
   * `impl` only names it, so that two table entries with equal identities can be told apart.
   */
  datatype Method = Method(id: MethodId, impl: nat)

  /** `sortedMethods.Less`: InterfaceID first, MethodID to break ties. */
  predicate Less(a: MethodId, b: MethodId)
  {
    if a.interfaceId != b.interfaceId then a.interfaceId < b.interfaceId else a.methodId < b.methodId
  }

  /** `Less` is the lexicographic order on (InterfaceID, MethodID) and a strict total order. */
  lemma LessIsLexicographic(a: MethodId, b: MethodId, c: MethodId)
    ensures Less(a, b) <==> a.interfaceId < b.interfaceId || (a.interfaceId == b.interfaceId && a.methodId < b.methodId)
    ensures !Less(a, a)
    ensures Less(a, b) ==> !Less(b, a)
    ensures Less(a, b) && Less(b, c) ==> Less(a, c)
    ensures a != b ==> Less(a, b) || Less(b, a)
  {
  }

  /** The predicate that `find` hands to `sort.Search`: the entry is at or after the query. */
  predicate AtOrAfter(m: MethodId, query: MethodId)
  {
    if m.interfaceId != query.interfaceId then m.interfaceId >= query.interfaceId else m.methodId >= query.methodId
  }

  /** The search predicate is exactly "not before the query" in the `Less` order. */
  lemma AtOrAfterIsNotLess(m: MethodId, query: MethodId)
    ensures AtOrAfter(m, query) <==> !Less(m, query)
  {
  }

  /** What `sort.Sort` leaves behind: no entry is `Less` than an entry before it. */
  ghost predicate Sorted(s: seq<Method>)
  {
    forall i, j :: 0 <= i < j < |s| ==> !Less(s[j].id, s[i].id)
  }

  /**
   * `sortedMethods.find`: the lower bound of `query` in the table, returned only when
   * both identity fields match. With duplicate identities it is the first of them.
   */
  method Find(table: seq<Method>, query: MethodId) returns (r: Option<Method>)
    requires Sorted(table)
    ensures r.None? ==> forall i :: 0 <= i < |table| ==> table[i].id != query
    ensures r.Some? ==> r.value.id == query
    ensures r.Some? ==> exists i :: 0 <= i < |table| && table[i] == r.value && forall j :: 0 <= j < i ==> table[j].id != query
  {
    var lo, hi := 0, |table|;
    while lo < hi
      invariant 0 <= lo <= hi <= |table|
      invariant forall k :: 0 <= k < lo ==> Less(table[k].id, query)
      invariant forall k :: hi <= k < |table| ==> !Less(table[k].id, query)
    {
      var mid := lo + (hi - lo) / 2;
      if !AtOrAfter(table[mid].id, query) {
        lo := mid + 1;
      } else {
        hi := mid;
      }
    }
    if lo == |table| {
      return None;
    }
    var m := table[lo];
    if m.id.interfaceId != query.interfaceId || m.id.methodId != query.methodId {
      return None;
    }
    r := Some(m);
  }

  /** `sortedMethods.Swap`. */
  method Swap(a: array<Method>, i: nat, j: nat)
    requires i < a.Length && j < a.Length
    modifies a
    ensures a[..] == old(a[..])[i := old(a[j])][j := old(a[i])]
    ensures multiset(a[..]) == multiset(old(a[..]))
  {
    a[i], a[j] := a[j], a[i];
  }

  /** `sort.Sort(srv.methods)`, as an insertion sort by adjacent swaps over `Less`. */
  method SortInPlace(a: array<Method>)
    modifies a
    ensures Sorted(a[..])
    ensures multiset(a[..]) == multiset(old(a[..]))
  {
    var i := 0;
    while i < a.Length
      invariant 0 <= i <= a.Length
      invariant Sorted(a[..i])
      invariant multiset(a[..]) == multiset(old(a[..]))
    {
      var j := i;
      while j > 0 && Less(a[j].id, a[j - 1].id)
        invariant 0 <= j <= i
        invariant forall k, l :: 0 <= k < l <= i && k != j && l != j ==> !Less(a[l].id, a[k].id)
        invariant forall l :: j < l <= i ==> !Less(a[l].id, a[j].id)
        invariant multiset(a[..]) == multiset(old(a[..]))
      {
        Swap(a, j - 1, j);
        j := j - 1;
      }
      i := i + 1;
    }
  }

  /** `New`'s table: a copy of the supplied methods, sorted; the caller's list is left alone. */
  method NewTable(methods: seq<Method>) returns (table: seq<Method>)
    ensures Sorted(table)
    ensures multiset(table) == multiset(methods)
  {
    var a := new Method[|methods|](i requires 0 <= i < |methods| => methods[i]);
    assert a[..] == methods;
    SortInPlace(a);
    table := a[..];
  }
}
