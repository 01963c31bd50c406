/** Canonical type indices, which make the type check of call_indirect a comparison of numbers. */
module Canonical {
  import opened Words
  import opened Wasm
  import opened Sections
  import opened Layout

  /** The least index of a type equal to types[i]. */
  function Canon(types: seq<FnType>, i: nat): (r: nat)
    requires i < |types|
    ensures r <= i && types[r] == types[i] && forall j :: 0 <= j < r ==> types[j] != types[i]
  {
    LeastFrom(types, i, 0)
  }

  function LeastFrom(types: seq<FnType>, i: nat, j: nat): (r: nat)
    requires j <= i < |types| && forall k :: 0 <= k < j ==> types[k] != types[i]
    ensures r <= i && types[r] == types[i] && forall k :: 0 <= k < r ==> types[k] != types[i]
    decreases i - j
  {
    if types[j] == types[i] then j else LeastFrom(types, i, j + 1)
  }

  /** Two indices have the same canonical index exactly when their types are equal. */
  lemma CanonEqual(types: seq<FnType>, i: nat, j: nat)
    requires i < |types| && j < |types|
    ensures Canon(types, i) == Canon(types, j) <==> types[i] == types[j]
    ensures Canon(types, Canon(types, i)) == Canon(types, i)
  {
    hide LeastFrom, Canon;
    var a, b := Canon(types, i), Canon(types, j);
    var c := Canon(types, a);
  }

  function Canonicalized(types: seq<FnType>, entries: seq<U32>): (r: seq<U32>)
    requires AllBelow(entries, |types|)
    ensures |r| == |entries|
  {
    seq(|entries|, f requires 0 <= f < |entries| => Canon(types, entries[f]))
  }

  /** What the compiler needs of every function's type. */
  function Sigs(types: seq<FnType>, entries: seq<U32>): (r: seq<Sig>)
    requires AllBelow(entries, |types|)
    ensures |r| == |entries|
  {
    seq(|entries|, f requires 0 <= f < |entries| => Sig(|types[entries[f]].cparams|, types[entries[f]].ret.Some?))
  }

  /** After loading, entries are equal exactly when the functions' signatures are, and every function
      keeps its signature. */
  lemma EntriesCompare(types: seq<FnType>, entries: seq<U32>, f: nat, g: nat)
    requires AllBelow(entries, |types|) && f < |entries| && g < |entries|
    ensures var c := Canonicalized(types, entries);
      && AllBelow(c, |types|) && types[c[f]] == types[entries[f]]
      && (c[f] == c[g] <==> types[entries[f]] == types[entries[g]])
      && Canonicalized(types, c) == c
  {
    hide Canon;
    var c := Canonicalized(types, entries);
    CanonEqual(types, entries[f], entries[g]);
    forall h | 0 <= h < |entries| ensures c[h] < |types| && Canon(types, c[h]) == c[h] {
      CanonEqual(types, entries[h], entries[h]);
    }
  }

  lemma SigsKept(types: seq<FnType>, entries: seq<U32>)
    requires AllBelow(entries, |types|)
    ensures AllBelow(Canonicalized(types, entries), |types|)
    ensures Sigs(types, Canonicalized(types, entries)) == Sigs(types, entries)
  {
    hide Canon;
    var c := Canonicalized(types, entries);
    forall f | 0 <= f < |entries| ensures c[f] < |types| && types[c[f]] == types[entries[f]] {
      EntriesCompare(types, entries, f, f);
    }
  }

  /** The shim's decision: the callee, or a trap when the table index or the function index is out of
      bounds or the callee's entry is not the wanted number. */
  function IndirectCallee(table: seq<U32>, entries: seq<U32>, i: nat, want: nat): Option<U32> {
    if i >= |table| then None
    else if table[i] >= |entries| then None
    else if entries[table[i]] != want then None
    else Some(table[i])
  }

  /** Comparing canonical numbers is comparing function types (section 4.4.6, call_indirect). */
  lemma IndirectCheck(types: seq<FnType>, entries: seq<U32>, table: seq<U32>, i: nat, itype: nat)
    requires AllBelow(entries, |types|) && itype < |types|
    ensures var r := IndirectCallee(table, Canonicalized(types, entries), i, Canon(types, itype));
      r == if i < |table| && table[i] < |entries| && types[entries[table[i]]] == types[itype] then Some(table[i]) else None
  {
    hide Canon;
    if i < |table| && table[i] < |entries| { CanonEqual(types, entries[table[i]], itype); }
  }
}
