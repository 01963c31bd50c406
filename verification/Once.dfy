/** Every placeholder waits for one label and is in its list once. */
module Once {
  import opened Wasm
  import opened X86
  import opened Layout
  import opened Fixups

  predicate Increasing(s: seq<nat>) {
    forall i, k :: 0 <= i < k < |s| ==> s[i] < s[k]
  }

  lemma IncreasingBoth(f: seq<nat>, g: seq<nat>, lo: nat, mid: nat, hi: nat)
    requires Increasing(f) && Increasing(g) && Within(f, lo, mid) && Within(g, mid, hi)
    ensures Increasing(f + g)
  {
  }

  lemma {:induction false} EntriesOnce(ts: seq<nat>, q: nat, j: nat)
    ensures Increasing(EntryFields(ts, q, j))
    decreases |ts|
  {
    if |ts| > 0 {
      EntriesOnce(ts[1..], q + 16, j);
      IncreasingBoth(When(ts[0] == j, q + 8), EntryFields(ts[1..], q + 16, j), q, q + 16, q + 16 * |ts|);
    }
  }

  lemma AtomOnce(kind: Kind, env: Env, a: Atom, p: nat, keeps: seq<bool>, j: nat)
    requires AtomOk(env, a, |keeps|)
    ensures Increasing(AtomFields(kind, env, a, p, keeps, j))
  {
    hide Asm, LeaveSize, BrIfTest, Increasing;
    OneIncreasing();
    if a.BrTable? && kind.Absolute? {
      EntriesOnce(a.targets, p + 37, j);
      TableOnce(a.targets, a.default, p, j);
    }
  }

  lemma OneIncreasing()
    ensures Increasing([]) && forall x: nat :: Increasing([x])
  {
  }

  lemma TableOnce(ts: seq<nat>, d: nat, p: nat, j: nat)
    requires Increasing(EntryFields(ts, p + 37, j))
    ensures Increasing(When(d == j, p + 29) + EntryFields(ts, p + 37, j))
  {
    hide EntryFields;
    IncreasingBoth(When(d == j, p + 29), EntryFields(ts, p + 37, j), p, p + 37, p + 37 + 16 * |ts|);
  }

  /** What the fields inside a structured instruction consist of. */
  lemma InnerFieldsAre(kind: Kind, env: Env, b: Body, p: nat, keeps: seq<bool>, j: nat)
    requires Nested(b) && BodyOk(env, b, |keeps|)
    requires BodyOk(env, b.body, |keeps| + 1) && (b.IfElse? ==> BodyOk(env, b.els, |keeps| + 1))
    ensures var k := [Keep(b.bt)] + keeps;
      var q := p + HeadSize(b) + Size(env, b.body, k);
      InnerFields(kind, env, b, p, keeps, j) == Fields(kind, env, b.body, p + HeadSize(b), k, j)
        + (if b.IfElse? then ElseField(kind, q, j) + Fields(kind, env, b.els, q + ElseSize() + |Enter()|, k, j) else [])
  {
    hide Fields, HeadSize, ElseSize, Enter, Size, BodyOk, ElseField, Keep;
  }

  /** No field is in a list twice: the list is in the order of the code. */
  lemma {:induction false} FieldsOnce(kind: Kind, env: Env, b: Body, p: nat, keeps: seq<bool>, j: nat)
    requires BodyOk(env, b, |keeps|)
    ensures Increasing(Fields(kind, env, b, p, keeps, j))
    decreases b, 1
  {
    hide AtomOk, AtomSize, AtomFields, InnerFields, InnerSize, HeadSize, EndOf, Increasing, Size;
    if b.Done? {
      OneIncreasing();
    } else if b.Atomic? {
      var e := p + 7 + AtomSize(env, b.atom, keeps);
      FieldsAtomic(kind, env, b.atom, b.next, p, keeps, j);
      AtomOnce(kind, env, b.atom, p + 7, keeps, j);
      FieldsOnce(kind, env, b.next, e, keeps, j);
      FieldsWithin(kind, env, b.next, e, keeps, j);
      IncreasingBoth(AtomFields(kind, env, b.atom, p + 7, keeps, j), Fields(kind, env, b.next, e, keeps, j), p + 7, e, e + Size(env, b.next, keeps));
    } else {
      var e := EndOf(env, b, p, keeps);
      FieldsNested(kind, env, b, p, keeps, j);
      EndOfSize(env, b, p, keeps);
      InnerOnce(kind, env, b, p, keeps, j + 1);
      InnerFieldsWithin(kind, env, b, p, keeps, j + 1);
      FieldsOnce(kind, env, b.next, e, keeps, j);
      FieldsWithin(kind, env, b.next, e, keeps, j);
      IncreasingBoth(InnerFields(kind, env, b, p, keeps, j + 1), Fields(kind, env, b.next, e, keeps, j), p + HeadSize(b), e, e + Size(env, b.next, keeps));
    }
  }

  lemma InnerOnce(kind: Kind, env: Env, b: Body, p: nat, keeps: seq<bool>, j: nat)
    requires Nested(b) && BodyOk(env, b, |keeps|)
    ensures Increasing(InnerFields(kind, env, b, p, keeps, j))
    decreases b, 0
  {
    hide Fields, InnerFields, HeadSize, ElseSize, Enter, Keep, Size, BodyOk, ElseField, Increasing;
    BodyOkParts(env, b, |keeps|);
    InnerFieldsAre(kind, env, b, p, keeps, j);
    var k, p1 := [Keep(b.bt)] + keeps, p + HeadSize(b);
    var q := p1 + Size(env, b.body, k);
    var f := Fields(kind, env, b.body, p1, k, j);
    FieldsOnce(kind, env, b.body, p1, k, j);
    if b.IfElse? {
      var v := q + ElseSize() + |Enter()|;
      var x, g := ElseField(kind, q, j), Fields(kind, env, b.els, v, k, j);
      FieldsWithin(kind, env, b.body, p1, k, j);
      FieldsWithin(kind, env, b.els, v, k, j);
      FieldsOnce(kind, env, b.els, v, k, j);
      ElseOnce(kind, q, j);
      IncreasingBoth(x, g, q, v, v + Size(env, b.els, k));
      WithinBoth(x, g, q, v, v + Size(env, b.els, k));
      IncreasingBoth(f, x + g, p1, q, v + Size(env, b.els, k));
    } else {
      assert f + [] == f;
    }
  }

  lemma ElseOnce(kind: Kind, q: nat, j: nat)
    ensures Increasing(ElseField(kind, q, j))
  {
    hide ElseSize, Enter;
  }

  // ---------- one list each ----------

  /** A field refers to one label, in one way. */
  ghost predicate SameLabel(a: nat, f: seq<nat>, kind: Kind, j: nat, f': seq<nat>, kind': Kind, j': nat) {
    a in f && a in f' ==> kind == kind' && j == j'
  }

  lemma SameBoth(a: nat, mid: nat, kind: Kind, j: nat, kind': Kind, j': nat, lo: nat, hi: nat,
                 f: seq<nat>, g: seq<nat>, f': seq<nat>, g': seq<nat>)
    requires Within(f, lo, mid) && Within(f', lo, mid) && Within(g, mid, hi) && Within(g', mid, hi)
    requires SameLabel(a, f, kind, j, f', kind', j') && SameLabel(a, g, kind, j, g', kind', j')
    ensures SameLabel(a, f + g, kind, j, f' + g', kind', j')
  {
  }

  lemma {:induction false} EntriesApart(ts: seq<nat>, q: nat, j: nat, j': nat, a: nat)
    ensures SameLabel(a, EntryFields(ts, q, j), Absolute, j, EntryFields(ts, q, j'), Absolute, j')
    decreases |ts|
  {
    if |ts| > 0 {
      EntriesApart(ts[1..], q + 16, j, j', a);
      SameBoth(a, q + 16, Absolute, j, Absolute, j', q, q + 16 * |ts|, When(ts[0] == j, q + 8), EntryFields(ts[1..], q + 16, j),
               When(ts[0] == j', q + 8), EntryFields(ts[1..], q + 16, j'));
    }
  }

  lemma AtomApart(env: Env, x: Atom, p: nat, keeps: seq<bool>, kind: Kind, j: nat, kind': Kind, j': nat, a: nat)
    requires AtomOk(env, x, |keeps|)
    ensures SameLabel(a, AtomFields(kind, env, x, p, keeps, j), kind, j, AtomFields(kind', env, x, p, keeps, j'), kind', j')
  {
    hide Asm, LeaveSize, BrIfTest, AtomOk;
    if x.BrTable? && kind.Absolute? && kind'.Absolute? {
      EntriesApart(x.targets, p + 37, j, j', a);
      SameBoth(a, p + 37, kind, j, kind', j', p, p + 37 + 16 * |x.targets|, When(x.default == j, p + 29), EntryFields(x.targets, p + 37, j),
               When(x.default == j', p + 29), EntryFields(x.targets, p + 37, j'));
    }
  }

  /** No field is in the lists of two labels, or of both kinds. */
  lemma {:induction false} FieldsApart(env: Env, b: Body, p: nat, keeps: seq<bool>, kind: Kind, j: nat, kind': Kind, j': nat, a: nat)
    requires BodyOk(env, b, |keeps|)
    ensures SameLabel(a, Fields(kind, env, b, p, keeps, j), kind, j, Fields(kind', env, b, p, keeps, j'), kind', j')
    decreases b, 1
  {
    hide AtomOk, AtomSize, AtomFields, InnerFields, InnerSize, HeadSize, EndOf, SameLabel, Size;
    if b.Done? {
      NoneApart(a, kind, j, kind', j');
    } else if b.Atomic? {
      var e := p + 7 + AtomSize(env, b.atom, keeps);
      FieldsAtomic(kind, env, b.atom, b.next, p, keeps, j);
      FieldsAtomic(kind', env, b.atom, b.next, p, keeps, j');
      AtomApart(env, b.atom, p + 7, keeps, kind, j, kind', j', a);
      FieldsApart(env, b.next, e, keeps, kind, j, kind', j', a);
      FieldsWithin(kind, env, b.next, e, keeps, j);
      FieldsWithin(kind', env, b.next, e, keeps, j');
      SameBoth(a, e, kind, j, kind', j', p + 7, e + Size(env, b.next, keeps),
               AtomFields(kind, env, b.atom, p + 7, keeps, j), Fields(kind, env, b.next, e, keeps, j),
               AtomFields(kind', env, b.atom, p + 7, keeps, j'), Fields(kind', env, b.next, e, keeps, j'));
    } else {
      var e := EndOf(env, b, p, keeps);
      FieldsNested(kind, env, b, p, keeps, j);
      FieldsNested(kind', env, b, p, keeps, j');
      EndOfSize(env, b, p, keeps);
      InnerApart(env, b, p, keeps, kind, j + 1, kind', j' + 1, a);
      InnerFieldsWithin(kind, env, b, p, keeps, j + 1);
      InnerFieldsWithin(kind', env, b, p, keeps, j' + 1);
      FieldsApart(env, b.next, e, keeps, kind, j, kind', j', a);
      FieldsWithin(kind, env, b.next, e, keeps, j);
      FieldsWithin(kind', env, b.next, e, keeps, j');
      OneMore(a, InnerFields(kind, env, b, p, keeps, j + 1), kind, j, InnerFields(kind', env, b, p, keeps, j' + 1), kind', j');
      SameBoth(a, e, kind, j, kind', j', p + HeadSize(b), e + Size(env, b.next, keeps),
               InnerFields(kind, env, b, p, keeps, j + 1), Fields(kind, env, b.next, e, keeps, j),
               InnerFields(kind', env, b, p, keeps, j' + 1), Fields(kind', env, b.next, e, keeps, j'));
    }
  }

  lemma NoneApart(a: nat, kind: Kind, j: nat, kind': Kind, j': nat)
    ensures SameLabel(a, [], kind, j, [], kind', j')
  {
  }

  lemma OneMore(a: nat, f: seq<nat>, kind: Kind, j: nat, f': seq<nat>, kind': Kind, j': nat)
    requires SameLabel(a, f, kind, j + 1, f', kind', j' + 1)
    ensures SameLabel(a, f, kind, j, f', kind', j')
  {
  }

  lemma InnerApart(env: Env, b: Body, p: nat, keeps: seq<bool>, kind: Kind, j: nat, kind': Kind, j': nat, a: nat)
    requires Nested(b) && BodyOk(env, b, |keeps|)
    ensures SameLabel(a, InnerFields(kind, env, b, p, keeps, j), kind, j, InnerFields(kind', env, b, p, keeps, j'), kind', j')
    decreases b, 0
  {
    hide Fields, InnerFields, HeadSize, ElseSize, Enter, Keep, Size, BodyOk, ElseField, SameLabel;
    BodyOkParts(env, b, |keeps|);
    InnerFieldsAre(kind, env, b, p, keeps, j);
    InnerFieldsAre(kind', env, b, p, keeps, j');
    var k, p1 := [Keep(b.bt)] + keeps, p + HeadSize(b);
    var q := p1 + Size(env, b.body, k);
    var f, f' := Fields(kind, env, b.body, p1, k, j), Fields(kind', env, b.body, p1, k, j');
    FieldsApart(env, b.body, p1, k, kind, j, kind', j', a);
    if b.IfElse? {
      var v := q + ElseSize() + |Enter()|;
      var z := v + Size(env, b.els, k);
      var x, x' := ElseField(kind, q, j), ElseField(kind', q, j');
      var g, g' := Fields(kind, env, b.els, v, k, j), Fields(kind', env, b.els, v, k, j');
      FieldsWithin(kind, env, b.body, p1, k, j);
      FieldsWithin(kind', env, b.body, p1, k, j');
      FieldsWithin(kind, env, b.els, v, k, j);
      FieldsWithin(kind', env, b.els, v, k, j');
      FieldsApart(env, b.els, v, k, kind, j, kind', j', a);
      ElseApart(a, q, kind, j, kind', j');
      SameBoth(a, v, kind, j, kind', j', q, z, x, g, x', g');
      WithinBoth(x, g, q, v, z);
      WithinBoth(x', g', q, v, z);
      SameBoth(a, q, kind, j, kind', j', p1, z, f, x + g, f', x' + g');
    } else {
      assert f + [] == f && f' + [] == f';
    }
  }

  lemma ElseApart(a: nat, q: nat, kind: Kind, j: nat, kind': Kind, j': nat)
    ensures SameLabel(a, ElseField(kind, q, j), kind, j, ElseField(kind', q, j'), kind', j')
  {
    hide ElseSize, Enter;
  }
}
