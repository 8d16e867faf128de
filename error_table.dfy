/**
 * The dictionary PHP code builds with `$errors[$field][] = $message`: each
 * field maps to the messages filed under it, in the order they were filed.
 * It is specified by the ordered list of (field, message) findings that
 * produced it.
 */
module ErrorTable {
  type Errors<F, M> = map<F, seq<M>>

  datatype Finding<F, M> = Finding(field: F, message: M)

  /** The messages recorded for a field; none when the field has no entry. */
  function Lookup<F(==), M>(errors: Errors<F, M>, field: F): seq<M> {
    if field in errors then errors[field] else []
  }

  /** `$errors[field][] = message`. */
  function Append<F(==), M>(errors: Errors<F, M>, f: Finding<F, M>): Errors<F, M> {
    errors[f.field := Lookup(errors, f.field) + [f.message]]
  }

  /** The dictionary built by appending the findings one after another. */
  function Group<F(==), M>(findings: seq<Finding<F, M>>): Errors<F, M> {
    if findings == [] then map[]
    else Append(Group(findings[..|findings| - 1]), findings[|findings| - 1])
  }

  /** The findings of a check that files all its messages under one field. */
  function Raise<F(==), M>(field: F, messages: seq<M>): (r: seq<Finding<F, M>>)
    ensures |r| == |messages|
  {
    if messages == [] then []
    else Raise(field, messages[..|messages| - 1]) + [Finding(field, messages[|messages| - 1])]
  }

  /** The dictionary is empty exactly when nothing was found. */
  lemma GroupEmpty<F, M>(findings: seq<Finding<F, M>>)
    ensures Group(findings) == map[] <==> findings == []
  {
    if findings != [] {
      var last := findings[|findings| - 1];
      assert last.field in Group(findings);
    }
  }

  lemma {:induction false} RaiseAppend<F, M>(g: F, a: seq<M>, b: seq<M>)
    ensures Raise(g, a + b) == Raise(g, a) + Raise(g, b)
    decreases |b|
  {
    if b == [] {
      assert a + b == a;
    } else {
      var init, last := b[..|b| - 1], b[|b| - 1];
      RaiseAppend(g, a, init);
      assert (a + b)[..|a + b| - 1] == a + init;
      assert Raise(g, b) == Raise(g, init) + [Finding(g, last)];
    }
  }

  /** Filing one more message under a field appends it to the dictionary built so far. */
  lemma GroupRaiseSnoc<F, M>(x: seq<Finding<F, M>>, g: F, a: seq<M>, m: M)
    ensures Group(x + Raise(g, a + [m])) == Append(Group(x + Raise(g, a)), Finding(g, m))
  {
    assert (a + [m])[..|a + [m]| - 1] == a;
    assert Raise(g, a + [m]) == Raise(g, a) + [Finding(g, m)];
    var y := x + Raise(g, a + [m]);
    assert y == (x + Raise(g, a)) + [Finding(g, m)];
    assert y[..|y| - 1] == x + Raise(g, a);
  }

  /** The same, for a non-empty run of messages split at its last one. */
  lemma GroupRaiseLast<F, M>(x: seq<Finding<F, M>>, g: F, m: seq<M>)
    requires m != []
    ensures Group(x + Raise(g, m)) == Append(Group(x + Raise(g, m[..|m| - 1])), Finding(g, m[|m| - 1]))
  {
    var init := Raise(g, m[..|m| - 1]);
    assert Raise(g, m) == init + [Finding(g, m[|m| - 1])];
    var y := x + Raise(g, m);
    assert y == (x + init) + [Finding(g, m[|m| - 1])];
    assert y[..|y| - 1] == x + init;
  }

  lemma AppendInitLast<T>(a: seq<T>, m: seq<T>)
    requires m != []
    ensures a + m == (a + m[..|m| - 1]) + [m[|m| - 1]]
  {
    assert m == m[..|m| - 1] + [m[|m| - 1]];
  }

  /** Appending a finding extends its own field's entry by its message and leaves the others alone. */
  lemma AppendLookup<F, M>(errors: Errors<F, M>, f: Finding<F, M>, field: F)
    ensures Lookup(Append(errors, f), field) == Lookup(errors, field) + (if f.field == field then [f.message] else [])
  {
  }

  /** Filing a check's messages appends them to its own field's entry ... */
  lemma {:induction false} GroupRaiseSame<F, M>(x: seq<Finding<F, M>>, g: F, m: seq<M>)
    ensures Lookup(Group(x + Raise(g, m)), g) == Lookup(Group(x), g) + m
    decreases |m|
  {
    if m == [] {
      assert x + Raise(g, m) == x;
    } else {
      var init, last := m[..|m| - 1], m[|m| - 1];
      var before := Group(x + Raise(g, init));
      GroupRaiseSame(x, g, init);
      GroupRaiseLast(x, g, m);
      AppendLookup(before, Finding(g, last), g);
      AppendInitLast(Lookup(Group(x), g), m);
    }
  }

  /** ... and to no other. */
  lemma {:induction false} GroupRaiseOther<F, M>(x: seq<Finding<F, M>>, g: F, m: seq<M>, field: F)
    requires g != field
    ensures Lookup(Group(x + Raise(g, m)), field) == Lookup(Group(x), field)
    decreases |m|
  {
    if m == [] {
      assert x + Raise(g, m) == x;
    } else {
      var init, last := m[..|m| - 1], m[|m| - 1];
      GroupRaiseOther(x, g, init, field);
      GroupRaiseLast(x, g, m);
      AppendLookup(Group(x + Raise(g, init)), Finding(g, last), field);
    }
  }
}
