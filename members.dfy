/**
 * The `members` dict of a Griffe class or module, and the way the transformer
 * sorts it: each entry whose value is a dict of a given `kind` goes to one
 * output dict under the same name, in the order the entries come, and every
 * other entry is skipped.
 */
module Members {
  import opened Json

  /** `member` is a dict whose `kind` (default "") is `kind`. */
  predicate IsKind(member: Json, kind: string) {
    member.JObj? && Get(member, "kind", JStr("")) == JStr(kind)
  }

  /** The entries of a dict whose values are members of the given kind, in order. */
  function Select(fields: seq<(string, Json)>, kind: string): (r: seq<(string, Json)>)
    ensures |r| <= |fields|
  {
    if fields == [] then []
    else Select(fields[..|fields| - 1], kind) + (if IsKind(fields[|fields| - 1].1, kind) then [fields[|fields| - 1]] else [])
  }

  /** The selected entries are exactly the entries of the kind. */
  lemma {:induction false} SelectMembers(fields: seq<(string, Json)>, kind: string)
    ensures forall e :: e in Select(fields, kind) <==> e in fields && IsKind(e.1, kind)
  {
    if fields != [] {
      var last := fields[|fields| - 1];
      var init := fields[..|fields| - 1];
      assert fields == init + [last];
      SelectMembers(init, kind);
    }
  }

  /** Selecting from a longer prefix adds the next entry when it is of the kind. */
  lemma SelectStep(fields: seq<(string, Json)>, i: nat, kind: string)
    requires i < |fields|
    ensures Select(fields[..i + 1], kind)
            == Select(fields[..i], kind) + (if IsKind(fields[i].1, kind) then [fields[i]] else [])
  {
    assert fields[..i + 1][..i] == fields[..i];
  }

  /** Selection keeps a dict's keys distinct. */
  lemma {:induction false} SelectUnique(fields: seq<(string, Json)>, kind: string)
    requires UniqueKeys(fields)
    ensures UniqueKeys(Select(fields, kind))
  {
    if fields != [] {
      var last := fields[|fields| - 1];
      var init := fields[..|fields| - 1];
      assert UniqueKeys(init);
      SelectUnique(init, kind);
      SelectMembers(init, kind);
      var s := Select(init, kind);
      forall i | 0 <= i < |s| ensures s[i].0 != last.0 {
        assert s[i] in init;
      }
    }
  }

  /**
   * In a dict, a key is selected for `kind` exactly when its value is a member
   * of that kind; so no key is selected for two different kinds.
   */
  lemma SelectedKey(fields: seq<(string, Json)>, i: nat, kind: string)
    requires UniqueKeys(fields) && i < |fields|
    ensures fields[i].0 in Keys(Select(fields, kind)) <==> IsKind(fields[i].1, kind)
  {
    var s := Select(fields, kind);
    SelectMembers(fields, kind);
    if IsKind(fields[i].1, kind) {
      assert fields[i] in s;
      var j :| 0 <= j < |s| && s[j] == fields[i];
      assert Keys(s)[j] == fields[i].0;
    }
  }

  /**
   * `f` applied to every element in order, stopping at the first one that
   * raises, as a Python loop or comprehension does.
   */
  function MapAll<X, T>(xs: seq<X>, f: X -> Result<T>): Result<seq<T>> {
    if xs == [] then Ok([])
    else
      var rest :- MapAll(xs[..|xs| - 1], f);
      var y :- f(xs[|xs| - 1]);
      Ok(rest + [y])
  }

  /**
   * Mapping succeeds exactly when `f` succeeds on every element, and then
   * yields, position by position, what `f` yields.
   */
  lemma {:induction false} MapAllOk<X, T>(xs: seq<X>, f: X -> Result<T>)
    ensures MapAll(xs, f).Ok? <==> forall i :: 0 <= i < |xs| ==> f(xs[i]).Ok?
    ensures MapAll(xs, f).Ok? ==>
              |MapAll(xs, f).value| == |xs| && forall i :: 0 <= i < |xs| ==> f(xs[i]) == Ok(MapAll(xs, f).value[i])
  {
    if xs != [] {
      var init := xs[..|xs| - 1];
      MapAllOk(init, f);
      assert forall i :: 0 <= i < |init| ==> xs[i] == init[i];
    }
  }

  /** Mapping over a longer prefix adds the image of the next element. */
  lemma MapAllStep<X, T>(xs: seq<X>, i: nat, f: X -> Result<T>, done: seq<T>)
    requires i < |xs| && MapAll(xs[..i], f) == Ok(done)
    ensures MapAll(xs[..i + 1], f) == (var y :- f(xs[i]); Ok(done + [y]))
  {
    assert xs[..i + 1][..i] == xs[..i];
  }

  /** Mapping over a sequence with one more element at the end. */
  lemma MapAllSnoc<X, T>(xs: seq<X>, x: X, f: X -> Result<T>, done: seq<T>)
    requires MapAll(xs, f) == Ok(done)
    ensures MapAll(xs + [x], f) == (var y :- f(x); Ok(done + [y]))
  {
    assert (xs + [x])[..|xs|] == xs;
  }

  /** Processing the selected members of a longer prefix adds the next entry's result when it is selected. */
  lemma MapSelectStep<R>(fields: seq<(string, Json)>, i: nat, kind: string,
                         f: ((string, Json)) -> Result<R>, done: seq<R>)
    requires i < |fields| && IsKind(fields[i].1, kind)
    requires MapAll(Select(fields[..i], kind), f) == Ok(done)
    ensures MapAll(Select(fields[..i + 1], kind), f) == (var y :- f(fields[i]); Ok(done + [y]))
  {
    SelectStep(fields, i, kind);
    MapAllSnoc(Select(fields[..i], kind), fields[i], f, done);
  }

  /** An entry that is not of the kind is skipped. */
  lemma SelectSkip(fields: seq<(string, Json)>, i: nat, kind: string)
    requires i < |fields|
    ensures !IsKind(fields[i].1, kind) ==> Select(fields[..i + 1], kind) == Select(fields[..i], kind)
  {
    SelectStep(fields, i, kind);
  }

  /** A selected member that raises makes the whole processing raise. */
  lemma SelectRaises<R>(fields: seq<(string, Json)>, i: nat, kind: string, f: ((string, Json)) -> Result<R>)
    requires i < |fields| && IsKind(fields[i].1, kind) && f(fields[i]).Raised?
    ensures MapAll(Select(fields, kind), f).Raised?
  {
    var s := Select(fields, kind);
    SelectMembers(fields, kind);
    assert fields[i] in s;
    var j :| 0 <= j < |s| && s[j] == fields[i];
    MapAllOk(s, f);
  }

  /**
   * The output dict built from the members of one kind, when each member is
   * stored under its own name: it has exactly the names of the members of that
   * kind, in order, each once, and a name of the input is in it exactly when
   * the member under that name is of that kind.
   */
  lemma {:induction false} SelectedEntries<R>(fields: seq<(string, Json)>, kind: string,
                                              f: ((string, Json)) -> Result<(string, R)>, out: seq<(string, R)>)
    requires UniqueKeys(fields)
    requires MapAll(Select(fields, kind), f) == Ok(out)
    requires forall e :: f(e).Ok? ==> f(e).value.0 == e.0
    ensures Keys(out) == Keys(Select(fields, kind))
    ensures UniqueKeys(out)
    ensures forall i :: 0 <= i < |fields| ==> (fields[i].0 in Keys(out) <==> IsKind(fields[i].1, kind))
    ensures forall i, j :: 0 <= i < |fields| && 0 <= j < |out| && out[j].0 == fields[i].0 ==> f(fields[i]) == Ok(out[j])
  {
    var s := Select(fields, kind);
    MapAllOk(s, f);
    SelectMembers(fields, kind);
    forall i, j | 0 <= i < |fields| && 0 <= j < |out| && out[j].0 == fields[i].0
      ensures f(fields[i]) == Ok(out[j])
    {
      assert f(s[j]) == Ok(out[j]);
      assert s[j] in fields;
      var k :| 0 <= k < |fields| && fields[k] == s[j];
    }
    assert Keys(out) == Keys(s) by {
      forall j | 0 <= j < |s| ensures Keys(out)[j] == Keys(s)[j] {
        assert f(s[j]) == Ok(out[j]);
      }
    }
    SelectUnique(fields, kind);
    assert UniqueKeys(out) by {
      forall j, k | 0 <= j < k < |out| ensures out[j].0 != out[k].0 {
        assert Keys(out)[j] == Keys(s)[j] && Keys(out)[k] == Keys(s)[k];
      }
    }
    forall i | 0 <= i < |fields| ensures fields[i].0 in Keys(out) <==> IsKind(fields[i].1, kind) {
      SelectedKey(fields, i, kind);
    }
  }

  /** No name is selected for two different kinds. */
  lemma SelectedDisjoint(fields: seq<(string, Json)>, kind1: string, kind2: string, k: string)
    requires UniqueKeys(fields) && kind1 != kind2
    requires k in Keys(Select(fields, kind1))
    ensures k !in Keys(Select(fields, kind2))
  {
    var s := Select(fields, kind1);
    SelectMembers(fields, kind1);
    var j :| 0 <= j < |s| && Keys(s)[j] == k;
    assert s[j] in fields;
    var i :| 0 <= i < |fields| && fields[i] == s[j];
    SelectedKey(fields, i, kind2);
  }
}
