/**
 * `process_class`: a Griffe class object reduced to its name, path, docstring,
 * base classes, methods and attributes.
 */
module Classes {
  import opened Json
  import opened Docstrings
  import opened Annotations
  import opened Members
  import opened Functions

  /** A processed attribute: its name, printed type `typ`, docstring and value. */
  datatype AttributeOut = AttributeOut(name: string, typ: Json, docstring: DocOut, value: Json)

  /** A processed class; its JSON also carries `"kind": "class"`. */
  datatype ClassOut = ClassOut(
    name: Json,
    path: Json,
    docstring: DocOut,
    bases: seq<Json>,
    methods: seq<(string, FunctionOut)>,
    attributes: seq<(string, AttributeOut)>)

  /**
   * The entry `attributes[name] = {...}`: the printed annotation, the processed
   * docstring and the raw value (None when absent).
   */
  function AttributeEntry(e: (string, Json)): (r: Result<(string, AttributeOut)>)
    ensures r.Ok? ==> r.value.0 == e.0 && r.value.1.name == e.0
  {
    var member := e.1;
    if !member.JObj? then Raised
    else
      var t :- AnnotationToString(Get(member, "annotation", JNull));
      var doc :- ProcessDocstring(Get(member, "docstring", JNull));
      Ok((e.0, AttributeOut(e.0, t, doc, Get(member, "value", JNull))))
  }

  /**
   * What one entry of `bases` contributes: a dict gives its `canonical`, or
   * else its `name`, or else ""; a string is kept; anything else is dropped.
   */
  function BaseOf(b: Json): (r: seq<Json>)
    ensures |r| <= 1
    ensures r == [] <==> !b.JObj? && !b.JStr?
    ensures b.JObj? ==> r == [if HasKey(b, "canonical") then Get(b, "canonical", JNull)
                              else if HasKey(b, "name") then Get(b, "name", JNull)
                              else JStr("")]
    ensures b.JStr? ==> r == [b]
  {
    if b.JObj? then [Get(b, "canonical", Get(b, "name", JStr("")))]
    else if b.JStr? then [b]
    else []
  }

  /** The `bases` list `process_class` builds, one `BaseOf` after another. */
  function Bases(bs: seq<Json>): (r: seq<Json>)
    ensures |r| <= |bs|
  {
    if bs == [] then []
    else Bases(bs[..|bs| - 1]) + BaseOf(bs[|bs| - 1])
  }

  lemma BasesStep(bs: seq<Json>, i: nat)
    requires i < |bs|
    ensures Bases(bs[..i + 1]) == Bases(bs[..i]) + BaseOf(bs[i])
  {
    assert bs[..i + 1][..|bs[..i + 1]| - 1] == bs[..i];
  }

  /**
   * `process_class(cls_data)` as one expression: the function value the
   * imperative `ProcessClass` is proved to compute. `members.items()` raises
   * unless `members` is a dict; iterating `bases` raises unless it is a list,
   * a dict or a string.
   */
  function ClassSpec(c: Json): Result<ClassOut> {
    if !c.JObj? then Raised
    else
      var members := Get(c, "members", JObj([]));
      if !members.JObj? then Raised
      else
        var methods :- MapAll(Select(members.fields, "function"), FunctionEntry);
        var attributes :- MapAll(Select(members.fields, "attribute"), AttributeEntry);
        var bs :- Iterate(Get(c, "bases", JArr([])));
        var doc :- ProcessDocstring(Get(c, "docstring", JNull));
        Ok(ClassOut(Get(c, "name", JStr("")), Get(c, "path", JStr("")), doc, Bases(bs), methods, attributes))
  }

  /**
   * `process_class(cls_data)`: one pass over the members sorts functions into
   * `methods` and attributes into `attributes`, a second pass collects `bases`.
   */
  method ProcessClass(c: Json) returns (r: Result<ClassOut>)
    ensures r == ClassSpec(c)
  {
    if !c.JObj? {
      return Raised;
    }
    var members := Get(c, "members", JObj([]));
    if !members.JObj? {
      return Raised;
    }
    var sorted, methods, attributes := SortMembers(members.fields);
    if sorted.Raised? {
      return Raised;
    }
    var iterated := Iterate(Get(c, "bases", JArr([])));
    if iterated.Raised? {
      return Raised;
    }
    var bs := iterated.value;
    var bases: seq<Json> := [];
    var i := 0;
    while i < |bs|
      invariant i <= |bs|
      invariant bases == Bases(bs[..i])
    {
      BasesStep(bs, i);
      var base := bs[i];
      if base.JObj? {
        bases := bases + [Get(base, "canonical", Get(base, "name", JStr("")))];
      } else if base.JStr? {
        bases := bases + [base];
      }
      i := i + 1;
    }
    assert bs[..i] == bs;
    var doc :- ProcessDocstring(Get(c, "docstring", JNull));
    r := Ok(ClassOut(Get(c, "name", JStr("")), Get(c, "path", JStr("")), doc, bases, methods, attributes));
  }

  /** The members loop of `process_class`. */
  method SortMembers(fields: seq<(string, Json)>)
    returns (sorted: Result<()>, methods: seq<(string, FunctionOut)>, attributes: seq<(string, AttributeOut)>)
    ensures var ms := MapAll(Select(fields, "function"), FunctionEntry);
            var attrs := MapAll(Select(fields, "attribute"), AttributeEntry);
            sorted.Ok? <==> ms.Ok? && attrs.Ok?
    ensures sorted.Ok? ==> MapAll(Select(fields, "function"), FunctionEntry) == Ok(methods)
    ensures sorted.Ok? ==> MapAll(Select(fields, "attribute"), AttributeEntry) == Ok(attributes)
  {
    methods, attributes := [], [];
    var i := 0;
    while i < |fields|
      invariant i <= |fields|
      invariant MapAll(Select(fields[..i], "function"), FunctionEntry) == Ok(methods)
      invariant MapAll(Select(fields[..i], "attribute"), AttributeEntry) == Ok(attributes)
    {
      SelectSkip(fields, i, "function");
      SelectSkip(fields, i, "attribute");
      if IsKind(fields[i].1, "function") {
        var added := AddFunction(fields, i, methods);
        if added.Raised? {
          return Raised, methods, attributes;
        }
        methods := added.value;
      } else if IsKind(fields[i].1, "attribute") {
        var added := AddAttribute(fields, i, attributes);
        if added.Raised? {
          return Raised, methods, attributes;
        }
        attributes := added.value;
      }
      i := i + 1;
    }
    assert fields[..i] == fields;
    return Ok(()), methods, attributes;
  }

  /** `attributes[name] = {...}` for the `i`-th member, an attribute. */
  method AddAttribute(fields: seq<(string, Json)>, i: nat, attributes: seq<(string, AttributeOut)>)
    returns (r: Result<seq<(string, AttributeOut)>>)
    requires i < |fields| && IsKind(fields[i].1, "attribute")
    requires MapAll(Select(fields[..i], "attribute"), AttributeEntry) == Ok(attributes)
    ensures r == MapAll(Select(fields[..i + 1], "attribute"), AttributeEntry)
    ensures r.Raised? ==> MapAll(Select(fields, "attribute"), AttributeEntry).Raised?
  {
    MapSelectStep(fields, i, "attribute", AttributeEntry, attributes);
    var (name, member) := fields[i];
    var t := AnnotationToString(Get(member, "annotation", JNull));
    var doc := ProcessDocstring(Get(member, "docstring", JNull));
    if t.Raised? || doc.Raised? {
      SelectRaises(fields, i, "attribute", AttributeEntry);
      return Raised;
    }
    AttributeEntryOk(fields[i], t.value, doc.value);
    return Ok(attributes + [(name, AttributeOut(name, t.value, doc.value, Get(member, "value", JNull)))]);
  }

  lemma AttributeEntryOk(e: (string, Json), t: Json, doc: DocOut)
    requires e.1.JObj?
    requires AnnotationToString(Get(e.1, "annotation", JNull)) == Ok(t)
    requires ProcessDocstring(Get(e.1, "docstring", JNull)) == Ok(doc)
    ensures AttributeEntry(e) == Ok((e.0, AttributeOut(e.0, t, doc, Get(e.1, "value", JNull))))
  {
  }

  /** The dict `process_class` returns. */
  function ClassToJson(c: ClassOut): (r: Json)
    ensures r.JObj?
    ensures Keys(r.fields) == ["name", "kind", "path", "docstring", "bases", "methods", "attributes"]
  {
    JObj([("name", c.name), ("kind", JStr("class")), ("path", c.path), ("docstring", DocToJson(c.docstring)),
          ("bases", JArr(c.bases)),
          ("methods", JObj(seq(|c.methods|, i requires 0 <= i < |c.methods| =>
                                 (c.methods[i].0, FunctionToJson(c.methods[i].1))))),
          ("attributes", JObj(seq(|c.attributes|, i requires 0 <= i < |c.attributes| =>
                                    (c.attributes[i].0, AttributeToJson(c.attributes[i].1)))))])
  }

  /** The class dict is marked `"kind": "class"`. */
  lemma ClassJsonKind(c: ClassOut)
    ensures Get(ClassToJson(c), "kind", JNull) == JStr("class")
  {
    GetField(ClassToJson(c), 1, JNull);
  }

  /** The dict stored for an attribute. */
  function AttributeToJson(a: AttributeOut): (r: Json)
    ensures r.JObj? && Keys(r.fields) == ["name", "type", "docstring", "value"]
  {
    JObj([("name", JStr(a.name)), ("type", a.typ), ("docstring", DocToJson(a.docstring)), ("value", a.value)])
  }

  /** Bases are collected in order: the bases of a concatenation are the concatenation of the bases. */
  lemma {:induction false} BasesAppend(a: seq<Json>, b: seq<Json>)
    ensures Bases(a + b) == Bases(a) + Bases(b)
  {
    if b == [] {
      assert a + b == a;
    } else {
      var init := b[..|b| - 1];
      assert a + b == (a + init) + [b[|b| - 1]];
      assert (a + b)[..|a + b| - 1] == a + init;
      BasesAppend(a, init);
    }
  }

  /** No base is dropped exactly when every base is a dict or a string. */
  lemma {:induction false} BasesKeepAll(bs: seq<Json>)
    ensures |Bases(bs)| == |bs| <==> forall i :: 0 <= i < |bs| ==> bs[i].JObj? || bs[i].JStr?
  {
    if bs != [] {
      var init, last := bs[..|bs| - 1], bs[|bs| - 1];
      BasesKeepAll(init);
      assert |Bases(bs)| == |Bases(init)| + |BaseOf(last)|;
      assert forall i :: 0 <= i < |init| ==> init[i] == bs[i];
    }
  }

  /** Bases given as strings are kept as they are, in order. */
  lemma {:induction false} StringBases(bs: seq<Json>)
    requires forall i :: 0 <= i < |bs| ==> bs[i].JStr?
    ensures Bases(bs) == bs
  {
    if bs != [] {
      StringBases(bs[..|bs| - 1]);
    }
  }

  /**
   * The methods of a class are its members of kind "function" and its
   * attributes those of kind "attribute", each under its own name, in order,
   * processed; every other member is left out, and no name is in both.
   */
  lemma ClassMembers(c: Json)
    requires ClassSpec(c).Ok?
    requires c.JObj? && Get(c, "members", JObj([])).JObj? && UniqueKeys(Get(c, "members", JObj([])).fields)
    ensures var fields := Get(c, "members", JObj([])).fields;
            var co := ClassSpec(c).value;
            && Keys(co.methods) == Keys(Select(fields, "function"))
            && Keys(co.attributes) == Keys(Select(fields, "attribute"))
            && UniqueKeys(co.methods) && UniqueKeys(co.attributes)
            && (forall i :: 0 <= i < |fields| ==> (fields[i].0 in Keys(co.methods) <==> IsKind(fields[i].1, "function")))
            && (forall i :: 0 <= i < |fields| ==> (fields[i].0 in Keys(co.attributes) <==> IsKind(fields[i].1, "attribute")))
            && (forall k :: k in Keys(co.methods) ==> k !in Keys(co.attributes))
            && (forall i, j :: 0 <= i < |fields| && 0 <= j < |co.methods| && co.methods[j].0 == fields[i].0 ==>
                  FunctionEntry(fields[i]) == Ok(co.methods[j]))
            && (forall i, j :: 0 <= i < |fields| && 0 <= j < |co.attributes| && co.attributes[j].0 == fields[i].0 ==>
                  AttributeEntry(fields[i]) == Ok(co.attributes[j]))
  {
    var fields := Get(c, "members", JObj([])).fields;
    var co := ClassSpec(c).value;
    ClassParts(c);
    SelectedEntries(fields, "function", FunctionEntry, co.methods);
    SelectedEntries(fields, "attribute", AttributeEntry, co.attributes);
    forall k | k in Keys(co.methods) ensures k !in Keys(co.attributes) {
      SelectedDisjoint(fields, "function", "attribute", k);
    }
  }

  /** What a successful `ClassSpec` is made of. */
  lemma ClassParts(c: Json)
    requires ClassSpec(c).Ok?
    ensures c.JObj? && Get(c, "members", JObj([])).JObj? && Iterate(Get(c, "bases", JArr([]))).Ok?
    ensures var fields := Get(c, "members", JObj([])).fields;
            var co := ClassSpec(c).value;
            && MapAll(Select(fields, "function"), FunctionEntry) == Ok(co.methods)
            && MapAll(Select(fields, "attribute"), AttributeEntry) == Ok(co.attributes)
            && co.bases == Bases(Iterate(Get(c, "bases", JArr([]))).value)
  {
  }
}
