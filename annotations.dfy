/**
 * `annotation_to_string`: a Griffe type-annotation expression (a JSON tree of
 * `ExprName`, `ExprBinOp`, `ExprSubscript`, `ExprTuple`, `ExprList` nodes)
 * printed back as source text.
 */
module Annotations {
  import opened Text
  import opened Json

  /**
   * The values Python obtains for `annotation_to_string(e) for e in elements`,
   * collected by `", ".join(...)`: it raises if any call raised or any result
   * is not a string.
   */
  function AllStrings(rs: seq<Result<Json>>): (r: Result<seq<string>>)
    ensures r.Ok? <==> forall i :: 0 <= i < |rs| ==> rs[i].Ok? && rs[i].value.JStr?
    ensures r.Ok? ==> |r.value| == |rs| && forall i :: 0 <= i < |rs| ==> rs[i] == Ok(JStr(r.value[i]))
  {
    if rs == [] then Ok([])
    else
      var head :- rs[0];
      if !head.JStr? then Raised
      else
        var tail :- AllStrings(rs[1..]);
        Ok([head.s] + tail)
  }

  /** What iterating over `a.get(k, [])` yields is smaller than `a`. */
  lemma IteratedSmaller(a: Json, k: string, i: nat)
    requires a.JObj?
    requires Iterate(Get(a, k, JArr([]))).Ok?
    requires i < |Iterate(Get(a, k, JArr([]))).value|
    ensures Size(Iterate(Get(a, k, JArr([]))).value[i]) < Size(a)
  {
    var e := Get(a, k, JArr([]));
    GetSmaller(a, k, JArr([]));
    if e.JArr? {
      ItemSmaller(e.items, i);
    }
  }

  /**
   * `annotation_to_string(annotation)`. None gives "", a string is returned
   * unchanged, any other non-dict gives its `str()`, and a dict is an
   * expression node.
   */
  function AnnotationToString(a: Json): Result<Json>
    decreases Size(a), 2
  {
    match a
    case JNull => Ok(JStr(""))
    case JStr(_) => Ok(a)
    case JObj(_) => ExprToString(a)
    case _ => Ok(JStr(Str(a)))
  }

  /**
   * An expression node, dispatched on its `cls`. An unrecognised class falls
   * back to `canonical`, then `name`, then "". `ExprName`, `canonical` and
   * `name` values are returned as they are, whatever their JSON type.
   */
  function ExprToString(a: Json): Result<Json>
    requires a.JObj?
    decreases Size(a), 1
  {
    var cls := Get(a, "cls", JStr(""));
    if cls == JStr("ExprName") then
      Ok(Get(a, "name", JStr("")))
    else if cls == JStr("ExprBinOp") then
      GetSmaller(a, "left", JNull);
      GetSmaller(a, "right", JNull);
      var left :- AnnotationToString(Get(a, "left", JNull));
      var right :- AnnotationToString(Get(a, "right", JNull));
      var op := Get(a, "operator", JStr("|"));
      Ok(JStr(Str(left) + " " + Str(op) + " " + Str(right)))
    else if cls == JStr("ExprSubscript") then
      GetSmaller(a, "left", JNull);
      GetSmaller(a, "slice", JNull);
      var left :- AnnotationToString(Get(a, "left", JNull));
      var slice :- AnnotationToString(Get(a, "slice", JNull));
      Ok(JStr(Str(left) + "[" + Str(slice) + "]"))
    else if cls == JStr("ExprTuple") then
      ElementsToString(a, "(", ")")
    else if cls == JStr("ExprList") then
      ElementsToString(a, "[", "]")
    else if HasKey(a, "canonical") then
      Ok(Get(a, "canonical", JNull))
    else if HasKey(a, "name") then
      Ok(Get(a, "name", JNull))
    else
      Ok(JStr(""))
  }

  /**
   * `open + ", ".join(annotation_to_string(e) for e in elements) + close`, with
   * `elements` defaulting to [].
   */
  function ElementsToString(a: Json, open: string, close: string): Result<Json>
    requires a.JObj?
    decreases Size(a), 0
  {
    var elements :- Iterate(Get(a, "elements", JArr([])));
    var rendered := seq(|elements|, i requires 0 <= i < |elements| =>
                          IteratedSmaller(a, "elements", i);
                          AnnotationToString(elements[i]));
    var items :- AllStrings(rendered);
    Ok(JStr(open + Join(", ", items) + close))
  }

  /** None renders as "", a string as itself, any other scalar or list as its `str()`; none of them raises. */
  lemma NonDictAnnotation(a: Json)
    requires !a.JObj?
    ensures AnnotationToString(a) == Ok(if a.JNull? then JStr("") else if a.JStr? then a else JStr(Str(a)))
  {
  }

  /** An `ExprName` renders as its `name`, or "" without one. */
  lemma NameAnnotation(a: Json)
    requires a.JObj? && Get(a, "cls", JStr("")) == JStr("ExprName")
    ensures AnnotationToString(a) == Ok(if HasKey(a, "name") then Get(a, "name", JNull) else JStr(""))
  {
  }

  /** The class names `annotation_to_string` dispatches on. */
  predicate KnownClass(cls: Json) {
    cls in {JStr("ExprName"), JStr("ExprBinOp"), JStr("ExprSubscript"), JStr("ExprTuple"), JStr("ExprList")}
  }

  /** Any other class falls back to `canonical`, then `name`, then "", and never raises. */
  lemma FallbackAnnotation(a: Json)
    requires a.JObj? && !KnownClass(Get(a, "cls", JStr("")))
    ensures AnnotationToString(a) == Ok(if HasKey(a, "canonical") then Get(a, "canonical", JNull)
                                        else if HasKey(a, "name") then Get(a, "name", JNull)
                                        else JStr(""))
  {
  }

  /**
   * A binary operation renders as "left op right", the operator defaulting to
   * "|"; it raises exactly when one of its operands does.
   */
  lemma BinOpAnnotation(a: Json)
    requires a.JObj? && Get(a, "cls", JStr("")) == JStr("ExprBinOp")
    ensures var left := AnnotationToString(Get(a, "left", JNull));
            var right := AnnotationToString(Get(a, "right", JNull));
            && (AnnotationToString(a).Ok? <==> left.Ok? && right.Ok?)
            && (left.Ok? && right.Ok? ==>
                  AnnotationToString(a) == Ok(JStr(Str(left.value) + " " +
                                                   (if HasKey(a, "operator") then Str(Get(a, "operator", JNull)) else "|") +
                                                   " " + Str(right.value))))
  {
  }

  /** A subscript renders as "left[slice]"; it raises exactly when one of its parts does. */
  lemma SubscriptAnnotation(a: Json)
    requires a.JObj? && Get(a, "cls", JStr("")) == JStr("ExprSubscript")
    ensures var left := AnnotationToString(Get(a, "left", JNull));
            var slice := AnnotationToString(Get(a, "slice", JNull));
            && (AnnotationToString(a).Ok? <==> left.Ok? && slice.Ok?)
            && (left.Ok? && slice.Ok? ==>
                  AnnotationToString(a) == Ok(JStr(Str(left.value) + "[" + Str(slice.value) + "]")))
  {
  }

  /** A tuple or list without elements renders as "()" or "[]". */
  lemma EmptyTupleOrList(a: Json)
    requires a.JObj?
    requires Get(a, "cls", JStr("")) in {JStr("ExprTuple"), JStr("ExprList")}
    requires !HasKey(a, "elements") || Get(a, "elements", JNull) in {JArr([]), JObj([]), JStr("")}
    ensures AnnotationToString(a) == Ok(JStr(if Get(a, "cls", JStr("")) == JStr("ExprTuple") then "()" else "[]"))
  {
    var e := Get(a, "elements", JArr([]));
    assert e in {JArr([]), JObj([]), JStr("")};
    var elements := Iterate(e);
    assert elements == Ok([]);
    SequenceAnnotation(a);
    assert "(" + Join(", ", []) + ")" == "()";
    assert "[" + Join(", ", []) + "]" == "[]";
  }

  /**
   * A tuple or list renders as its elements, each printed, joined by ", " and
   * enclosed in "()" or "[]". It raises when `elements` cannot be iterated,
   * when an element raises and when an element prints as a non-string.
   */
  lemma SequenceAnnotation(a: Json)
    requires a.JObj?
    requires Get(a, "cls", JStr("")) in {JStr("ExprTuple"), JStr("ExprList")}
    ensures var elements := Iterate(Get(a, "elements", JArr([])));
            var r := AnnotationToString(a);
            && (r.Ok? <==> elements.Ok? && forall i :: 0 <= i < |elements.value| ==>
                             AnnotationToString(elements.value[i]).Ok? && AnnotationToString(elements.value[i]).value.JStr?)
            && (r.Ok? ==>
                  var items := seq(|elements.value|, i requires 0 <= i < |elements.value| =>
                                     AnnotationToString(elements.value[i]).value.s);
                  var joined := Join(", ", items);
                  r.value == JStr(if Get(a, "cls", JStr("")) == JStr("ExprTuple") then "(" + joined + ")" else "[" + joined + "]"))
  {
    var tuple := Get(a, "cls", JStr("")) == JStr("ExprTuple");
    assert AnnotationToString(a) == ElementsToString(a, if tuple then "(" else "[", if tuple then ")" else "]");
    var elements := Iterate(Get(a, "elements", JArr([])));
    if elements.Ok? {
      var es := elements.value;
      var rendered := seq(|es|, i requires 0 <= i < |es| => AnnotationToString(es[i]));
      var all := AllStrings(rendered);
      if all.Ok? {
        forall i | 0 <= i < |es| ensures AnnotationToString(es[i]) == Ok(JStr(all.value[i])) {
          assert rendered[i] == AnnotationToString(es[i]);
        }
        assert all.value == seq(|es|, i requires 0 <= i < |es| => AnnotationToString(es[i]).value.s);
      }
    }
  }

  /**
   * Griffe's expression trees, as a typed reference: names, binary operations,
   * subscripts, tuples, lists, and any other class. For that last case the
   * model assumes Griffe's JSON carries a `canonical` string; nothing in the
   * transformer guarantees it.
   */
  datatype Expr =
    | Name(name: string)
    | BinOp(left: Expr, op: string, right: Expr)
    | Subscript(base: Expr, slice: Expr)
    | Tuple(elements: seq<Expr>)
    | List(elements: seq<Expr>)
    | Other(cls: string, canonical: string)

  /** Other classes are not among the five `annotation_to_string` dispatches on. */
  predicate WellFormed(e: Expr) {
    match e
    case Name(_) => true
    case BinOp(l, _, r) => WellFormed(l) && WellFormed(r)
    case Subscript(b, s) => WellFormed(b) && WellFormed(s)
    case Tuple(es) => forall i :: 0 <= i < |es| ==> WellFormed(es[i])
    case List(es) => forall i :: 0 <= i < |es| ==> WellFormed(es[i])
    case Other(cls, _) => !KnownClass(JStr(cls))
  }

  /** The JSON Griffe emits for an expression. */
  function Encode(e: Expr): Json {
    match e
    case Name(n) => JObj([("cls", JStr("ExprName")), ("name", JStr(n))])
    case BinOp(l, op, r) =>
      JObj([("cls", JStr("ExprBinOp")), ("left", Encode(l)), ("operator", JStr(op)), ("right", Encode(r))])
    case Subscript(b, s) => JObj([("cls", JStr("ExprSubscript")), ("left", Encode(b)), ("slice", Encode(s))])
    case Tuple(es) =>
      JObj([("cls", JStr("ExprTuple")), ("elements", JArr(seq(|es|, i requires 0 <= i < |es| => Encode(es[i]))))])
    case List(es) =>
      JObj([("cls", JStr("ExprList")), ("elements", JArr(seq(|es|, i requires 0 <= i < |es| => Encode(es[i]))))])
    case Other(cls, canonical) => JObj([("cls", JStr(cls)), ("canonical", JStr(canonical))])
  }

  /**
   * The text the conversion prints for an expression: its Python source text,
   * except that a tuple keeps its parentheses even where the source leaves
   * them out, as in the slice of `dict[str, int]`.
   */
  function Render(e: Expr): string {
    match e
    case Name(n) => n
    case BinOp(l, op, r) => Render(l) + " " + op + " " + Render(r)
    case Subscript(b, s) => Render(b) + "[" + Render(s) + "]"
    case Tuple(es) => "(" + Join(", ", seq(|es|, i requires 0 <= i < |es| => Render(es[i]))) + ")"
    case List(es) => "[" + Join(", ", seq(|es|, i requires 0 <= i < |es| => Render(es[i]))) + "]"
    case Other(_, canonical) => canonical
  }

  /**
   * Printing the JSON of any well-formed expression gives the text `Render`
   * defines, and never raises.
   */
  lemma {:induction false} RendersSource(e: Expr)
    requires WellFormed(e)
    ensures AnnotationToString(Encode(e)) == Ok(JStr(Render(e)))
  {
    match e
    case Name(n) =>
      RendersName(n);
    case BinOp(l, op, r) =>
      RendersSource(l);
      RendersSource(r);
      RendersBinOp(l, op, r);
    case Subscript(b, sl) =>
      RendersSource(b);
      RendersSource(sl);
      RendersSubscript(b, sl);
    case Tuple(es) =>
      forall i | 0 <= i < |es| ensures AnnotationToString(Encode(es[i])) == Ok(JStr(Render(es[i]))) {
        RendersSource(es[i]);
      }
      RendersSequence(e, es);
    case List(es) =>
      forall i | 0 <= i < |es| ensures AnnotationToString(Encode(es[i])) == Ok(JStr(Render(es[i]))) {
        RendersSource(es[i]);
      }
      RendersSequence(e, es);
    case Other(cls, canonical) =>
      RendersOther(cls, canonical);
  }

  /**
   * `dict[str, int]`, whose slice Griffe stores as a tuple, prints with the
   * tuple's parentheses.
   */
  lemma TupleSlice()
    ensures AnnotationToString(Encode(Subscript(Name("dict"), Tuple([Name("str"), Name("int")]))))
            == Ok(JStr("dict[(str, int)]"))
  {
    var e := Subscript(Name("dict"), Tuple([Name("str"), Name("int")]));
    TupleSliceText(e);
    RendersSource(e);
  }

  /** The text `Render` gives for `dict[str, int]`. */
  lemma TupleSliceText(e: Expr)
    requires e == Subscript(Name("dict"), Tuple([Name("str"), Name("int")]))
    ensures WellFormed(e) && Render(e) == "dict[(str, int)]"
  {
    var es := [Name("str"), Name("int")];
    var items := seq(|es|, i requires 0 <= i < |es| => Render(es[i]));
    assert items == ["str", "int"];
    assert Join(", ", items) == "str, int" by {
      assert items[1..] == ["int"];
    }
    assert Render(Tuple(es)) == "(str, int)";
  }

  /** The name case of `RendersSource`. */
  lemma RendersName(n: string)
    ensures AnnotationToString(Encode(Name(n))) == Ok(JStr(n))
  {
    var a := Encode(Name(n));
    GetField(a, 0, JStr(""));
    GetField(a, 1, JStr(""));
    NameAnnotation(a);
  }

  /** The binary-operation case of `RendersSource`. */
  lemma RendersBinOp(l: Expr, op: string, r: Expr)
    requires AnnotationToString(Encode(l)) == Ok(JStr(Render(l)))
    requires AnnotationToString(Encode(r)) == Ok(JStr(Render(r)))
    ensures AnnotationToString(Encode(BinOp(l, op, r))) == Ok(JStr(Render(BinOp(l, op, r))))
  {
    var a := Encode(BinOp(l, op, r));
    BinOpFields(Encode(l), op, Encode(r));
    BinOpParts(a, JStr(Render(l)), JStr(op), JStr(Render(r)));
  }

  /** What `dict.get` finds in the JSON of a binary operation. */
  lemma BinOpFields(left: Json, op: string, right: Json)
    ensures var a := JObj([("cls", JStr("ExprBinOp")), ("left", left), ("operator", JStr(op)), ("right", right)]);
            && Get(a, "cls", JStr("")) == JStr("ExprBinOp")
            && Get(a, "left", JNull) == left
            && Get(a, "operator", JStr("|")) == JStr(op)
            && Get(a, "right", JNull) == right
  {
    var a := JObj([("cls", JStr("ExprBinOp")), ("left", left), ("operator", JStr(op)), ("right", right)]);
    GetField(a, 0, JStr(""));
    GetField(a, 1, JNull);
    GetField(a, 2, JStr("|"));
    GetField(a, 3, JNull);
  }

  /** `BinOpAnnotation` for operands already printed. */
  lemma BinOpParts(a: Json, left: Json, op: Json, right: Json)
    requires a.JObj? && Get(a, "cls", JStr("")) == JStr("ExprBinOp")
    requires AnnotationToString(Get(a, "left", JNull)) == Ok(left)
    requires AnnotationToString(Get(a, "right", JNull)) == Ok(right)
    requires Get(a, "operator", JStr("|")) == op
    ensures AnnotationToString(a) == Ok(JStr(Str(left) + " " + Str(op) + " " + Str(right)))
  {
  }

  /** The subscript case of `RendersSource`. */
  lemma RendersSubscript(b: Expr, sl: Expr)
    requires AnnotationToString(Encode(b)) == Ok(JStr(Render(b)))
    requires AnnotationToString(Encode(sl)) == Ok(JStr(Render(sl)))
    ensures AnnotationToString(Encode(Subscript(b, sl))) == Ok(JStr(Render(Subscript(b, sl))))
  {
    var a := Encode(Subscript(b, sl));
    SubscriptFields(Encode(b), Encode(sl));
    SubscriptParts(a, JStr(Render(b)), JStr(Render(sl)));
  }

  /** What `dict.get` finds in the JSON of a subscript. */
  lemma SubscriptFields(left: Json, slice: Json)
    ensures var a := JObj([("cls", JStr("ExprSubscript")), ("left", left), ("slice", slice)]);
            && Get(a, "cls", JStr("")) == JStr("ExprSubscript")
            && Get(a, "left", JNull) == left
            && Get(a, "slice", JNull) == slice
  {
    var a := JObj([("cls", JStr("ExprSubscript")), ("left", left), ("slice", slice)]);
    GetField(a, 0, JStr(""));
    GetField(a, 1, JNull);
    GetField(a, 2, JNull);
  }

  /** `SubscriptAnnotation` for parts already printed. */
  lemma SubscriptParts(a: Json, left: Json, slice: Json)
    requires a.JObj? && Get(a, "cls", JStr("")) == JStr("ExprSubscript")
    requires AnnotationToString(Get(a, "left", JNull)) == Ok(left)
    requires AnnotationToString(Get(a, "slice", JNull)) == Ok(slice)
    ensures AnnotationToString(a) == Ok(JStr(Str(left) + "[" + Str(slice) + "]"))
  {
    SubscriptAnnotation(a);
  }

  /** The fallback case of `RendersSource`. */
  lemma RendersOther(cls: string, canonical: string)
    requires !KnownClass(JStr(cls))
    ensures AnnotationToString(Encode(Other(cls, canonical))) == Ok(JStr(canonical))
  {
    var a := Encode(Other(cls, canonical));
    GetField(a, 0, JStr(""));
    GetField(a, 1, JNull);
    FallbackAnnotation(a);
  }

  /** The tuple and list cases of `RendersSource`. */
  lemma {:induction false} RendersSequence(e: Expr, es: seq<Expr>)
    requires e == Tuple(es) || e == List(es)
    requires forall i :: 0 <= i < |es| ==> AnnotationToString(Encode(es[i])) == Ok(JStr(Render(es[i])))
    ensures AnnotationToString(Encode(e)) == Ok(JStr(Render(e)))
  {
    var a := Encode(e);
    var encoded := seq(|es|, i requires 0 <= i < |es| => Encode(es[i]));
    GetField(a, 0, JStr(""));
    GetField(a, 1, JArr([]));
    assert Iterate(Get(a, "elements", JArr([]))) == Ok(encoded);
    SequenceAnnotation(a);
    var items := seq(|encoded|, i requires 0 <= i < |encoded| => AnnotationToString(encoded[i]).value.s);
    assert items == seq(|es|, i requires 0 <= i < |es| => Render(es[i]));
  }
}
