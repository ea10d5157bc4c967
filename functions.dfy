/**
 * `process_parameter` and `process_function`: a Griffe function object reduced
 * to its name, a printed signature, its docstring, its parameters, its return
 * type and its decorators.
 */
module Functions {
  import opened Text
  import opened Json
  import opened Docstrings
  import opened Annotations
  import opened Members

  /** A processed parameter: `name`, printed type `typ`, `default` and `kind`. */
  datatype ParamOut = ParamOut(name: Json, typ: Json, default: Json, kind: Json)

  /** A processed function; its JSON also carries `"kind": "function"`. */
  datatype FunctionOut = FunctionOut(
    name: Json,
    signature: string,
    docstring: DocOut,
    parameters: seq<ParamOut>,
    returnType: Json,
    decorators: Json)

  /**
   * `process_parameter(param)`: the parameter's name (default ""), its printed
   * annotation, its default (None when absent) and its kind (default "").
   * It raises when `param` is not a dict or its annotation raises.
   */
  function ProcessParameter(p: Json): (r: Result<ParamOut>)
    ensures r.Ok? <==> p.JObj? && AnnotationToString(Get(p, "annotation", JNull)).Ok?
  {
    if !p.JObj? then Raised
    else
      var t :- AnnotationToString(Get(p, "annotation", JNull));
      Ok(ParamOut(Get(p, "name", JStr("")), t, Get(p, "default", JNull), Get(p, "kind", JStr(""))))
  }

  /** The dict `process_parameter` returns. */
  function ParamToJson(p: ParamOut): (r: Json)
    ensures r.JObj? && Keys(r.fields) == ["name", "type", "default", "kind"]
  {
    JObj([("name", p.name), ("type", p.typ), ("default", p.default), ("kind", p.kind)])
  }

  /**
   * The text the signature loop of `process_function` builds for a parameter
   * with the given name, printed annotation and default: the name, then
   * ": type" when the printed annotation is truthy, then " = default" when the
   * default is not None. A name that is not a string makes Python raise, at a
   * `+=` or else at the final `join`.
   */
  function PieceOf(name: Json, t: Json, default: Json): (r: Result<string>)
    ensures r.Ok? <==> name.JStr?
    ensures r.Ok? ==> r.value == name.s + (if Truthy(t) then ": " + Str(t) else "")
                                 + (if default != JNull then " = " + Str(default) else "")
  {
    if !name.JStr? then Raised
    else
      var typed := if Truthy(t) then name.s + ": " + Str(t) else name.s;
      Ok(if default != JNull then typed + " = " + Str(default) else typed)
  }

  /** The piece of one dict parameter, read from its `name`, `annotation` and `default`. */
  function Piece(p: Json): Result<string> {
    if !p.JObj? then Raised
    else
      var t :- AnnotationToString(Get(p, "annotation", JNull));
      PieceOf(Get(p, "name", JStr("")), t, Get(p, "default", JNull))
  }

  /** How a processed parameter reads in a signature. */
  function PieceText(p: ParamOut): string
    requires p.name.JStr?
  {
    PieceOf(p.name, p.typ, p.default).value
  }

  /** How a list of processed parameters reads, one text per parameter. */
  function PieceTexts(ps: seq<ParamOut>): (r: seq<string>)
    requires forall i :: 0 <= i < |ps| ==> ps[i].name.JStr?
  {
    seq(|ps|, i requires 0 <= i < |ps| => PieceText(ps[i]))
  }

  /** The signature a list of processed parameters reads as. */
  function SignatureText(ps: seq<ParamOut>): string
    requires forall i :: 0 <= i < |ps| ==> ps[i].name.JStr?
  {
    "(" + Join(", ", PieceTexts(ps)) + ")"
  }

  /** The dicts among the parameters, in order: everything else is skipped. */
  function Objects(ps: seq<Json>): (r: seq<Json>)
    ensures |r| <= |ps|
    ensures forall x :: x in r <==> x in ps && x.JObj?
  {
    if ps == [] then []
    else
      var last := ps[|ps| - 1];
      var init := ps[..|ps| - 1];
      assert ps == init + [last];
      Objects(init) + (if last.JObj? then [last] else [])
  }

  lemma ObjectsStep(ps: seq<Json>, i: nat)
    requires i < |ps|
    ensures Objects(ps[..i + 1]) == Objects(ps[..i]) + (if ps[i].JObj? then [ps[i]] else [])
  {
    assert ps[..i + 1][..i] == ps[..i];
  }

  /** Mapping over the dicts of a longer prefix adds the image of the next one, if it is a dict. */
  lemma MapObjectsStep<R>(ps: seq<Json>, i: nat, f: Json -> Result<R>, done: seq<R>)
    requires i < |ps| && MapAll(Objects(ps[..i]), f) == Ok(done)
    ensures MapAll(Objects(ps[..i + 1]), f)
            == if ps[i].JObj? then (var y :- f(ps[i]); Ok(done + [y])) else Ok(done)
  {
    ObjectsStep(ps, i);
    if ps[i].JObj? {
      MapAllSnoc(Objects(ps[..i]), ps[i], f, done);
    } else {
      assert Objects(ps[..i + 1]) == Objects(ps[..i]);
    }
  }

  /**
   * `process_function(func_data)` as one expression: the function value the
   * imperative `ProcessFunction` is proved to compute.
   */
  function FunctionSpec(f: Json): Result<FunctionOut> {
    if !f.JObj? then Raised
    else
      var ps :- Iterate(Get(f, "parameters", JArr([])));
      var pieces :- MapAll(Objects(ps), Piece);
      var returnType :- AnnotationToString(Get(f, "returns", JNull));
      var doc :- ProcessDocstring(Get(f, "docstring", JNull));
      var parameters :- MapAll(Objects(ps), ProcessParameter);
      Ok(FunctionOut(Get(f, "name", JStr("")), "(" + Join(", ", pieces) + ")", doc, parameters,
                     returnType, Get(f, "decorators", JArr([]))))
  }

  /**
   * `process_function(func_data)`: one pass over the parameters builds the
   * signature, a second one (the comprehension) processes each dict parameter.
   */
  method ProcessFunction(f: Json) returns (r: Result<FunctionOut>)
    ensures r == FunctionSpec(f)
  {
    if !f.JObj? {
      return Raised;
    }
    var params := Iterate(Get(f, "parameters", JArr([])));
    if params.Raised? {
      return Raised;
    }
    var pieces :- SignaturePieces(params.value);
    var signature := "(" + Join(", ", pieces) + ")";
    var returnType :- AnnotationToString(Get(f, "returns", JNull));
    var doc :- ProcessDocstring(Get(f, "docstring", JNull));
    var parameters :- ProcessParameters(params.value);
    r := Ok(FunctionOut(Get(f, "name", JStr("")), signature, doc, parameters,
                        returnType, Get(f, "decorators", JArr([]))));
  }

  /** The signature loop of `process_function`: one piece per dict parameter. */
  method SignaturePieces(ps: seq<Json>) returns (r: Result<seq<string>>)
    ensures r == MapAll(Objects(ps), Piece)
  {
    var pieces: seq<string> := [];
    var i := 0;
    while i < |ps|
      invariant i <= |ps|
      invariant MapAll(Objects(ps[..i]), Piece) == Ok(pieces)
    {
      MapObjectsStep(ps, i, Piece, pieces);
      var p := ps[i];
      if p.JObj? {
        var name := Get(p, "name", JStr(""));
        var t := AnnotationToString(Get(p, "annotation", JNull));
        if t.Raised? || !name.JStr? {
          PieceRaises(ps, i);
          return Raised;
        }
        var piece := name.s;
        if Truthy(t.value) {
          piece := piece + ": " + Str(t.value);
        }
        if Get(p, "default", JNull) != JNull {
          piece := piece + " = " + Str(Get(p, "default", JNull));
        }
        pieces := pieces + [piece];
      }
      i := i + 1;
    }
    assert ps[..i] == ps;
    return Ok(pieces);
  }

  /** `[process_parameter(p) for p in params if isinstance(p, dict)]`. */
  method ProcessParameters(ps: seq<Json>) returns (r: Result<seq<ParamOut>>)
    ensures r == MapAll(Objects(ps), ProcessParameter)
  {
    var parameters: seq<ParamOut> := [];
    var i := 0;
    while i < |ps|
      invariant i <= |ps|
      invariant MapAll(Objects(ps[..i]), ProcessParameter) == Ok(parameters)
    {
      MapObjectsStep(ps, i, ProcessParameter, parameters);
      if ps[i].JObj? {
        var param := ProcessParameter(ps[i]);
        if param.Raised? {
          ParameterRaises(ps, i);
          return Raised;
        }
        parameters := parameters + [param.value];
      }
      i := i + 1;
    }
    assert ps[..i] == ps;
    return Ok(parameters);
  }

  /** One dict parameter whose piece raises makes the whole signature raise. */
  lemma PieceRaises(ps: seq<Json>, i: nat)
    requires i < |ps| && ps[i].JObj?
    requires AnnotationToString(Get(ps[i], "annotation", JNull)).Raised? || !Get(ps[i], "name", JStr("")).JStr?
    ensures MapAll(Objects(ps), Piece).Raised?
  {
    var objs := Objects(ps);
    assert Piece(ps[i]).Raised?;
    assert ps[i] in objs;
    var j :| 0 <= j < |objs| && objs[j] == ps[i];
    MapAllOk(objs, Piece);
  }

  /** One dict parameter that raises makes the comprehension raise. */
  lemma ParameterRaises(ps: seq<Json>, i: nat)
    requires i < |ps| && ps[i].JObj? && ProcessParameter(ps[i]).Raised?
    ensures MapAll(Objects(ps), ProcessParameter).Raised?
  {
    var objs := Objects(ps);
    assert ps[i] in objs;
    var j :| 0 <= j < |objs| && objs[j] == ps[i];
    MapAllOk(objs, ProcessParameter);
  }

  /** The dict `process_function` returns. */
  function FunctionToJson(f: FunctionOut): (r: Json)
    ensures r.JObj?
    ensures Keys(r.fields) == ["name", "kind", "signature", "docstring", "parameters", "returns", "decorators"]
    ensures Get(r, "kind", JNull) == JStr("function")
  {
    var a := JObj([("name", f.name), ("kind", JStr("function")), ("signature", JStr(f.signature)),
                   ("docstring", DocToJson(f.docstring)),
                   ("parameters", JArr(seq(|f.parameters|, i requires 0 <= i < |f.parameters| =>
                                                ParamToJson(f.parameters[i])))),
                   ("returns", JObj([("type", f.returnType)])),
                   ("decorators", f.decorators)]);
    GetField(a, 1, JNull);
    a
  }

  /** The piece built for a dict parameter is its processed form, printed. */
  lemma PieceOfParameter(p: Json)
    requires Piece(p).Ok?
    ensures ProcessParameter(p).Ok? && ProcessParameter(p).value.name.JStr?
    ensures Piece(p).value == PieceText(ProcessParameter(p).value)
  {
  }

  /**
   * The signature lists exactly the parameters the function reports, in order,
   * each printed as name, ": type" when typed and " = default" when defaulted;
   * those parameters are the dict entries of `parameters`, in order.
   */
  lemma SignatureMatchesParameters(f: Json)
    requires FunctionSpec(f).Ok?
    ensures var fo := FunctionSpec(f).value;
            var objs := Objects(Iterate(Get(f, "parameters", JArr([]))).value);
            && |fo.parameters| == |objs|
            && (forall i :: 0 <= i < |objs| ==> ProcessParameter(objs[i]) == Ok(fo.parameters[i]))
            && (forall i :: 0 <= i < |fo.parameters| ==> fo.parameters[i].name.JStr?)
            && fo.signature == SignatureText(fo.parameters)
  {
    var objs := Objects(Iterate(Get(f, "parameters", JArr([]))).value);
    FunctionParts(f);
    PiecesMatchParameters(objs, MapAll(objs, Piece).value, FunctionSpec(f).value.parameters);
  }

  /** What a successful `FunctionSpec` is made of. */
  lemma FunctionParts(f: Json)
    requires FunctionSpec(f).Ok?
    ensures f.JObj? && Iterate(Get(f, "parameters", JArr([]))).Ok?
    ensures var objs := Objects(Iterate(Get(f, "parameters", JArr([]))).value);
            && MapAll(objs, Piece).Ok?
            && MapAll(objs, ProcessParameter) == Ok(FunctionSpec(f).value.parameters)
            && FunctionSpec(f).value.signature == "(" + Join(", ", MapAll(objs, Piece).value) + ")"
  {
  }

  /** Pieces and processed parameters of the same dicts correspond one to one. */
  lemma {:induction false} PiecesMatchParameters(objs: seq<Json>, pieces: seq<string>, params: seq<ParamOut>)
    requires MapAll(objs, Piece) == Ok(pieces)
    requires MapAll(objs, ProcessParameter) == Ok(params)
    ensures |params| == |objs|
    ensures forall i :: 0 <= i < |objs| ==> ProcessParameter(objs[i]) == Ok(params[i])
    ensures forall i :: 0 <= i < |params| ==> params[i].name.JStr?
    ensures pieces == PieceTexts(params)
  {
    MapAllOk(objs, Piece);
    MapAllOk(objs, ProcessParameter);
    forall i | 0 <= i < |objs|
      ensures params[i].name.JStr? && pieces[i] == PieceText(params[i])
    {
      PieceOfParameter(objs[i]);
    }
  }

  /** A function without dict parameters (none declared, or none a dict) has the signature "()". */
  lemma EmptySignature(f: Json)
    requires FunctionSpec(f).Ok?
    requires Objects(Iterate(Get(f, "parameters", JArr([]))).value) == []
    ensures FunctionSpec(f).value.signature == "()"
    ensures FunctionSpec(f).value.parameters == []
  {
  }

  /** The JSON Griffe emits for a parameter `name: annotation = default` of a given kind. */
  function ParamJson(name: string, annotation: Expr, kind: string, default: Json): Json {
    JObj([("name", JStr(name)), ("annotation", Encode(annotation)), ("kind", JStr(kind)), ("default", default)])
  }

  /**
   * A declared parameter with a well-formed annotation is reported with the
   * annotation's source text as its type, and printed in the signature as it
   * reads in source.
   */
  lemma DeclaredParameter(name: string, annotation: Expr, kind: string, default: Json)
    requires WellFormed(annotation)
    ensures ProcessParameter(ParamJson(name, annotation, kind, default))
            == Ok(ParamOut(JStr(name), JStr(Render(annotation)), default, JStr(kind)))
    ensures Piece(ParamJson(name, annotation, kind, default))
            == Ok(name + (if Render(annotation) != "" then ": " + Render(annotation) else "")
                  + (if default != JNull then " = " + Str(default) else ""))
  {
    var p := ParamJson(name, annotation, kind, default);
    ParamFields(name, Encode(annotation), kind, default);
    RendersSource(annotation);
    ParameterParts(p, JStr(Render(annotation)));
  }

  /** `process_parameter` and the signature piece of a dict whose annotation prints as `t`. */
  lemma ParameterParts(p: Json, t: Json)
    requires p.JObj? && AnnotationToString(Get(p, "annotation", JNull)) == Ok(t)
    ensures ProcessParameter(p) == Ok(ParamOut(Get(p, "name", JStr("")), t, Get(p, "default", JNull), Get(p, "kind", JStr(""))))
    ensures Piece(p) == PieceOf(Get(p, "name", JStr("")), t, Get(p, "default", JNull))
  {
  }

  /** What `dict.get` finds in `ParamJson`. */
  lemma ParamFields(name: string, annotation: Json, kind: string, default: Json)
    ensures var p := JObj([("name", JStr(name)), ("annotation", annotation), ("kind", JStr(kind)), ("default", default)]);
            && Get(p, "name", JStr("")) == JStr(name)
            && Get(p, "annotation", JNull) == annotation
            && Get(p, "kind", JStr("")) == JStr(kind)
            && Get(p, "default", JNull) == default
  {
    var p := JObj([("name", JStr(name)), ("annotation", annotation), ("kind", JStr(kind)), ("default", default)]);
    GetField(p, 0, JStr(""));
    GetField(p, 1, JNull);
    GetField(p, 2, JStr(""));
    GetField(p, 3, JNull);
  }

  /** The entry `functions[name] = process_function(member)` (for a class, `methods[name]`). */
  function FunctionEntry(e: (string, Json)): (r: Result<(string, FunctionOut)>)
    ensures r.Ok? ==> r.value.0 == e.0
  {
    var fo :- FunctionSpec(e.1);
    Ok((e.0, fo))
  }

  lemma FunctionEntryOk(e: (string, Json), fo: FunctionOut)
    requires FunctionSpec(e.1) == Ok(fo)
    ensures FunctionEntry(e) == Ok((e.0, fo))
  {
  }

  /** Adds `process_function(member)` for the `i`-th member, a function, under its name. */
  method AddFunction(fields: seq<(string, Json)>, i: nat, done: seq<(string, FunctionOut)>)
    returns (r: Result<seq<(string, FunctionOut)>>)
    requires i < |fields| && IsKind(fields[i].1, "function")
    requires MapAll(Select(fields[..i], "function"), FunctionEntry) == Ok(done)
    ensures r == MapAll(Select(fields[..i + 1], "function"), FunctionEntry)
    ensures r.Raised? ==> MapAll(Select(fields, "function"), FunctionEntry).Raised?
  {
    MapSelectStep(fields, i, "function", FunctionEntry, done);
    var (name, member) := fields[i];
    var processed := ProcessFunction(member);
    if processed.Raised? {
      SelectRaises(fields, i, "function", FunctionEntry);
      return Raised;
    }
    FunctionEntryOk(fields[i], processed.value);
    return Ok(done + [(name, processed.value)]);
  }
}
