/**
 * `process_module` and `transform_for_nextjs`: a Griffe module object reduced
 * to its name, path, docstring, and its classes, functions, submodules and
 * aliases, with submodules processed recursively.
 */
module Modules {
  import opened Json
  import opened Docstrings
  import opened Members
  import opened Functions
  import opened Classes

  /** A processed alias: its name and the path it points to. */
  datatype AliasOut = AliasOut(name: string, target: Json)

  /** A processed module; its JSON also carries `"kind": "module"`. */
  datatype ModuleOut = ModuleOut(
    name: Json,
    path: Json,
    docstring: DocOut,
    classes: seq<(string, ClassOut)>,
    functions: seq<(string, FunctionOut)>,
    modules: seq<(string, ModuleOut)>,
    aliases: seq<(string, AliasOut)>)

  /** The entry `classes[name] = process_class(member)`. */
  function ClassEntry(e: (string, Json)): (r: Result<(string, ClassOut)>)
    ensures r.Ok? ==> r.value.0 == e.0
  {
    var co :- ClassSpec(e.1);
    Ok((e.0, co))
  }

  /** The entry `aliases[name] = {"name": name, "target": ...}`, the target defaulting to "". */
  function AliasEntry(e: (string, Json)): (r: Result<(string, AliasOut)>)
    ensures r.Ok? <==> e.1.JObj?
    ensures r.Ok? ==> r.value.0 == e.0 && r.value.1.name == e.0
  {
    if !e.1.JObj? then Raised
    else Ok((e.0, AliasOut(e.0, Get(e.1, "target_path", JStr("")))))
  }

  /** Every member of a module dict is smaller than the module. */
  lemma MembersSmaller(m: Json)
    requires m.JObj? && Get(m, "members", JObj([])).JObj?
    ensures forall e :: e in Get(m, "members", JObj([])).fields ==> Size(e.1) < Size(m)
  {
    var fields := Get(m, "members", JObj([])).fields;
    GetSmaller(m, "members", JObj([]));
    forall e | e in fields ensures Size(e.1) < Size(m) {
      var i :| 0 <= i < |fields| && fields[i] == e;
      FieldSmaller(fields, i);
    }
  }

  /**
   * `process_module(mod_data)` as one expression: the function value the
   * imperative `ProcessModule` is proved to compute. `members.items()` raises
   * unless `members` is a dict.
   */
  function ModuleSpec(m: Json): Result<ModuleOut>
    decreases Size(m), 1
  {
    if !m.JObj? then Raised
    else
      var members := Get(m, "members", JObj([]));
      if !members.JObj? then Raised
      else
        MembersSmaller(m);
        SelectMembers(members.fields, "module");
        var classes :- MapAll(Select(members.fields, "class"), ClassEntry);
        var functions :- MapAll(Select(members.fields, "function"), FunctionEntry);
        var modules :- ModulesOf(m, Select(members.fields, "module"));
        var aliases :- MapAll(Select(members.fields, "alias"), AliasEntry);
        var doc :- ProcessDocstring(Get(m, "docstring", JNull));
        Ok(ModuleOut(Get(m, "name", JStr("")), Get(m, "path", JStr("")), doc, classes, functions, modules, aliases))
  }

  /** The submodules of `m`, each processed recursively (see `ModulesOfIsMapAll`). */
  function ModulesOf(m: Json, entries: seq<(string, Json)>): Result<seq<(string, ModuleOut)>>
    requires forall e :: e in entries ==> Size(e.1) < Size(m)
    decreases Size(m), 0, |entries|
  {
    if entries == [] then Ok([])
    else
      var rest :- ModulesOf(m, entries[..|entries| - 1]);
      var last := entries[|entries| - 1];
      var mo :- ModuleSpec(last.1);
      Ok(rest + [(last.0, mo)])
  }

  /** The entry `modules[name] = process_module(member)`. */
  function ModuleEntry(e: (string, Json)): (r: Result<(string, ModuleOut)>)
    ensures r.Ok? ==> r.value.0 == e.0
  {
    var mo :- ModuleSpec(e.1);
    Ok((e.0, mo))
  }

  /** The submodules are processed like every other kind of member. */
  lemma {:induction false} ModulesOfIsMapAll(m: Json, entries: seq<(string, Json)>)
    requires forall e :: e in entries ==> Size(e.1) < Size(m)
    ensures ModulesOf(m, entries) == MapAll(entries, ModuleEntry)
  {
    if entries != [] {
      ModulesOfIsMapAll(m, entries[..|entries| - 1]);
    }
  }

  /** What a successful `ModuleSpec` is made of. */
  lemma ModuleParts(m: Json)
    requires ModuleSpec(m).Ok?
    ensures m.JObj? && Get(m, "members", JObj([])).JObj?
    ensures var fields := Get(m, "members", JObj([])).fields;
            var mo := ModuleSpec(m).value;
            && MapAll(Select(fields, "class"), ClassEntry) == Ok(mo.classes)
            && MapAll(Select(fields, "function"), FunctionEntry) == Ok(mo.functions)
            && MapAll(Select(fields, "module"), ModuleEntry) == Ok(mo.modules)
            && MapAll(Select(fields, "alias"), AliasEntry) == Ok(mo.aliases)
  {
    ModuleSpecIs(m);
  }

  /** `ModuleSpec` in terms of the four member maps. */
  lemma ModuleSpecIs(m: Json)
    requires m.JObj? && Get(m, "members", JObj([])).JObj?
    ensures var fields := Get(m, "members", JObj([])).fields;
            ModuleSpec(m) == (
              var classes :- MapAll(Select(fields, "class"), ClassEntry);
              var functions :- MapAll(Select(fields, "function"), FunctionEntry);
              var modules :- MapAll(Select(fields, "module"), ModuleEntry);
              var aliases :- MapAll(Select(fields, "alias"), AliasEntry);
              var doc :- ProcessDocstring(Get(m, "docstring", JNull));
              Ok(ModuleOut(Get(m, "name", JStr("")), Get(m, "path", JStr("")), doc, classes, functions, modules, aliases)))
  {
    MembersSmaller(m);
    SelectMembers(Get(m, "members", JObj([])).fields, "module");
    ModulesOfIsMapAll(m, Select(Get(m, "members", JObj([])).fields, "module"));
  }

  /**
   * Every member of a module lands under its own name in exactly the output
   * dict of its kind ("class", "function", "module" or "alias"), processed,
   * submodules recursively, in member order; members of any other kind are left
   * out and nothing else is added. No output dict repeats a name.
   */
  lemma ModuleMembers(m: Json)
    requires ModuleSpec(m).Ok?
    requires m.JObj? && Get(m, "members", JObj([])).JObj? && UniqueKeys(Get(m, "members", JObj([])).fields)
    ensures var fields := Get(m, "members", JObj([])).fields;
            var mo := ModuleSpec(m).value;
            && Keys(mo.classes) == Keys(Select(fields, "class"))
            && Keys(mo.functions) == Keys(Select(fields, "function"))
            && Keys(mo.modules) == Keys(Select(fields, "module"))
            && Keys(mo.aliases) == Keys(Select(fields, "alias"))
            && UniqueKeys(mo.classes) && UniqueKeys(mo.functions) && UniqueKeys(mo.modules) && UniqueKeys(mo.aliases)
            && (forall i :: 0 <= i < |fields| ==> (fields[i].0 in Keys(mo.classes) <==> IsKind(fields[i].1, "class")))
            && (forall i :: 0 <= i < |fields| ==> (fields[i].0 in Keys(mo.functions) <==> IsKind(fields[i].1, "function")))
            && (forall i :: 0 <= i < |fields| ==> (fields[i].0 in Keys(mo.modules) <==> IsKind(fields[i].1, "module")))
            && (forall i :: 0 <= i < |fields| ==> (fields[i].0 in Keys(mo.aliases) <==> IsKind(fields[i].1, "alias")))
            && (forall i, j :: 0 <= i < |fields| && 0 <= j < |mo.classes| && mo.classes[j].0 == fields[i].0 ==>
                  ClassEntry(fields[i]) == Ok(mo.classes[j]))
            && (forall i, j :: 0 <= i < |fields| && 0 <= j < |mo.functions| && mo.functions[j].0 == fields[i].0 ==>
                  FunctionEntry(fields[i]) == Ok(mo.functions[j]))
            && (forall i, j :: 0 <= i < |fields| && 0 <= j < |mo.modules| && mo.modules[j].0 == fields[i].0 ==>
                  ModuleEntry(fields[i]) == Ok(mo.modules[j]))
            && (forall i, j :: 0 <= i < |fields| && 0 <= j < |mo.aliases| && mo.aliases[j].0 == fields[i].0 ==>
                  AliasEntry(fields[i]) == Ok(mo.aliases[j]))
  {
    var fields := Get(m, "members", JObj([])).fields;
    var mo := ModuleSpec(m).value;
    ModuleParts(m);
    SelectedEntries(fields, "class", ClassEntry, mo.classes);
    SelectedEntries(fields, "function", FunctionEntry, mo.functions);
    SelectedEntries(fields, "module", ModuleEntry, mo.modules);
    SelectedEntries(fields, "alias", AliasEntry, mo.aliases);
  }

  /**
   * `process_module(mod_data)`: one pass over the members sorts classes,
   * functions, submodules (processed recursively) and aliases.
   */
  method ProcessModule(m: Json) returns (r: Result<ModuleOut>)
    ensures r == ModuleSpec(m)
    decreases Size(m), 3
  {
    if !m.JObj? {
      return Raised;
    }
    var members := Get(m, "members", JObj([]));
    if !members.JObj? {
      return Raised;
    }
    MembersSmaller(m);
    ModuleSpecIs(m);
    var sorted, classes, functions, modules, aliases := SortModuleMembers(m, members.fields);
    if sorted.Raised? {
      return Raised;
    }
    var doc :- ProcessDocstring(Get(m, "docstring", JNull));
    r := Ok(ModuleOut(Get(m, "name", JStr("")), Get(m, "path", JStr("")), doc, classes, functions, modules, aliases));
  }

  /** The members loop of `process_module`. */
  method SortModuleMembers(m: Json, fields: seq<(string, Json)>)
    returns (sorted: Result<()>, classes: seq<(string, ClassOut)>, functions: seq<(string, FunctionOut)>,
             modules: seq<(string, ModuleOut)>, aliases: seq<(string, AliasOut)>)
    requires forall e :: e in fields ==> Size(e.1) < Size(m)
    ensures sorted.Ok? <==> && MapAll(Select(fields, "class"), ClassEntry).Ok?
                            && MapAll(Select(fields, "function"), FunctionEntry).Ok?
                            && MapAll(Select(fields, "module"), ModuleEntry).Ok?
                            && MapAll(Select(fields, "alias"), AliasEntry).Ok?
    ensures sorted.Ok? ==> && MapAll(Select(fields, "class"), ClassEntry) == Ok(classes)
                           && MapAll(Select(fields, "function"), FunctionEntry) == Ok(functions)
                           && MapAll(Select(fields, "module"), ModuleEntry) == Ok(modules)
                           && MapAll(Select(fields, "alias"), AliasEntry) == Ok(aliases)
    decreases Size(m), 2
  {
    classes, functions, modules, aliases := [], [], [], [];
    var i := 0;
    while i < |fields|
      invariant i <= |fields|
      invariant StoredUpTo(fields[..i], classes, functions, modules, aliases)
    {
      var stored;
      stored, classes, functions, modules, aliases := SortModuleMember(m, fields, i, classes, functions, modules, aliases);
      if stored.Raised? {
        return Raised, classes, functions, modules, aliases;
      }
      i := i + 1;
    }
    assert fields[..i] == fields;
    return Ok(()), classes, functions, modules, aliases;
  }

  /** The four dicts hold exactly the processed members of `prefix` of their kinds. */
  predicate StoredUpTo(prefix: seq<(string, Json)>, classes: seq<(string, ClassOut)>,
                       functions: seq<(string, FunctionOut)>, modules: seq<(string, ModuleOut)>,
                       aliases: seq<(string, AliasOut)>)
  {
    && MapAll(Select(prefix, "class"), ClassEntry) == Ok(classes)
    && MapAll(Select(prefix, "function"), FunctionEntry) == Ok(functions)
    && MapAll(Select(prefix, "module"), ModuleEntry) == Ok(modules)
    && MapAll(Select(prefix, "alias"), AliasEntry) == Ok(aliases)
  }

  /** One turn of the members loop of `process_module`: the `i`-th member is stored in the dict of its kind. */
  method SortModuleMember(m: Json, fields: seq<(string, Json)>, i: nat,
                          classes: seq<(string, ClassOut)>, functions: seq<(string, FunctionOut)>,
                          modules: seq<(string, ModuleOut)>, aliases: seq<(string, AliasOut)>)
    returns (stored: Result<()>, classes': seq<(string, ClassOut)>, functions': seq<(string, FunctionOut)>,
             modules': seq<(string, ModuleOut)>, aliases': seq<(string, AliasOut)>)
    requires forall e :: e in fields ==> Size(e.1) < Size(m)
    requires i < |fields|
    requires StoredUpTo(fields[..i], classes, functions, modules, aliases)
    ensures stored.Raised? ==> !(&& MapAll(Select(fields, "class"), ClassEntry).Ok?
                                 && MapAll(Select(fields, "function"), FunctionEntry).Ok?
                                 && MapAll(Select(fields, "module"), ModuleEntry).Ok?)
    ensures stored.Ok? ==> StoredUpTo(fields[..i + 1], classes', functions', modules', aliases')
    decreases Size(m), 1
  {
    stored, classes', functions', modules', aliases' := Ok(()), classes, functions, modules, aliases;
    SelectSkip(fields, i, "class");
    SelectSkip(fields, i, "function");
    SelectSkip(fields, i, "module");
    SelectSkip(fields, i, "alias");
    if IsKind(fields[i].1, "class") {
      var added := AddClass(fields, i, classes);
      if added.Raised? {
        return Raised, classes, functions, modules, aliases;
      }
      classes' := added.value;
    } else if IsKind(fields[i].1, "function") {
      var added := AddFunction(fields, i, functions);
      if added.Raised? {
        return Raised, classes, functions, modules, aliases;
      }
      functions' := added.value;
    } else if IsKind(fields[i].1, "module") {
      var added := AddModule(m, fields, i, modules);
      if added.Raised? {
        return Raised, classes, functions, modules, aliases;
      }
      modules' := added.value;
    } else if IsKind(fields[i].1, "alias") {
      MapSelectStep(fields, i, "alias", AliasEntry, aliases);
      aliases' := aliases + [(fields[i].0, AliasOut(fields[i].0, Get(fields[i].1, "target_path", JStr(""))))];
    }
  }

  /** `classes[name] = process_class(member)` for the `i`-th member, a class. */
  method AddClass(fields: seq<(string, Json)>, i: nat, done: seq<(string, ClassOut)>)
    returns (r: Result<seq<(string, ClassOut)>>)
    requires i < |fields| && IsKind(fields[i].1, "class")
    requires MapAll(Select(fields[..i], "class"), ClassEntry) == Ok(done)
    ensures r == MapAll(Select(fields[..i + 1], "class"), ClassEntry)
    ensures r.Raised? ==> MapAll(Select(fields, "class"), ClassEntry).Raised?
  {
    MapSelectStep(fields, i, "class", ClassEntry, done);
    var (name, member) := fields[i];
    var processed := ProcessClass(member);
    if processed.Raised? {
      SelectRaises(fields, i, "class", ClassEntry);
      return Raised;
    }
    return Ok(done + [(name, processed.value)]);
  }

  /** `modules[name] = process_module(member)` for the `i`-th member, a submodule. */
  method AddModule(m: Json, fields: seq<(string, Json)>, i: nat, done: seq<(string, ModuleOut)>)
    returns (r: Result<seq<(string, ModuleOut)>>)
    requires forall e :: e in fields ==> Size(e.1) < Size(m)
    requires i < |fields| && IsKind(fields[i].1, "module")
    requires MapAll(Select(fields[..i], "module"), ModuleEntry) == Ok(done)
    ensures r == MapAll(Select(fields[..i + 1], "module"), ModuleEntry)
    ensures r.Raised? ==> MapAll(Select(fields, "module"), ModuleEntry).Raised?
    decreases Size(m), 0
  {
    MapSelectStep(fields, i, "module", ModuleEntry, done);
    var (name, member) := fields[i];
    assert fields[i] in fields;
    var processed := ProcessModule(member);
    if processed.Raised? {
      SelectRaises(fields, i, "module", ModuleEntry);
      return Raised;
    }
    return Ok(done + [(name, processed.value)]);
  }

  /** `transform_for_nextjs(griffe_data)`: the whole package tree, processed as a module. */
  method TransformForNextjs(g: Json) returns (r: Result<ModuleOut>)
    ensures r == ModuleSpec(g)
  {
    r := ProcessModule(g);
  }

  /** The dict stored for an alias. */
  function AliasToJson(a: AliasOut): (r: Json)
    ensures r.JObj? && Keys(r.fields) == ["name", "target"]
  {
    JObj([("name", JStr(a.name)), ("target", a.target)])
  }

  /** The dict `process_module` returns. */
  function ModuleToJson(mo: ModuleOut): (r: Json)
    ensures r.JObj?
    ensures Keys(r.fields) == ["name", "kind", "path", "docstring", "classes", "functions", "modules", "aliases"]
    decreases mo
  {
    JObj([("name", mo.name), ("kind", JStr("module")), ("path", mo.path), ("docstring", DocToJson(mo.docstring)),
          ("classes", JObj(seq(|mo.classes|, i requires 0 <= i < |mo.classes| =>
                                 (mo.classes[i].0, ClassToJson(mo.classes[i].1))))),
          ("functions", JObj(seq(|mo.functions|, i requires 0 <= i < |mo.functions| =>
                                   (mo.functions[i].0, FunctionToJson(mo.functions[i].1))))),
          ("modules", JObj(seq(|mo.modules|, i requires 0 <= i < |mo.modules| =>
                                 (mo.modules[i].0, ModuleToJson(mo.modules[i].1))))),
          ("aliases", JObj(seq(|mo.aliases|, i requires 0 <= i < |mo.aliases| =>
                                 (mo.aliases[i].0, AliasToJson(mo.aliases[i].1)))))])
  }

  /** The module dict is marked `"kind": "module"`. */
  lemma ModuleJsonKind(mo: ModuleOut)
    ensures Get(ModuleToJson(mo), "kind", JNull) == JStr("module")
  {
    GetField(ModuleToJson(mo), 1, JNull);
  }
}
