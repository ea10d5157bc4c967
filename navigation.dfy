/**
 * `build_navigation`: the sidebar of the API pages, one entry per package
 * with a child per module of the package, the modules in sorted order.
 */
module Navigation {
  import opened Json
  import opened Members
  import opened Modules

  /** A link to one module's page. */
  datatype NavChild = NavChild(title: string, path: string)

  /** A package's entry: its own link and the links to its modules. */
  datatype NavEntry = NavEntry(title: string, path: string, children: seq<NavChild>)

  /**
   * Python's `a < b` on strings: the first differing code point decides, and
   * a proper prefix comes first.
   */
  predicate Below(a: string, b: string)
    decreases |a|
  {
    if a == [] then b != []
    else b != [] && (a[0] < b[0] || (a[0] == b[0] && Below(a[1..], b[1..])))
  }

  /** Python's `a <= b` on strings. */
  predicate AtMost(a: string, b: string) {
    a == b || Below(a, b)
  }

  lemma {:induction false} BelowIrreflexive(a: string)
    ensures !Below(a, a)
    decreases |a|
  {
    if a != [] {
      BelowIrreflexive(a[1..]);
    }
  }

  lemma {:induction false} BelowTransitive(a: string, b: string, c: string)
    requires Below(a, b) && Below(b, c)
    ensures Below(a, c)
    decreases |a|
  {
    if a != [] && a[0] == b[0] && b[0] == c[0] {
      BelowTransitive(a[1..], b[1..], c[1..]);
    }
  }

  /** Any two different strings are ordered one way or the other. */
  lemma {:induction false} BelowTotal(a: string, b: string)
    ensures a == b || Below(a, b) || Below(b, a)
    decreases |a|
  {
    if a != [] && b != [] && a[0] == b[0] {
      BelowTotal(a[1..], b[1..]);
      if a[1..] == b[1..] {
        assert a == [a[0]] + a[1..] && b == [b[0]] + b[1..];
      }
    }
  }

  /** Each string is at most the next one. */
  predicate Ordered(s: seq<string>) {
    forall i :: 0 < i < |s| ==> AtMost(s[i - 1], s[i])
  }

  /** `x` put into the ordered `s` before the first element it is at most. */
  function Insert(x: string, s: seq<string>): (r: seq<string>)
    ensures multiset(r) == multiset(s) + multiset{x}
    ensures |r| == |s| + 1
    ensures r[0] == x || (s != [] && r[0] == s[0])
    ensures Ordered(s) ==> Ordered(r)
  {
    if s == [] then [x]
    else if AtMost(x, s[0]) then [x] + s
    else
      var rest := Insert(x, s[1..]);
      BelowTotal(x, s[0]);
      assert s == [s[0]] + s[1..];
      [s[0]] + rest
  }

  /** `sorted(names)`: the same strings, in ascending order. */
  function SortStrings(names: seq<string>): (r: seq<string>)
    ensures multiset(r) == multiset(names)
    ensures |r| == |names|
    ensures Ordered(r)
  {
    if names == [] then []
    else
      assert names == [names[0]] + names[1..];
      Insert(names[0], SortStrings(names[1..]))
  }

  /** In an ordered sequence every string is at most every later one. */
  lemma {:induction false} OrderedPairwise(s: seq<string>, i: nat, j: nat)
    requires Ordered(s) && i <= j < |s|
    ensures AtMost(s[i], s[j])
    decreases j - i
  {
    if i < j {
      OrderedPairwise(s, i + 1, j);
      if s[i] != s[i + 1] && s[i + 1] != s[j] {
        BelowTransitive(s[i], s[i + 1], s[j]);
      }
    }
  }

  /** Sorting names without repeats gives them in strictly ascending order. */
  lemma SortedDistinct(names: seq<string>)
    requires forall i, j :: 0 <= i < j < |names| ==> names[i] != names[j]
    ensures var r := SortStrings(names);
            forall i, j :: 0 <= i < j < |r| ==> Below(r[i], r[j])
  {
    var r := SortStrings(names);
    forall i, j | 0 <= i < j < |r| ensures Below(r[i], r[j]) {
      OrderedPairwise(r, i, j);
      if r[i] == r[j] {
        TwoPositions(r, i, j);
        RepeatedElement(names, r[i]);
      }
    }
  }

  /** A string at two different positions occurs twice. */
  lemma TwoPositions(s: seq<string>, i: nat, j: nat)
    requires i < j < |s| && s[i] == s[j]
    ensures multiset(s)[s[i]] >= 2
  {
    assert s == s[..j] + [s[j]] + s[j + 1..];
    assert s[..j][i] == s[i];
    assert s[i] in multiset(s[..j]);
  }

  /** A string occurring twice in a sequence sits at two different positions. */
  lemma {:induction false} RepeatedElement(names: seq<string>, x: string)
    requires multiset(names)[x] >= 2
    ensures exists i, j :: 0 <= i < j < |names| && names[i] == x && names[j] == x
  {
    assert names != [];
    assert names == [names[0]] + names[1..];
    if names[0] == x {
      assert x in multiset(names[1..]);
      var j :| 0 <= j < |names[1..]| && names[1..][j] == x;
      assert names[j + 1] == x;
    } else {
      RepeatedElement(names[1..], x);
      var i, j :| 0 <= i < j < |names[1..]| && names[1..][i] == x && names[1..][j] == x;
      assert names[i + 1] == x && names[j + 1] == x;
    }
  }

  /** The prefix of every page of the API reference. */
  const ApiRoot: string := "/docs/api/"

  /** The links to the given modules of a package, in the given order. */
  function Children(pkgName: string, modNames: seq<string>): (r: seq<NavChild>)
    ensures |r| == |modNames|
  {
    seq(|modNames|, i requires 0 <= i < |modNames| => NavChild(modNames[i], ApiRoot + pkgName + "/" + modNames[i]))
  }

  /**
   * The entry for one item of `packages`: `pkg_data.get("modules", {})` raises
   * unless the package is a dict, and `.keys()` raises unless its modules are.
   */
  function PackageEntry(e: (string, Json)): (r: Result<NavEntry>)
    ensures r.Ok? <==> e.1.JObj? && Get(e.1, "modules", JObj([])).JObj?
  {
    if !e.1.JObj? then Raised
    else
      var mods := Get(e.1, "modules", JObj([]));
      if !mods.JObj? then Raised
      else Ok(NavEntry(e.0, ApiRoot + e.0, Children(e.0, SortStrings(Keys(mods.fields)))))
  }

  /** `build_navigation(packages)` as one expression. */
  function NavigationSpec(packages: Json): Result<seq<NavEntry>> {
    if !packages.JObj? then Raised
    else MapAll(packages.fields, PackageEntry)
  }

  /** `build_navigation(packages)`: one loop over the packages, one over each package's sorted modules. */
  method BuildNavigation(packages: Json) returns (r: Result<seq<NavEntry>>)
    ensures r == NavigationSpec(packages)
  {
    if !packages.JObj? {
      return Raised;
    }
    var fields := packages.fields;
    var nav: seq<NavEntry> := [];
    var i := 0;
    while i < |fields|
      invariant 0 <= i <= |fields|
      invariant MapAll(fields[..i], PackageEntry) == Ok(nav)
    {
      var name := fields[i].0;
      var data := fields[i].1;
      if !data.JObj? || !Get(data, "modules", JObj([])).JObj? {
        MapAllOk(fields, PackageEntry);
        return Raised;
      }
      var modNames := SortStrings(Keys(Get(data, "modules", JObj([])).fields));
      var children: seq<NavChild> := [];
      var j := 0;
      while j < |modNames|
        invariant 0 <= j <= |modNames|
        invariant children == Children(name, modNames[..j])
      {
        children := children + [NavChild(modNames[j], ApiRoot + name + "/" + modNames[j])];
        j := j + 1;
      }
      assert modNames[..j] == modNames;
      MapAllStep(fields, i, PackageEntry, nav);
      nav := nav + [NavEntry(name, ApiRoot + name, children)];
      i := i + 1;
    }
    assert fields[..i] == fields;
    return Ok(nav);
  }

  /**
   * The navigation is built exactly when `packages` is a dict of dicts whose
   * "modules" (default `{}`) are dicts; it then holds one entry per package, in
   * order, titled with the package name and linking to `/docs/api/<package>`,
   * whose children are the package's module names in ascending order, each
   * once, each linking to `/docs/api/<package>/<module>`.
   */
  lemma NavigationEntries(packages: Json)
    requires packages.JObj?
    ensures NavigationSpec(packages).Ok? <==>
              forall i :: 0 <= i < |packages.fields| ==>
                packages.fields[i].1.JObj? && Get(packages.fields[i].1, "modules", JObj([])).JObj?
    ensures NavigationSpec(packages).Ok? ==>
              var nav := NavigationSpec(packages).value;
              && |nav| == |packages.fields|
              && forall i :: 0 <= i < |nav| ==>
                   var name := packages.fields[i].0;
                   var mods := Get(packages.fields[i].1, "modules", JObj([])).fields;
                   && nav[i].title == name
                   && nav[i].path == ApiRoot + name
                   && |nav[i].children| == |mods|
                   && multiset(ChildTitles(nav[i].children)) == multiset(Keys(mods))
                   && Ordered(ChildTitles(nav[i].children))
                   && forall k :: 0 <= k < |nav[i].children| ==>
                        nav[i].children[k].path == ApiRoot + name + "/" + nav[i].children[k].title
  {
    MapAllOk(packages.fields, PackageEntry);
    if NavigationSpec(packages).Ok? {
      var nav := NavigationSpec(packages).value;
      forall i | 0 <= i < |nav|
        ensures ChildTitles(nav[i].children)
                == SortStrings(Keys(Get(packages.fields[i].1, "modules", JObj([])).fields))
      {
        ChildrenTitles(packages.fields[i].0, SortStrings(Keys(Get(packages.fields[i].1, "modules", JObj([])).fields)));
      }
    }
  }

  /** The titles of a package's children. */
  function ChildTitles(children: seq<NavChild>): (r: seq<string>)
    ensures |r| == |children|
  {
    seq(|children|, k requires 0 <= k < |children| => children[k].title)
  }

  /** The children built for a list of module names are titled with those names. */
  lemma ChildrenTitles(pkgName: string, modNames: seq<string>)
    ensures ChildTitles(Children(pkgName, modNames)) == modNames
  {
  }

  /**
   * A package's modules dict never repeats a name, so its children's titles
   * are strictly ascending.
   */
  lemma ChildrenAscending(name: string, data: Json)
    requires PackageEntry((name, data)).Ok?
    requires UniqueKeys(Get(data, "modules", JObj([])).fields)
    ensures var titles := ChildTitles(PackageEntry((name, data)).value.children);
            forall i, j :: 0 <= i < j < |titles| ==> Below(titles[i], titles[j])
  {
    var names := Keys(Get(data, "modules", JObj([])).fields);
    assert PackageEntry((name, data)).value.children == Children(name, SortStrings(names));
    ChildrenTitles(name, SortStrings(names));
    assert forall i, j :: 0 <= i < j < |names| ==> names[i] != names[j];
    SortedDistinct(names);
  }

  /** A package without "modules" gets no children. */
  lemma NoModules(name: string, data: Json)
    requires data.JObj? && !HasKey(data, "modules")
    ensures PackageEntry((name, data)) == Ok(NavEntry(name, ApiRoot + name, []))
  {
  }

  /** A processed module's dict keeps its submodules under "modules". */
  lemma ModuleJsonModules(mo: ModuleOut)
    ensures Get(ModuleToJson(mo), "modules", JObj([])).JObj?
    ensures Keys(Get(ModuleToJson(mo), "modules", JObj([])).fields) == Keys(mo.modules)
  {
    var a := ModuleToJson(mo);
    GetField(a, 6, JObj([]));
  }

  /**
   * For the packages `main` collects — each one the dict `process_module`
   * returns — the navigation is always built, and each package's children
   * are its direct submodules, sorted by name.
   */
  lemma NavigationOfPackages(pkgs: seq<(string, ModuleOut)>)
    ensures var packages := JObj(seq(|pkgs|, i requires 0 <= i < |pkgs| => (pkgs[i].0, ModuleToJson(pkgs[i].1))));
            && NavigationSpec(packages).Ok?
            && |NavigationSpec(packages).value| == |pkgs|
            && forall i :: 0 <= i < |pkgs| ==>
                 ChildTitles(NavigationSpec(packages).value[i].children) == SortStrings(Keys(pkgs[i].1.modules))
  {
    var packages := JObj(seq(|pkgs|, i requires 0 <= i < |pkgs| => (pkgs[i].0, ModuleToJson(pkgs[i].1))));
    forall i | 0 <= i < |pkgs|
      ensures Get(ModuleToJson(pkgs[i].1), "modules", JObj([])).JObj?
      ensures Keys(Get(ModuleToJson(pkgs[i].1), "modules", JObj([])).fields) == Keys(pkgs[i].1.modules)
    {
      ModuleJsonModules(pkgs[i].1);
    }
    MapAllOk(packages.fields, PackageEntry);
    var nav := NavigationSpec(packages).value;
    forall i | 0 <= i < |pkgs|
      ensures ChildTitles(nav[i].children) == SortStrings(Keys(pkgs[i].1.modules))
    {
      assert PackageEntry(packages.fields[i]) == Ok(nav[i]);
      ChildrenTitles(pkgs[i].0, SortStrings(Keys(pkgs[i].1.modules)));
    }
  }

  /** The dict stored for a module link. */
  function ChildToJson(c: NavChild): (r: Json)
    ensures r.JObj? && Keys(r.fields) == ["title", "path"]
  {
    JObj([("title", JStr(c.title)), ("path", JStr(c.path))])
  }

  /** The dict stored for a package entry. */
  function EntryToJson(e: NavEntry): (r: Json)
    ensures r.JObj? && Keys(r.fields) == ["title", "path", "children"]
  {
    JObj([("title", JStr(e.title)), ("path", JStr(e.path)),
          ("children", JArr(seq(|e.children|, k requires 0 <= k < |e.children| => ChildToJson(e.children[k]))))])
  }
}
