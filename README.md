# Documentation-tree transformer

This project models the transformer in `scripts/docs/generate_docs.py`, which
turns the JSON that Griffe dumps for a Python package into the JSON the
documentation site reads. The model covers:

- `process_docstring`: a docstring object becomes a summary, a description and
  the parsed sections;
- `annotation_to_string`: a type-annotation expression becomes its text;
- `process_parameter` and `process_function`: parameters and signatures;
- `process_class`: methods, attributes and bases;
- `process_module` and `transform_for_nextjs`: the recursive module tree;
- `build_navigation`: the sidebar, with one entry per package and its modules
  in sorted order.

Python values are modelled by the datatype `Json.Json`. A dict is a sequence
of key/value pairs in insertion order, and storing a new key appends it.
Every exception the code can raise on ill-shaped input becomes
`Json.Result.Raised`. Examples are `.get` on a value that is not a dict,
`.split` on a value that is not a string, and `join` over values that are not
strings. The processing functions are therefore total and have no
preconditions. `main` catches an exception from `transform_for_nextjs` the
same way, so the model keeps only the fact that one was raised. The call to
`build_navigation` in `main` (line 408) sits outside that `try`;
`Navigation.NavigationOfPackages` shows it never raises on the packages `main`
collects.

Where the source builds its result with loops, the model is a method with the
same loops. The method is proved equal to a specification function
(`ProcessFunction`, `ProcessClass`, `ProcessModule`, `BuildNavigation`), and
lemmas state what that function guarantees.

Two things about the source's output shapes are stated and proved:

- A falsy docstring gives the keys `summary`, `description` and `sections`.
  Any other (truthy) docstring gives `summary`, `description` and `parsed`
  instead, even one with no text such as `{"value": ""}`.
- A class or module member that is not a dict is skipped, and so is a member
  of any other kind.

## Model

| member | source | states |
|---|---|---|
| Docstrings.ProcessDocstring | scripts/docs/generate_docs.py:88-98 | a falsy docstring, and only that, gives the blank result; otherwise the result exists exactly when the docstring is a dict whose `value` (default "") is a string |
| Docstrings.DocToJson | scripts/docs/generate_docs.py:88-98 | the dict has the keys summary, description, sections for a blank docstring and summary, description, parsed otherwise |
| Docstrings.DocJsonValues | scripts/docs/generate_docs.py:88-98 | a blank docstring's dict holds summary "", description "" and sections {}; a parsed one holds its summary, its raw description and its parsed sections |
| Docstrings.ParsedDocstring | scripts/docs/generate_docs.py:91-98 | the description is `value` verbatim ("" when absent); `parsed` is the docstring's `parsed`, [] when absent; the summary has no blank line in it and no surrounding whitespace, and it occurs in the description before the first blank line |
| Docstrings.SummaryIsFirstParagraph | scripts/docs/generate_docs.py:91-95 | the summary is the description's text before the first blank line, stripped, or the whole description stripped when it has no blank line |
| Text.Strip | scripts/docs/generate_docs.py:95 | `str.strip()`: the result is the middle slice of the input, with only whitespace cut off at both ends, and it neither starts nor ends with whitespace |
| Text.HeadBefore | scripts/docs/generate_docs.py:92-95 | `split("\n\n", 1)[0]`: a prefix of the text with no separator in it; the whole text when there is no separator, and otherwise exactly the text before the first separator |
| Annotations.NonDictAnnotation | scripts/docs/generate_docs.py:114-119 | None gives "", a string is returned unchanged, and any other value that is not a dict gives its `str()` |
| Annotations.NameAnnotation | scripts/docs/generate_docs.py:124-125 | an ExprName gives its `name`, and "" when it has none |
| Annotations.BinOpAnnotation | scripts/docs/generate_docs.py:127-131 | an ExprBinOp gives `left op right`, with both sides converted and the operator defaulting to the union bar; it raises when a side raises |
| Annotations.SubscriptAnnotation | scripts/docs/generate_docs.py:133-136 | an ExprSubscript gives `left[slice]`; it raises when a part raises |
| Annotations.EmptyTupleOrList | scripts/docs/generate_docs.py:138-146 | a tuple or list with no elements gives "()" or "[]" |
| Annotations.SequenceAnnotation | scripts/docs/generate_docs.py:138-146 | a tuple or list gives its converted elements joined by ", " inside the brackets; it raises unless every element converts to a string |
| Annotations.FallbackAnnotation | scripts/docs/generate_docs.py:148-154 | any other class gives `canonical`, else `name`, else "" |
| Annotations.AllStrings | scripts/docs/generate_docs.py:140 | `", ".join` succeeds exactly when every converted element is a string, and then joins those strings in order |
| Annotations.RendersSource | scripts/docs/generate_docs.py:101-154 | for every annotation Griffe builds from source (names, unions and other binary operations, subscripts, tuples, lists, other named expressions), the conversion gives the text `Render` defines: the source text, except that a tuple slice keeps its parentheses; it never raises |
| Annotations.TupleSlice | scripts/docs/generate_docs.py:133-141 | the annotation `dict[str, int]`, whose slice is a tuple, prints as "dict[(str, int)]" |
| Functions.ProcessParameter | scripts/docs/generate_docs.py:170-178 | the parameter is processed exactly when it is a dict whose annotation converts |
| Functions.ParamToJson | scripts/docs/generate_docs.py:173-178 | the dict has the keys name, type, default, kind |
| Functions.PieceOf | scripts/docs/generate_docs.py:199-205 | a parameter's piece is its name, then ": type" when the type is truthy, then " = default" when the default is not None; it raises unless the name is a string |
| Functions.SignaturePieces | scripts/docs/generate_docs.py:196-206 | the loop over the parameters builds the piece of each dict parameter, in order, and skips every other entry |
| Functions.ProcessParameters | scripts/docs/generate_docs.py:219 | the list comprehension processes every dict parameter, in order |
| Functions.ProcessFunction | scripts/docs/generate_docs.py:181-222 | the method computes the specification of `process_function` |
| Functions.PieceRaises | scripts/docs/generate_docs.py:197-206 | a dict parameter whose annotation raises, or whose name is not a string, makes the whole function raise |
| Functions.ParameterRaises | scripts/docs/generate_docs.py:219 | a dict parameter that cannot be processed makes the whole parameter list raise |
| Functions.FunctionToJson | scripts/docs/generate_docs.py:214-222 | the dict has the keys name, kind, signature, docstring, parameters, returns, decorators, and its kind is "function" |
| Functions.SignatureMatchesParameters | scripts/docs/generate_docs.py:195-219 | the reported parameters are the dict parameters processed one by one, in order; every name is a string; the signature is "(" + the pieces of exactly those parameters joined by ", " + ")" |
| Functions.PiecesMatchParameters | scripts/docs/generate_docs.py:197-219 | the signature pieces and the processed parameters come from the same dict entries, position by position |
| Functions.PieceOfParameter | scripts/docs/generate_docs.py:199-205 | a parameter that yields a piece also yields a processed parameter, with a string name, whose name, type and default print as that piece |
| Functions.EmptySignature | scripts/docs/generate_docs.py:208 | a function without dict parameters has the signature "()" and no parameters |
| Functions.DeclaredParameter | scripts/docs/generate_docs.py:170-205 | a parameter `name: T = d` with a well-formed annotation is reported with type `Render(T)` and prints as `name: T = d` (without ": T" when T is empty and without " = d" when d is None) |
| Functions.FunctionEntry | scripts/docs/generate_docs.py:247-248 | a function member is stored under its own name |
| Functions.FunctionEntryOk | scripts/docs/generate_docs.py:247-248 | the stored value is the processed function |
| Functions.AddFunction | scripts/docs/generate_docs.py:247-248 | storing one more function member extends the methods dict; if it raises, the whole class or module raises |
| Classes.AttributeEntry | scripts/docs/generate_docs.py:249-256 | an attribute member is stored under its own name, and the name is repeated in the stored dict |
| Classes.AttributeEntryOk | scripts/docs/generate_docs.py:249-256 | the stored attribute holds the converted annotation, the processed docstring and the raw value |
| Classes.AttributeToJson | scripts/docs/generate_docs.py:251-256 | the dict has the keys name, type, docstring, value |
| Classes.BaseOf | scripts/docs/generate_docs.py:259-263 | a dict base yields its `canonical`, else its `name`, else ""; a string base yields itself; any other base yields nothing |
| Classes.BasesStep | scripts/docs/generate_docs.py:259-263 | one more base appends its entry to the bases list |
| Classes.BasesAppend | scripts/docs/generate_docs.py:259-263 | the bases of two lists one after the other are the bases of the first followed by those of the second, so the order is kept |
| Classes.StringBases | scripts/docs/generate_docs.py:262-263 | bases given as strings are kept as they are, in order |
| Classes.BasesKeepAll | scripts/docs/generate_docs.py:258-263 | the list has one entry per base exactly when every base is a dict or a string; any other base is dropped |
| Classes.ProcessClass | scripts/docs/generate_docs.py:225-273 | the method computes the specification of `process_class` |
| Classes.SortMembers | scripts/docs/generate_docs.py:243-256 | the loop over the members builds exactly the methods and attributes dicts of the specification, or raises when they raise |
| Classes.AddAttribute | scripts/docs/generate_docs.py:249-256 | storing one more attribute extends the attributes dict; if it raises, the whole class raises |
| Classes.ClassMembers | scripts/docs/generate_docs.py:237-256 | the names in methods are exactly the names of the function dicts among the members, and the names in attributes exactly those of the attribute dicts, in member order, so nothing else is added; no name is in both or repeated; each entry is the member processed (a function or an attribute) |
| Classes.ClassToJson | scripts/docs/generate_docs.py:265-273 | the dict has the keys name, kind, path, docstring, bases, methods, attributes |
| Classes.ClassJsonKind | scripts/docs/generate_docs.py:267 | the class dict's kind is "class" |
| Modules.ClassEntry | scripts/docs/generate_docs.py:300-301 | a class member is stored under its own name |
| Modules.AliasEntry | scripts/docs/generate_docs.py:306-310 | an alias member is stored under its own name, with that name in the stored dict |
| Modules.ModulesOfIsMapAll | scripts/docs/generate_docs.py:304-305 | the submodules are processed recursively, one by one, in order, like every other kind of member |
| Modules.ModuleMembers | scripts/docs/generate_docs.py:289-310 | the names in each of the four dicts (class, function, module, alias) are exactly the names of the members of that kind, in member order; other members are left out and nothing else is added; no dict repeats a name; each entry is the member processed, submodules recursively |
| Modules.ProcessModule | scripts/docs/generate_docs.py:276-321 | the method computes the specification of `process_module` |
| Modules.SortModuleMembers | scripts/docs/generate_docs.py:296-310 | the loop over the members builds exactly the four dicts of the specification, or raises when they raise |
| Modules.SortModuleMember | scripts/docs/generate_docs.py:297-310 | one turn of that loop: stores the member under its kind so the four dicts match the specification on one more member, and raises only when the specification raises |
| Modules.AddClass | scripts/docs/generate_docs.py:300-301 | storing one more class extends the classes dict; if it raises, the whole module raises |
| Modules.AddModule | scripts/docs/generate_docs.py:304-305 | storing one more submodule, processed recursively, extends the modules dict; if it raises, the whole module raises |
| Modules.TransformForNextjs | scripts/docs/generate_docs.py:324-337 | the whole package is processed as a module |
| Modules.AliasToJson | scripts/docs/generate_docs.py:307-310 | the dict has the keys name and target |
| Modules.ModuleToJson | scripts/docs/generate_docs.py:312-321 | the dict has the keys name, kind, path, docstring, classes, functions, modules, aliases |
| Modules.ModuleJsonKind | scripts/docs/generate_docs.py:314 | the module dict's kind is "module" |
| Navigation.BelowIrreflexive | scripts/docs/generate_docs.py:363 | no string sorts before itself |
| Navigation.BelowTransitive | scripts/docs/generate_docs.py:363 | the string order is transitive |
| Navigation.BelowTotal | scripts/docs/generate_docs.py:363 | any two different strings are ordered one way or the other |
| Navigation.SortStrings | scripts/docs/generate_docs.py:363 | `sorted`: the result is a permutation of the input in ascending order |
| Navigation.OrderedPairwise | scripts/docs/generate_docs.py:363 | in the sorted list every name is at most every later one |
| Navigation.SortedDistinct | scripts/docs/generate_docs.py:363 | names without repeats come out strictly ascending |
| Navigation.PackageEntry | scripts/docs/generate_docs.py:355-369 | a package gets an entry exactly when it is a dict whose `modules` (default `{}`) is a dict |
| Navigation.BuildNavigation | scripts/docs/generate_docs.py:340-371 | the nested loops compute the specification of `build_navigation` |
| Navigation.NavigationEntries | scripts/docs/generate_docs.py:355-369 | the navigation is built exactly when every package and its modules are dicts; it then has one entry per package, in order, titled with the package name and linked at /docs/api/<package>; the children are the module names, each once, in ascending order, each linked at /docs/api/<package>/<module> |
| Navigation.ChildrenAscending | scripts/docs/generate_docs.py:363-367 | since a modules dict has no repeated name, the children's titles are strictly ascending |
| Navigation.NoModules | scripts/docs/generate_docs.py:356-363 | a package without "modules" gets no children |
| Navigation.ModuleJsonModules | scripts/docs/generate_docs.py:312-321 | a processed module's dict keeps its submodules' names under "modules" |
| Navigation.NavigationOfPackages | scripts/docs/generate_docs.py:355-369 | for packages that are processed modules, as `main` collects them, the navigation is always built and each package's children are its direct submodules, sorted |
| Navigation.ChildToJson | scripts/docs/generate_docs.py:364-367 | a child link has the keys title and path |
| Navigation.EntryToJson | scripts/docs/generate_docs.py:356-360 | a package entry has the keys title, path, children |

## Left out

- `generate_package_docs` (lines 37-72) runs Griffe in a subprocess and parses its output. Subprocesses and JSON parsing are outside the model, so its result is the input `Json` of `TransformForNextjs`.
- `main` (lines 374-416) writes files, prints, reads the clock and serialises with `json.dumps`. The model keeps its two calls: `TransformForNextjs` for each package, and `BuildNavigation` over the results (see `Navigation.NavigationOfPackages`).
- `raw_docs.get(pkg_name, raw_docs)` in `main` is not modelled; the transformer starts from the package object.
- Floating-point JSON numbers are not modelled. `Json` has integers only.
- `str()` of a value that is not a string (`Json.Str`) writes containers without Python's `repr` escaping (backslashes, newlines, non-printable characters and the choice of quote). It is exact for None, booleans, integers and strings.
- Annotations.NonDictAnnotation: the `str()` it states for lists and dicts is the simplified rendering above.
- Annotations.RendersSource: it promises the text `Render` defines, not always the source text. Griffe stores the slice of `dict[str, int]` as a tuple, and the conversion prints it in parentheses as "dict[(str, int)]" (`Annotations.TupleSlice`); `Render` prints it the same way.
- Annotations.RendersSource: for expression classes other than the five it dispatches on, the `Other` case assumes Griffe's JSON carries a `canonical` string; without one the conversion falls back to `name`, then "" (`Annotations.FallbackAnnotation`).
- Deep recursion that would raise Python's `RecursionError` is not modelled; the model recurses on structure without a depth limit.
- Functions.FunctionSpec: a dict parameter whose name is not a string raises while its piece is built. In Python a None, bool, int or dict name raises at a `+=` (lines 203, 205) when the printed type is truthy or the default is not None. A list name is extended in place by `+=`. Every other case raises at the final `", ".join` (line 208). All exceptions are one `Raised`, so the outcome is the same.
- Python's evaluation order among the raising steps of `process_function`, `process_class` and `process_module` is not kept. Which step raises first is not observable once all exceptions are one `Raised`.
- Python dicts are modelled as key/value sequences with distinct keys. Only the lemmas that need the keys to be distinct (`ClassMembers`, `ModuleMembers`, `ChildrenAscending`, and the `Members` lemmas they use: `SelectUnique`, `SelectedKey`, `SelectedEntries`, `SelectedDisjoint`) require it.
- Strings are sequences of Dafny `char`, which cannot be a lone surrogate. A Python `str` from `json.loads` can hold one (`"\ud800"`); such strings are not modelled.
- The rest of the repository, including the site pages that read the generated JSON, is not part of this model.
