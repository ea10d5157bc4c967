/**
 * `process_docstring`: a Griffe docstring object reduced to a summary (the
 * first paragraph, stripped) and a description (the raw text).
 */
module Docstrings {
  import opened Text
  import opened Json

  /** The paragraph separator the summary stops at. */
  const BlankLine: string := "\n\n"

  /**
   * A processed docstring. `Blank` stands for a missing or empty docstring
   * (its JSON carries an empty `sections` map); `Parsed` for any other, truthy,
   * docstring, with or without text (its JSON carries Griffe's `parsed`
   * sections instead).
   */
  datatype DocOut =
    | Blank
    | Parsed(summary: string, description: string, parsed: Json)

  /**
   * `process_docstring(docstring)`. A falsy docstring (None, an empty dict, ...)
   * gives `Blank`; otherwise the docstring must be a dict whose `value`, when
   * present, is a string, or Python raises (`.get` on a non-dict, `.split` on a
   * non-string).
   */
  function ProcessDocstring(d: Json): (r: Result<DocOut>)
    ensures r == Ok(Blank) <==> !Truthy(d)
    ensures r.Ok? <==> !Truthy(d) || (d.JObj? && Get(d, "value", JStr("")).JStr?)
  {
    if !Truthy(d) then Ok(Blank)
    else if !d.JObj? then Raised
    else
      var value := Get(d, "value", JStr(""));
      if !value.JStr? then Raised
      else Ok(Parsed(Strip(HeadBefore(value.s, BlankLine)), value.s, Get(d, "parsed", JArr([]))))
  }

  /** The dict `process_docstring` returns. */
  function DocToJson(doc: DocOut): (r: Json)
    ensures r.JObj?
    ensures Keys(r.fields) == if doc.Blank? then ["summary", "description", "sections"]
                              else ["summary", "description", "parsed"]
  {
    match doc
    case Blank =>
      JObj([("summary", JStr("")), ("description", JStr("")), ("sections", JObj([]))])
    case Parsed(summary, description, parsed) =>
      JObj([("summary", JStr(summary)), ("description", JStr(description)), ("parsed", parsed)])
  }

  /**
   * The values in that dict: a blank docstring has an empty summary and
   * description and no sections; a parsed one carries its summary, its raw
   * description and Griffe's parsed sections.
   */
  lemma DocJsonValues(doc: DocOut)
    ensures var r := DocToJson(doc);
            doc.Blank? ==>
              && Get(r, "summary", JNull) == JStr("")
              && Get(r, "description", JNull) == JStr("")
              && Get(r, "sections", JNull) == JObj([])
    ensures var r := DocToJson(doc);
            doc.Parsed? ==>
              && Get(r, "summary", JNull) == JStr(doc.summary)
              && Get(r, "description", JNull) == JStr(doc.description)
              && Get(r, "parsed", JNull) == doc.parsed
  {
    var r := DocToJson(doc);
    GetField(r, 0, JNull);
    GetField(r, 1, JNull);
    GetField(r, 2, JNull);
  }

  /**
   * A docstring with text keeps its raw `value` verbatim as the description
   * ("" when absent) and Griffe's `parsed` sections ([] when absent); its
   * summary is the stripped text before the first blank line, so it contains no
   * blank-line separator, has no surrounding whitespace and occurs in the
   * description before any separator.
   */
  lemma {:induction false} ParsedDocstring(d: Json)
    requires ProcessDocstring(d).Ok? && ProcessDocstring(d).value.Parsed?
    ensures var doc := ProcessDocstring(d).value;
      && d.JObj? && Truthy(d)
      && (HasKey(d, "value") ==> d.JObj? && Get(d, "value", JNull) == JStr(doc.description))
      && (!HasKey(d, "value") ==> doc.description == "")
      && (HasKey(d, "parsed") ==> doc.parsed == Get(d, "parsed", JNull))
      && (!HasKey(d, "parsed") ==> doc.parsed == JArr([]))
      && !Contains(doc.summary, BlankLine)
      && (doc.summary == [] || (!IsSpace(doc.summary[0]) && !IsSpace(doc.summary[|doc.summary| - 1])))
      && exists i :: OccursAt(doc.description, doc.summary, i)
                     && (Contains(doc.description, BlankLine) ==> i + |doc.summary| <= Find(doc.description, BlankLine))
  {
    var doc := ProcessDocstring(d).value;
    var head := HeadBefore(doc.description, BlankLine);
    var lo := LeadingSpace(head);
    NoOccurrenceInSlice(head, BlankLine, lo, lo + |doc.summary|);
    assert OccursAt(doc.description, doc.summary, lo) by {
      assert doc.description[lo..lo + |doc.summary|] == head[lo..lo + |doc.summary|];
    }
  }

  /**
   * The summary is the description's first paragraph, stripped: the text
   * before the first blank line, or the whole text when there is none.
   */
  lemma SummaryIsFirstParagraph(d: Json)
    requires ProcessDocstring(d).Ok? && ProcessDocstring(d).value.Parsed?
    ensures var doc := ProcessDocstring(d).value;
            doc.summary == Strip(if Contains(doc.description, BlankLine)
                                 then doc.description[..Find(doc.description, BlankLine)]
                                 else doc.description)
  {
    var doc := ProcessDocstring(d).value;
    var head := HeadBefore(doc.description, BlankLine);
    if Contains(doc.description, BlankLine) {
      assert head == doc.description[..Find(doc.description, BlankLine)];
    }
  }
}
