/**
 * The rap-style tool: how a style record is rendered, and what `get_style`
 * and `search_styles` make of the repository's answers. The repository is
 * an oracle: the record found for a name, or the records matching a query.
 */
module StyleTool {
  import opened Wrappers
  import opened Strings

  /**
   * A style dictionary: the three keys the tool reads (`None` when absent),
   * and whether it holds any other key, which decides whether it is empty.
   */
  datatype StyleData = StyleData(styleName: Option<string>, description: Option<string>,
                                 examples: Option<seq<string>>, otherKeys: bool)

  /** `not style_data` for a dictionary: it has no key at all. */
  predicate EmptyRecord(s: StyleData) {
    s.styleName.None? && s.description.None? && s.examples.None? && !s.otherKeys
  }

  function Name(s: StyleData): string { s.styleName.GetOr("Unknown Style") }
  function Description(s: StyleData): string { s.description.GetOr("No description available") }
  function Examples(s: StyleData): seq<string> { s.examples.GetOr([]) }

  const ExamplesHeading: string := "**Examples:**"
  const MatchingHeading: string := "### Matching Rap Styles"
  const NoStylesPrefix: string := "No rap styles found matching: "

  /** The name in bold and the description, each followed by a blank line. */
  function Head(s: StyleData): string {
    "**" + Name(s) + "**\n\n" + Description(s) + "\n\n"
  }

  /** `h` followed by the examples, numbered from 1, one per line. */
  function ExampleBlock(h: string, ex: seq<string>): string {
    if |ex| == 0 then h else ExampleBlock(h, ex[..|ex| - 1]) + NatToString(|ex|) + ". " + ex[|ex| - 1] + "\n"
  }

  /** What `_format_style` returns. */
  function StyleText(s: StyleData): string {
    if |Examples(s)| > 0 then ExampleBlock(Head(s) + ExamplesHeading + "\n", Examples(s)) else Head(s)
  }

  /** `_format_style` */
  method FormatStyle(styleData: StyleData) returns (text: string)
    ensures text == StyleText(styleData)
  {
    var styleName := if styleData.styleName.Some? then styleData.styleName.value else "Unknown Style";
    var description := if styleData.description.Some? then styleData.description.value else "No description available";
    var examples := if styleData.examples.Some? then styleData.examples.value else [];
    text := "**" + styleName + "**\n\n";
    text := text + description + "\n\n";
    if |examples| > 0 {
      text := text + "**Examples:**\n";
      ghost var h := text;
      assert h == Head(styleData) + ExamplesHeading + "\n";
      var k := 0;
      while k < |examples|
        invariant 0 <= k <= |examples|
        invariant text == ExampleBlock(h, examples[..k])
      {
        assert examples[..k + 1][..k] == examples[..k];
        var i := k + 1;
        text := text + NatToString(i) + ". " + examples[k] + "\n";
        k := k + 1;
      }
      assert examples[..k] == examples;
    }
  }

  /** The lines of the rendering: name, blank, description, blank, then the examples section if any. */
  function StyleLines(s: StyleData): seq<string> {
    ["**" + Name(s) + "**", "", Description(s), ""]
      + (if |Examples(s)| > 0 then [ExamplesHeading] + ExampleLines(Examples(s)) else [])
  }

  function ExampleLines(ex: seq<string>): (lines: seq<string>)
    ensures |lines| == |ex|
    ensures forall i :: 0 <= i < |ex| ==> lines[i] == NatToString(i + 1) + ". " + ex[i]
  {
    seq(|ex|, i requires 0 <= i < |ex| => NatToString(i + 1) + ". " + ex[i])
  }

  lemma {:induction false} ExampleBlockLines(h: string, ex: seq<string>)
    ensures ExampleBlock(h, ex) == h + Terminated(ExampleLines(ex))
  {
    if |ex| > 0 {
      var init := ex[..|ex| - 1];
      ExampleBlockLines(h, init);
      assert ExampleLines(ex)[..|ex| - 1] == ExampleLines(init);
      AppendAssoc4(ExampleBlock(h, init), NatToString(|ex|), ". ", ex[|ex| - 1]);
      var line := NatToString(|ex|) + ". " + ex[|ex| - 1];
      assert Terminated(ExampleLines(ex)) == Terminated(ExampleLines(init)) + line + "\n";
      assert h + Terminated(ExampleLines(init)) + (line + "\n") == h + (Terminated(ExampleLines(init)) + (line + "\n"));
    }
  }

  lemma HeadLines(s: StyleData)
    ensures Head(s) == Terminated(["**" + Name(s) + "**", "", Description(s), ""])
  {
    var e := ["**" + Name(s) + "**", "", Description(s), ""];
    assert e[..3] == [e[0], e[1], e[2]] && e[..2] == [e[0], e[1]] && e[..1] == [e[0]];
    assert [e[0], e[1], e[2]][..2] == e[..2] && [e[0], e[1]][..1] == e[..1] && [e[0]][..0] == [];
    assert Terminated(e[..1]) == e[0] + "\n";
    assert Terminated(e[..2]) == e[0] + "\n" + e[1] + "\n";
    assert Terminated(e[..3]) == e[0] + "\n" + e[1] + "\n" + e[2] + "\n";
    assert Terminated(e) == e[0] + "\n" + e[1] + "\n" + e[2] + "\n" + "" + "\n";
  }

  lemma StyleTextIsLines(s: StyleData)
    ensures StyleText(s) == Terminated(StyleLines(s))
  {
    var head := ["**" + Name(s) + "**", "", Description(s), ""];
    HeadLines(s);
    if |Examples(s)| > 0 {
      var ex := Examples(s);
      ExampleBlockLines(Head(s) + ExamplesHeading + "\n", ex);
      TerminatedAppend(head, [ExamplesHeading] + ExampleLines(ex));
      TerminatedAppend([ExamplesHeading], ExampleLines(ex));
      assert [ExamplesHeading][..0] == [];
      assert Terminated([ExamplesHeading]) == ExamplesHeading + "\n";
    } else {
      assert StyleLines(s) == head;
    }
  }

  /**
   * Without line breaks inside the fields, the rendering's lines are the
   * bold name, a blank line, the description and a blank line; then, only
   * when there are examples, the examples heading and one numbered line per
   * example from 1 in order.
   */
  lemma StyleTextLines(s: StyleData)
    requires '\n' !in Name(s) && '\n' !in Description(s)
    requires forall i :: 0 <= i < |Examples(s)| ==> '\n' !in Examples(s)[i]
    ensures var lines := Split(StyleText(s), "\n");
      && |lines| >= 5
      && lines[..4] == ["**" + Name(s) + "**", "", Description(s), ""]
      && (|Examples(s)| == 0 ==> |lines| == 5 && lines[4] == "")
      && (|Examples(s)| > 0 ==>
            (|lines| == 6 + |Examples(s)| && lines[4] == ExamplesHeading
             && forall i :: 0 <= i < |Examples(s)| ==> lines[5 + i] == NatToString(i + 1) + ". " + Examples(s)[i]))
  {
    StyleTextIsLines(s);
    StyleLinesOneLine(s);
    TerminatedLines(StyleLines(s));
  }

  /** Without line breaks in the fields, no rendered line holds one. */
  lemma StyleLinesOneLine(s: StyleData)
    requires '\n' !in Name(s) && '\n' !in Description(s)
    requires forall i :: 0 <= i < |Examples(s)| ==> '\n' !in Examples(s)[i]
    ensures forall j :: 0 <= j < |StyleLines(s)| ==> '\n' !in StyleLines(s)[j]
  {
    var lines := StyleLines(s);
    forall j | 0 <= j < |lines| ensures '\n' !in lines[j] {
      if j >= 5 {
        NatToStringDigits(j - 4);
        assert lines[j] == NatToString(j - 4) + ". " + Examples(s)[j - 5];
      }
    }
  }

  /** The rendering always opens with the bold name and the description. */
  lemma {:induction false} StyleTextStart(s: StyleData)
    ensures StartsWith(StyleText(s), Head(s))
  {
    if |Examples(s)| > 0 {
      ExampleBlockLines(Head(s) + ExamplesHeading + "\n", Examples(s));
      assert StyleText(s) == Head(s) + (ExamplesHeading + "\n" + Terminated(ExampleLines(Examples(s))));
    }
  }

  /** `get_style`: a missing or empty record is the `ValueError` naming the style. */
  method GetStyle(styleName: string, found: Option<StyleData>) returns (r: Result<string, string>)
    ensures found.None? || EmptyRecord(found.value) ==> r == Err("Rap style '" + styleName + "' not found.")
    ensures found.Some? && !EmptyRecord(found.value) ==> r == Ok(StyleText(found.value))
  {
    if found.None? || EmptyRecord(found.value) {
      return Err("Rap style '" + styleName + "' not found.");
    }
    var text := FormatStyle(found.value);
    return Ok(text);
  }

  /** The text after the loop over the first styles: the heading, then each rendering and a blank line. */
  function StylesBody(styles: seq<StyleData>): string {
    if |styles| == 0 then MatchingHeading + "\n\n"
    else StylesBody(styles[..|styles| - 1]) + (StyleText(styles[|styles| - 1]) + "\n\n")
  }

  /** What `search_styles` returns for the repository's matches. */
  function StylesText(query: string, styles: seq<StyleData>): string {
    if |styles| == 0 then NoStylesPrefix + query else StylesBody(styles)
  }

  /** `search_styles` */
  method SearchStyles(query: string, styles: seq<StyleData>) returns (text: string)
    ensures text == StylesText(query, styles)
  {
    if |styles| == 0 {
      return "No rap styles found matching: " + query;
    }
    text := "### Matching Rap Styles\n\n";
    var k := 0;
    while k < |styles|
      invariant 0 <= k <= |styles|
      invariant text == StylesBody(styles[..k])
    {
      assert styles[..k + 1][..k] == styles[..k];
      var formatted := FormatStyle(styles[k]);
      text := text + (formatted + "\n\n");
      k := k + 1;
    }
    assert styles[..k] == styles;
  }

  /** Rendering `i` follows renderings `0..i` in list order. */
  lemma {:induction false} StylesBodyAt(styles: seq<StyleData>, i: nat)
    requires i < |styles|
    ensures StartsWith(StylesBody(styles), StylesBody(styles[..i]) + StyleText(styles[i]) + "\n\n")
    decreases |styles|
  {
    var init := styles[..|styles| - 1];
    var last := StyleText(styles[|styles| - 1]) + "\n\n";
    var p := StylesBody(styles[..i]) + StyleText(styles[i]) + "\n\n";
    assert StylesBody(styles) == StylesBody(init) + last;
    if i < |styles| - 1 {
      StylesBodyAt(init, i);
      assert init[..i] == styles[..i] && init[i] == styles[i];
      PrefixExtends(StylesBody(init), p, last);
    } else {
      assert init == styles[..i];
      AppendAssoc(StylesBody(init), StyleText(styles[i]), "\n\n");
      PrefixExtends(p, p, []);
      assert p + [] == p;
    }
  }

  /** No match is exactly the notice naming the query; otherwise the text opens with the heading. */
  lemma StylesTextShape(query: string, styles: seq<StyleData>)
    ensures |styles| == 0 ==> StylesText(query, styles) == NoStylesPrefix + query
    ensures |styles| > 0 ==> StartsWith(StylesText(query, styles), MatchingHeading + "\n\n")
    ensures |styles| > 0 ==> StylesText(query, styles)[0] == '#' && NoStylesPrefix[0] == 'N'
  {
    if |styles| > 0 {
      StylesBodyStart(styles);
      assert StylesText(query, styles)[0] == MatchingHeading[0];
    }
  }

  lemma {:induction false} StylesBodyStart(styles: seq<StyleData>)
    ensures StartsWith(StylesBody(styles), MatchingHeading + "\n\n")
  {
    if |styles| > 0 {
      StylesBodyStart(styles[..|styles| - 1]);
    }
  }
}
