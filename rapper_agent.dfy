/**
 * The deterministic parts of the rapper agent: cutting the verse out of
 * the model's last message, the error text `generate_verse` returns instead
 * of raising, and the tool list shown to the model. The model call and the
 * tool-calling graph are an oracle: the final message list, or the text of
 * the exception they raised.
 */
module RapperAgent {
  import opened Wrappers
  import opened Strings

  const Fence: string := "```"
  const ErrorExtracting: string := "Error extracting verse."
  const ErrorGenerating: string := "Error generating verse: "

  /** `not line.strip()`: by `StripEmptyIffAllSpace`, the line is whitespace only. */
  predicate Blank(line: string) {
    AllSpace(line)
  }

  /** The model's preface lines: "I'll ...", "Here's ...", "This is ...". */
  predicate IsPreamble(line: string) {
    StartsWith(line, "I'll") || StartsWith(line, "Here's") || StartsWith(line, "This is")
  }

  /** The line that sets `in_verse`. */
  predicate OpensVerse(line: string) {
    !Blank(line) && !IsPreamble(line)
  }

  /** The index of the first line that opens the verse, or `|lines|` when none does. */
  function VerseStart(lines: seq<string>): (k: nat)
    ensures k <= |lines|
    ensures forall j :: 0 <= j < k ==> !OpensVerse(lines[j])
    ensures k < |lines| ==> OpensVerse(lines[k])
  {
    if |lines| == 0 then 0
    else if OpensVerse(lines[0]) then 0
    else
      var k := VerseStart(lines[1..]);
      assert forall j :: 1 <= j < k + 1 ==> lines[j] == lines[1..][j - 1];
      k + 1
  }

  /** The content holds a fenced block: at least two fences. */
  predicate Fenced(content: string) {
    Contains(content, Fence) && |Split(content, Fence)| >= 3
  }

  /** What `_extract_verse` returns for the content of the last message. */
  function VerseFromContent(content: string): string
  {
    if Fenced(content) then Strip(Split(content, Fence)[1])
    else
      var lines := Split(content, "\n");
      var verse := Strip(Join(lines[VerseStart(lines)..], "\n"));
      if verse == [] then content else verse
  }

  /** `_extract_verse`; an empty message list is its exception path. */
  function ExtractedVerse(messages: seq<string>): string
  {
    if |messages| == 0 then ErrorExtracting else VerseFromContent(messages[|messages| - 1])
  }

  /** The `in_verse` loop: every line from the first one that opens the verse. */
  method KeepVerseLines(lines: seq<string>) returns (kept: seq<string>)
    ensures kept == lines[VerseStart(lines)..]
  {
    ghost var start := VerseStart(lines);
    kept := [];
    var inVerse := false;
    var k := 0;
    while k < |lines|
      invariant 0 <= k <= |lines|
      invariant !inVerse ==> kept == [] && k <= start
      invariant inVerse ==> start < k && kept == lines[start..k]
    {
      var line := lines[k];
      if OpensVerse(line) {
        assert !inVerse ==> start == k;
        inVerse := true;
      } else {
        assert !inVerse ==> k < start;
      }
      if inVerse {
        assert lines[start..k + 1] == lines[start..k] + [line];
        kept := kept + [line];
      }
      k := k + 1;
    }
    if !inVerse {
      assert lines[start..] == [];
    }
  }

  /** `_extract_verse` */
  method ExtractVerse(messages: seq<string>) returns (r: string)
    ensures r == ExtractedVerse(messages)
  {
    if |messages| == 0 {
      return ErrorExtracting;
    }
    var content := messages[|messages| - 1];
    if Contains(content, Fence) {
      var parts := Split(content, Fence);
      if |parts| >= 3 {
        return Strip(parts[1]);
      }
    }
    var kept := KeepVerseLines(Split(content, "\n"));
    var verse := Strip(Join(kept, "\n"));
    if verse == [] {
      return content;
    }
    return verse;
  }

  /** A string with a non-blank first line strips to something non-empty. */
  lemma {:induction false} NonBlankHeadKeeps(s: string)
    requires !Blank(Split(s, "\n")[0])
    ensures Strip(s) != []
  {
    var head := Split(s, "\n")[0];
    SplitHead(s, "\n");
    StripEmptyIffAllSpace(s);
    var i :| 0 <= i < |head| && !IsSpace(head[i]);
    assert s[i] == head[i];
  }

  /** Without fences, a message that starts with verse text is kept whole, only stripped. */
  lemma {:induction false} PlainVerseKept(content: string)
    requires !Contains(content, Fence)
    requires OpensVerse(Split(content, "\n")[0])
    ensures VerseFromContent(content) == Strip(content)
  {
    var lines := Split(content, "\n");
    assert lines[0..] == lines;
    JoinSplit(content, "\n");
    NonBlankHeadKeeps(content);
  }

  /** A preface line before the verse is dropped. */
  lemma {:induction false} PreambleDropped(pre: string, rest: string)
    requires '\n' !in pre && IsPreamble(pre)
    requires !Contains(pre + "\n" + rest, Fence)
    requires OpensVerse(Split(rest, "\n")[0])
    ensures VerseFromContent(pre + "\n" + rest) == Strip(rest)
  {
    SplitFirstPiece(pre, '\n', rest);
    var lines := Split(pre + "\n" + rest, "\n");
    assert lines == [pre] + Split(rest, "\n");
    assert VerseStart(lines) == 1 by {
      assert !OpensVerse(lines[0]);
      assert lines[1..][0] == lines[1];
    }
    assert lines[1..] == Split(rest, "\n");
    JoinSplit(rest, "\n");
    NonBlankHeadKeeps(rest);
  }

  /**
   * Outside a fenced block the result is never empty unless the message is:
   * an all-blank extraction gives back the message itself.
   */
  lemma ExtractionNotEmpty(content: string)
    requires !Fenced(content)
    ensures VerseFromContent(content) == [] ==> content == []
  {
  }

  /** `generate_verse`: the extracted verse, or the error text when anything on the way raised. */
  function GenerateVerse(outcome: Result<seq<string>, string>): (r: string)
    ensures outcome.Err? ==> StartsWith(r, ErrorGenerating) && r[|ErrorGenerating|..] == outcome.error
    ensures outcome.Ok? ==> r == ExtractedVerse(outcome.value)
  {
    match outcome
    case Ok(messages) => ExtractedVerse(messages)
    case Err(message) => ErrorGenerating + message
  }

  /** An MCP tool's `name` and `description` attributes, absent when `getattr` falls back. */
  datatype McpTool = McpTool(name: Option<string>, description: Option<string>)

  const RetrieveToolLine: string :=
    "- retrieve_artist_data: " + "Get artist lyrics and style data " + "from vector store. "
    + "IMPORTANT: Always pass " + "the 'style' parameter " + "when you know the rap style."
  const ToolsIntro: string := "You have access to the following tools:\n"
  const ToolsOutro: string :=
    "\n\nUse these tools to gather information about the rappers when needed. "
    + "LangChain's caching will automatically handle repeated requests."

  function ToolLine(t: McpTool): string {
    "- " + t.name.GetOr("unknown") + ": " + t.description.GetOr("No description available")
  }

  /** The description lines: the vector-store tool first, then one line per MCP tool in order. */
  function ToolLines(tools: seq<McpTool>): (lines: seq<string>)
    ensures |lines| == |tools| + 1 && lines[0] == RetrieveToolLine
    ensures forall i :: 0 <= i < |tools| ==> lines[i + 1] == ToolLine(tools[i])
  {
    [RetrieveToolLine] + seq(|tools|, i requires 0 <= i < |tools| => ToolLine(tools[i]))
  }

  /** `_get_available_tools_info` */
  method GetAvailableToolsInfo(tools: seq<McpTool>) returns (info: string)
    ensures info == ToolsIntro + Join(ToolLines(tools), "\n") + ToolsOutro
  {
    var descriptions := [RetrieveToolLine];
    var k := 0;
    while k < |tools|
      invariant 0 <= k <= |tools|
      invariant descriptions == ToolLines(tools[..k])
    {
      var name := if tools[k].name.Some? then tools[k].name.value else "unknown";
      var description := if tools[k].description.Some? then tools[k].description.value else "No description available";
      assert ToolLines(tools[..k + 1]) == ToolLines(tools[..k]) + [ToolLine(tools[k])];
      descriptions := descriptions + ["- " + name + ": " + description];
      k := k + 1;
    }
    assert tools[..k] == tools;
    if |descriptions| == 0 {
      // `return ""`: unreachable, the list always holds the vector-store line
      assert false;
    }
    info := ToolsIntro + Join(descriptions, "\n") + ToolsOutro;
  }

  lemma RetrieveToolLineOneLine()
    ensures '\n' !in RetrieveToolLine
  {
    FirstHalfOneLine();
    SecondHalfOneLine();
    CharNotInConcat("- retrieve_artist_data: " + "Get artist lyrics and style data " + "from vector store. ",
                    "IMPORTANT: Always pass " + "the 'style' parameter " + "when you know the rap style.", '\n');
    AppendAssoc("- retrieve_artist_data: " + "Get artist lyrics and style data " + "from vector store. ",
                "IMPORTANT: Always pass " + "the 'style' parameter ", "when you know the rap style.");
    AppendAssoc("- retrieve_artist_data: " + "Get artist lyrics and style data " + "from vector store. ",
                "IMPORTANT: Always pass ", "the 'style' parameter ");
  }

  lemma FirstHalfOneLine()
    ensures '\n' !in "- retrieve_artist_data: " + "Get artist lyrics and style data " + "from vector store. "
  {
  }

  lemma SecondHalfOneLine()
    ensures '\n' !in "IMPORTANT: Always pass " + "the 'style' parameter " + "when you know the rap style."
  {
  }

  /**
   * The tool block lists one line per tool, the vector-store tool first,
   * when no tool name or description contains a line break.
   */
  lemma {:induction false} ToolsListedOnePerLine(tools: seq<McpTool>)
    requires forall i :: 0 <= i < |tools| ==> '\n' !in ToolLine(tools[i])
    ensures Split(Join(ToolLines(tools), "\n"), "\n") == ToolLines(tools)
    ensures Split(Join(ToolLines(tools), "\n"), "\n")[0] == RetrieveToolLine
  {
    RetrieveToolLineOneLine();
    var lines := ToolLines(tools);
    assert forall i :: 0 <= i < |lines| ==> '\n' !in lines[i] by {
      forall i | 0 <= i < |lines|
        ensures '\n' !in lines[i]
      {
        if i > 0 {
          assert lines[i] == ToolLine(tools[i - 1]);
        }
      }
    }
    SplitJoin(lines, '\n');
  }
}
