/**
 * The web search tool: how search results are rendered for the model, and
 * the query `get_rapper_info` sends. The search service is an oracle from
 * query to the `results` list of its response.
 */
module SearchTool {
  import opened Wrappers
  import opened Strings

  /** One item of the response's `results`; `None` is a missing key. */
  datatype SearchResult = SearchResult(title: Option<string>, content: Option<string>, url: Option<string>)

  const NoInformation: string := "No information found."
  const ResultsHeading: string := "### Search Results"

  function Title(r: SearchResult): string { r.title.GetOr("No title") }
  function Content(r: SearchResult): string { r.content.GetOr("No content") }
  function Url(r: SearchResult): string { r.url.GetOr("No URL") }

  /** The text after the first `k` loop turns: the heading, then the entries numbered from 1 in list order. */
  function Body(rs: seq<SearchResult>): string {
    if |rs| == 0 then ResultsHeading + "\n\n"
    else
      var r := rs[|rs| - 1];
      Body(rs[..|rs| - 1]) + "**" + NatToString(|rs|) + ". " + Title(r) + "**\n" + Content(r) + "\n"
        + "Source: " + Url(r) + "\n\n"
  }

  /** What `_format_results` returns. */
  function FormattedResults(rs: seq<SearchResult>): string {
    if |rs| == 0 then NoInformation else Body(rs)
  }

  /** `_format_results` */
  method FormatResults(results: seq<SearchResult>) returns (text: string)
    ensures text == FormattedResults(results)
  {
    if |results| == 0 {
      return NoInformation;
    }
    text := "### Search Results\n\n";
    var k := 0;
    while k < |results|
      invariant 0 <= k <= |results|
      invariant text == Body(results[..k])
    {
      assert results[..k + 1][..k] == results[..k];
      var i := k + 1;
      var title := if results[k].title.Some? then results[k].title.value else "No title";
      var content := if results[k].content.Some? then results[k].content.value else "No content";
      var url := if results[k].url.Some? then results[k].url.value else "No URL";
      text := text + "**" + NatToString(i) + ". " + title + "**\n";
      text := text + content + "\n";
      text := text + "Source: " + url + "\n\n";
      k := k + 1;
    }
    assert results[..k] == results;
  }

  /** The lines of the entry numbered `i`: its title line, content, source and a blank line. */
  function EntryLines(i: nat, r: SearchResult): seq<string> {
    ["**" + NatToString(i) + ". " + Title(r) + "**", Content(r), "Source: " + Url(r), ""]
  }

  function AllEntryLines(rs: seq<SearchResult>): (lines: seq<string>)
    ensures |lines| == 4 * |rs|
  {
    if |rs| == 0 then [] else AllEntryLines(rs[..|rs| - 1]) + EntryLines(|rs|, rs[|rs| - 1])
  }

  /** The rendered text is the heading, a blank line and the entry lines, each line followed by a break. */
  lemma {:induction false} BodyIsLines(rs: seq<SearchResult>)
    ensures Body(rs) == Terminated([ResultsHeading, ""] + AllEntryLines(rs))
  {
    if |rs| == 0 {
      var h := [ResultsHeading, ""];
      assert h[..1] == [ResultsHeading] && [ResultsHeading][..0] == [];
      assert Terminated([ResultsHeading]) == ResultsHeading + "\n";
      assert [ResultsHeading, ""] + AllEntryLines(rs) == h;
    } else {
      var init := rs[..|rs| - 1];
      var e := EntryLines(|rs|, rs[|rs| - 1]);
      BodyIsLines(init);
      BodyStep(rs);
      TerminatedAppend([ResultsHeading, ""] + AllEntryLines(init), e);
      assert [ResultsHeading, ""] + AllEntryLines(rs) == ([ResultsHeading, ""] + AllEntryLines(init)) + e;
    }
  }

  /** One loop turn appends the entry's lines. */
  lemma BodyStep(rs: seq<SearchResult>)
    requires |rs| > 0
    ensures Body(rs) == Body(rs[..|rs| - 1]) + Terminated(EntryLines(|rs|, rs[|rs| - 1]))
  {
    var r := rs[|rs| - 1];
    EntryTerminated(|rs|, r);
    EntryRegroup(Body(rs[..|rs| - 1]), "**", NatToString(|rs|), ". ", Title(r), "**\n", Content(r), "\n", "Source: ", Url(r), "\n\n");
  }

  lemma EntryRegroup(b: string, s1: string, n: string, s2: string, t: string, s3: string, c: string, s4: string,
                s5: string, u: string, s6: string)
    ensures b + s1 + n + s2 + t + s3 + c + s4 + s5 + u + s6 == b + ((s1 + n + s2 + t + s3) + (c + s4) + (s5 + u + s6))
  {
  }

  lemma EntryTerminated(i: nat, r: SearchResult)
    ensures Terminated(EntryLines(i, r))
      == ("**" + NatToString(i) + ". " + Title(r) + "**\n") + (Content(r) + "\n") + ("Source: " + Url(r) + "\n\n")
  {
    var e := EntryLines(i, r);
    assert e[..3] == [e[0], e[1], e[2]] && e[..2] == [e[0], e[1]] && e[..1] == [e[0]];
    assert [e[0], e[1], e[2]][..2] == e[..2] && [e[0], e[1]][..1] == e[..1] && [e[0]][..0] == [];
    assert Terminated(e[..1]) == e[0] + "\n";
    assert Terminated(e[..2]) == e[0] + "\n" + e[1] + "\n";
    assert Terminated(e[..3]) == e[0] + "\n" + e[1] + "\n" + e[2] + "\n";
    assert Terminated(e) == e[0] + "\n" + e[1] + "\n" + e[2] + "\n" + "" + "\n";
  }

  /** Entry `i` of the list occupies lines `4i` to `4i + 3` of the entry block. */
  lemma {:induction false} EntryLinesAt(rs: seq<SearchResult>, i: nat)
    requires i < |rs|
    ensures AllEntryLines(rs)[4 * i..4 * i + 4] == EntryLines(i + 1, rs[i])
  {
    var init := rs[..|rs| - 1];
    if i < |rs| - 1 {
      EntryLinesAt(init, i);
      assert AllEntryLines(rs)[4 * i..4 * i + 4] == AllEntryLines(init)[4 * i..4 * i + 4];
    } else {
      assert AllEntryLines(rs)[4 * i..4 * i + 4] == EntryLines(|rs|, rs[|rs| - 1]);
    }
  }

  predicate OneLine(r: SearchResult) {
    '\n' !in Title(r) && '\n' !in Content(r) && '\n' !in Url(r)
  }

  /**
   * Without line breaks inside the fields, the output's lines are the
   * heading, a blank line, then four lines per result in list order: its
   * number from 1 and title in bold, its content, its source, a blank line.
   */
  lemma FormattedResultsLines(rs: seq<SearchResult>)
    requires |rs| > 0
    requires forall i :: 0 <= i < |rs| ==> OneLine(rs[i])
    ensures var lines := Split(FormattedResults(rs), "\n");
      && |lines| == 4 * |rs| + 3
      && lines[0] == ResultsHeading && lines[1] == "" && lines[|lines| - 1] == ""
      && forall i :: 0 <= i < |rs| ==> lines[2 + 4 * i..6 + 4 * i] == EntryLines(i + 1, rs[i])
  {
    var body := [ResultsHeading, ""] + AllEntryLines(rs);
    BodyIsLines(rs);
    BodyOneLine(rs);
    TerminatedLines(body);
    assert Split(FormattedResults(rs), "\n") == body + [""];
    EntriesInLines(rs, [ResultsHeading, ""], body + [""]);
  }

  /** No line of the rendered body holds a line break. */
  lemma BodyOneLine(rs: seq<SearchResult>)
    requires forall i :: 0 <= i < |rs| ==> OneLine(rs[i])
    ensures var body := [ResultsHeading, ""] + AllEntryLines(rs);
      forall j :: 0 <= j < |body| ==> '\n' !in body[j]
  {
    var body := [ResultsHeading, ""] + AllEntryLines(rs);
    forall j | 0 <= j < |body| ensures '\n' !in body[j] {
      if j >= 2 {
        var i := (j - 2) / 4;
        EntryLinesAt(rs, i);
        NumberLineOneLine(i + 1, rs[i]);
        assert body[j] == EntryLines(i + 1, rs[i])[(j - 2) - 4 * i];
      }
    }
  }

  /** The entries sit four lines apiece after the two opening lines. */
  lemma EntriesInLines(rs: seq<SearchResult>, h: seq<string>, lines: seq<string>)
    requires |h| == 2 && lines == h + AllEntryLines(rs) + [""]
    ensures forall i :: 0 <= i < |rs| ==> lines[2 + 4 * i..6 + 4 * i] == EntryLines(i + 1, rs[i])
  {
    forall i | 0 <= i < |rs| ensures lines[2 + 4 * i..6 + 4 * i] == EntryLines(i + 1, rs[i]) {
      EntryInLines(rs, h, lines, i);
    }
  }

  lemma EntryInLines(rs: seq<SearchResult>, h: seq<string>, lines: seq<string>, i: nat)
    requires |h| == 2 && lines == h + AllEntryLines(rs) + [""] && i < |rs|
    ensures 6 + 4 * i <= |lines| && lines[2 + 4 * i..6 + 4 * i] == EntryLines(i + 1, rs[i])
  {
    EntryLinesAt(rs, i);
    BlockAt(h, AllEntryLines(rs), lines, i, EntryLines(i + 1, rs[i]));
  }

  lemma BlockAt(h: seq<string>, e: seq<string>, lines: seq<string>, i: nat, x: seq<string>)
    requires |h| == 2 && lines == h + e + [""] && 4 * i + 4 <= |e| && e[4 * i..4 * i + 4] == x
    ensures 6 + 4 * i <= |lines| && lines[2 + 4 * i..6 + 4 * i] == x
  {
    SliceMiddle(h, e, [""], 4 * i, 4 * i + 4);
  }

  lemma NumberLineOneLine(i: nat, r: SearchResult)
    requires OneLine(r)
    ensures forall j :: 0 <= j < 4 ==> '\n' !in EntryLines(i, r)[j]
  {
    NatToStringDigits(i);
  }

  /** `get_rapper_info`'s query. */
  function RapperQuery(rapperName: string): string {
    rapperName + " rapper biography facts style"
  }

  /** `search`: the results of the query, rendered; a response without `results` renders as none. */
  method Search(query: string, respond: string -> Option<seq<SearchResult>>) returns (text: string)
    ensures text == FormattedResults(respond(query).GetOr([]))
  {
    var results := respond(query).GetOr([]);
    text := FormatResults(results);
  }

  /** `get_rapper_info` */
  method GetRapperInfo(rapperName: string, respond: string -> Option<seq<SearchResult>>) returns (text: string)
    ensures text == FormattedResults(respond(RapperQuery(rapperName)).GetOr([]))
  {
    text := Search(rapperName + " rapper biography facts style", respond);
  }

  lemma {:induction false} BodyStart(rs: seq<SearchResult>)
    ensures StartsWith(Body(rs), ResultsHeading + "\n\n")
  {
    if |rs| > 0 {
      BodyStart(rs[..|rs| - 1]);
    }
  }

  /** No results is exactly the notice; otherwise the text opens with the heading and a blank line. */
  lemma FormattedResultsShape(rs: seq<SearchResult>)
    ensures |rs| == 0 <==> FormattedResults(rs) == NoInformation
    ensures |rs| > 0 ==> StartsWith(FormattedResults(rs), ResultsHeading + "\n\n")
  {
    if |rs| > 0 {
      BodyStart(rs);
      var t := FormattedResults(rs);
      assert t[0] == '#';
      assert NoInformation[0] == 'N';
    }
  }
}
