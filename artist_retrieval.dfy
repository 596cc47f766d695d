/**
 * The artist retrieval tool: how the vector store is queried for an
 * artist and for similar artists, and how the documents found are
 * rendered. The vector store search is an oracle from (query, k) to the
 * documents found, `None` when the search raises.
 */
module ArtistRetrieval {
  import opened Wrappers
  import opened Strings
  import opened Lyrics
  import opened Artist
  import opened StringOrder

  /** The `genres` entry of a document's metadata: a list, or any other value. */
  datatype Genres = GenreList(items: seq<string>) | NotAList

  /** The `songs_count` entry: an int, a float, or any other value. */
  datatype SongsCount = IntCount(n: int) | FloatCount(x: real) | OtherCount

  /**
   * A document's metadata. `artist` is `None` when the key is absent; the
   * other entries hold their default when absent (`""`, `[]`, `0`).
   */
  datatype Doc = Doc(artist: Option<PyValue>, lyric: string, genres: Genres, songsCount: SongsCount)

  const DefaultK: int := 5
  const MaxK: int := 10
  const PreviewLength: nat := 1500
  const ShownDocs: nat := 3

  /** `min(k or 5, 10)` */
  function EffectiveK(k: Option<int>): int {
    var asked := if k.None? || k.value == 0 then DefaultK else k.value;
    if asked < MaxK then asked else MaxK
  }

  /** The effective k never exceeds 10, is 5 when k is missing or 0, and is k itself otherwise up to the cap. */
  lemma EffectiveKSpec(k: Option<int>)
    ensures EffectiveK(k) <= MaxK
    ensures k.None? || k == Some(0) ==> EffectiveK(k) == 5
    ensures k.Some? && k.value != 0 && k.value <= MaxK ==> EffectiveK(k) == k.value
    ensures k.Some? && k.value >= MaxK ==> EffectiveK(k) == MaxK
  {
  }

  /** `if style:` */
  predicate Given(style: Option<string>) {
    style.Some? && |style.value| > 0
  }

  function SearchQuery(artistName: string, style: Option<string>): string {
    if Given(style) then artistName + " " + style.value + " rap lyrics style flow"
    else artistName + " rap lyrics style"
  }

  function StyleQuery(style: Option<string>): string {
    if Given(style) then style.value + " rap lyrics style flow technique" else "rap lyrics style flow technique"
  }

  /** The style words appear in both queries, right after the name and at the start, only when a style is given. */
  lemma QueriesSpec(artistName: string, style: Option<string>)
    ensures Given(style) ==> SearchQuery(artistName, style)[..|artistName| + 1 + |style.value|]
                               == artistName + " " + style.value
    ensures Given(style) ==> StartsWith(StyleQuery(style), style.value)
    ensures !Given(style) ==> SearchQuery(artistName, style) == artistName + " rap lyrics style"
    ensures !Given(style) ==> StyleQuery(style) == "rap lyrics style flow technique"
  {
    if Given(style) {
      var q := SearchQuery(artistName, style);
      assert q == (artistName + " " + style.value) + " rap lyrics style flow";
    }
  }

  /** `_safe_search`: a failed search is no documents. */
  method SafeSearch(query: string, k: int, search: (string, int) -> Option<seq<Doc>>) returns (docs: seq<Doc>)
    ensures search(query, k).Some? ==> docs == search(query, k).value
    ensures search(query, k).None? ==> docs == []
  {
    var found := search(query, k);
    if found.None? {
      return [];
    }
    return found.value;
  }

  /** The similar-artists search, as (query, k), when it runs. */
  function SimilarRequest(k: int, includeSimilar: bool, found: nat, style: Option<string>): Option<(string, int)> {
    if includeSimilar && found < k then Some((StyleQuery(style), (k - found) * 2)) else None
  }

  /**
   * The similar search runs exactly when it is asked for and fewer than k
   * artist documents came back; it asks for twice the shortfall, which is
   * never more than 20 documents.
   */
  lemma SimilarRequestSpec(kArg: Option<int>, includeSimilar: bool, found: nat, style: Option<string>)
    ensures var req := SimilarRequest(EffectiveK(kArg), includeSimilar, found, style);
      && (req.Some? <==> includeSimilar && found < EffectiveK(kArg))
      && (req.Some? ==> req.value.1 == 2 * (EffectiveK(kArg) - found) && 0 < req.value.1 <= 2 * MaxK)
  {
  }

  /** `doc.metadata.get("artist", "")` */
  function ArtistKey(d: Doc): PyValue {
    d.artist.GetOr(PyStr(""))
  }

  /** The document is by someone else, compared case-insensitively. */
  predicate ByOther(d: Doc, artistName: string) {
    ArtistKey(d).PyStr? && Lower(ArtistKey(d).s) != Lower(artistName)
  }

  /**
   * The comprehension that drops the queried artist's own documents; an
   * `artist` that is not a string has no `lower` and raises.
   */
  function KeepOthers(all: seq<Doc>, artistName: string): Result<seq<Doc>, PyValue>
    decreases |all|
  {
    if |all| == 0 then Ok([])
    else
      match ArtistKey(all[0])
      case PyStr(s) =>
        var rest :- KeepOthers(all[1..], artistName);
        Ok(if Lower(s) != Lower(artistName) then [all[0]] + rest else rest)
      case _ => Err(ArtistKey(all[0]))
  }

  /**
   * The filter fails iff some artist is not a string, and then on the first
   * such; otherwise it keeps exactly the documents by someone else, in order.
   */
  lemma {:induction false} KeepOthersSpec(all: seq<Doc>, artistName: string)
    ensures KeepOthers(all, artistName).Ok? <==> forall i :: 0 <= i < |all| ==> ArtistKey(all[i]).PyStr?
    ensures KeepOthers(all, artistName).Ok? ==>
      var kept := KeepOthers(all, artistName).value;
      && |kept| <= |all|
      && forall d :: d in kept <==> d in all && ByOther(d, artistName)
    ensures KeepOthers(all, artistName).Err? ==>
      exists i :: (0 <= i < |all| && ArtistKey(all[i]) == KeepOthers(all, artistName).error
        && !ArtistKey(all[i]).PyStr? && forall j :: 0 <= j < i ==> ArtistKey(all[j]).PyStr?)
    decreases |all|
  {
    if |all| > 0 {
      KeepOthersSpec(all[1..], artistName);
      assert forall i :: 1 <= i < |all| ==> all[i] == all[1..][i - 1];
      assert all == [all[0]] + all[1..];
      var r := KeepOthers(all, artistName);
      if ArtistKey(all[0]).PyStr? && r.Err? {
        var e := KeepOthers(all[1..], artistName);
        var i :| 0 <= i < |all[1..]| && ArtistKey(all[1..][i]) == e.error
          && !ArtistKey(all[1..][i]).PyStr? && forall j :: 0 <= j < i ==> ArtistKey(all[1..][j]).PyStr?;
        assert ArtistKey(all[i + 1]) == r.error;
        assert forall j :: 0 <= j < i + 1 ==> ArtistKey(all[j]).PyStr? by {
          forall j | 0 <= j < i + 1 ensures ArtistKey(all[j]).PyStr? {
            if j > 0 {
              assert all[j] == all[1..][j - 1];
            }
          }
        }
      }
    }
  }

  /** `xs[:n]` for `n >= 0` */
  function Take<T>(xs: seq<T>, n: nat): (r: seq<T>)
    ensures |r| <= n && |r| <= |xs| && r == xs[..|r|]
    ensures |xs| <= n ==> r == xs
  {
    if |xs| <= n then xs else xs[..n]
  }

  /** The artist documents and the similar documents, or the artist value the filter raised on. */
  function Retrieval(artistName: string, style: Option<string>, kArg: Option<int>, includeSimilar: bool,
                     search: (string, int) -> Option<seq<Doc>>): Result<(seq<Doc>, seq<Doc>), PyValue>
  {
    var k := EffectiveK(kArg);
    var artistDocs := search(SearchQuery(artistName, style), k).GetOr([]);
    match SimilarRequest(k, includeSimilar, |artistDocs|, style)
    case None => Ok((artistDocs, []))
    case Some((query, n)) =>
      var kept :- KeepOthers(search(query, n).GetOr([]), artistName);
      Ok((artistDocs, Take(kept, k - |artistDocs|)))
  }

  /**
   * Similar documents come only from the similar search when it runs, are
   * all by other artists, and never bring the total above k.
   */
  lemma RetrievalSpec(artistName: string, style: Option<string>, kArg: Option<int>, includeSimilar: bool,
                      search: (string, int) -> Option<seq<Doc>>)
    requires Retrieval(artistName, style, kArg, includeSimilar, search).Ok?
    ensures var r := Retrieval(artistName, style, kArg, includeSimilar, search).value;
      var artistDocs, similarDocs := r.0, r.1;
      && artistDocs == search(SearchQuery(artistName, style), EffectiveK(kArg)).GetOr([])
      && (|similarDocs| > 0 ==> includeSimilar && |artistDocs| + |similarDocs| <= EffectiveK(kArg))
      && (forall d :: d in similarDocs ==> ByOther(d, artistName))
      && (forall d :: d in similarDocs ==>
            d in search(StyleQuery(style), 2 * (EffectiveK(kArg) - |artistDocs|)).GetOr([]))
  {
    var k := EffectiveK(kArg);
    var artistDocs := search(SearchQuery(artistName, style), k).GetOr([]);
    var req := SimilarRequest(k, includeSimilar, |artistDocs|, style);
    if req.Some? {
      var all := search(req.value.0, req.value.1).GetOr([]);
      var similar := Take(KeepOthers(all, artistName).value, k - |artistDocs|);
      assert Retrieval(artistName, style, kArg, includeSimilar, search).value == (artistDocs, similar);
      SimilarFromKept(all, artistName, k - |artistDocs|);
      assert req.value.1 == 2 * (k - |artistDocs|);
    } else {
      assert Retrieval(artistName, style, kArg, includeSimilar, search).value == (artistDocs, []);
    }
  }

  /** The similar documents kept are at most `m` of the search's documents, all by other artists. */
  lemma SimilarFromKept(all: seq<Doc>, artistName: string, m: nat)
    requires KeepOthers(all, artistName).Ok?
    ensures var similar := Take(KeepOthers(all, artistName).value, m);
      && |similar| <= m
      && forall d :: d in similar ==> d in all && ByOther(d, artistName)
  {
    KeepOthersSpec(all, artistName);
    var kept := KeepOthers(all, artistName).value;
    assert forall d :: d in Take(kept, m) ==> d in kept;
  }

  /** `full_lyrics[:1500] + "..."` when longer than 1500 characters. */
  function Preview(lyric: string): (r: string)
    ensures |r| <= PreviewLength + 3
    ensures |lyric| <= PreviewLength ==> r == lyric
    ensures |lyric| > PreviewLength ==>
      |r| == PreviewLength + 3 && r[..PreviewLength] == lyric[..PreviewLength] && r[PreviewLength..] == "..."
  {
    if |lyric| > PreviewLength then lyric[..PreviewLength] + "..." else lyric
  }

  /** The sample parts of the first documents, numbered from 1. */
  function SampleParts(docs: seq<Doc>): seq<string> {
    if |docs| == 0 then []
    else
      var d := docs[|docs| - 1];
      SampleParts(docs[..|docs| - 1])
        + (if |d.lyric| > 0 then ["\nLyrics Sample " + NatToString(|docs|) + ":", Preview(d.lyric)] else [])
  }

  function ListedGenres(d: Doc): set<string> {
    match d.genres
    case GenreList(items) => set g | g in items
    case NotAList => {}
  }

  /** `all_genres` after the first documents. */
  function GenresOf(docs: seq<Doc>): set<string> {
    if |docs| == 0 then {} else GenresOf(docs[..|docs| - 1]) + ListedGenres(docs[|docs| - 1])
  }

  /** `int(songs_count)` for a number, nothing otherwise. */
  function SongsOf(d: Doc): int {
    match d.songsCount
    case IntCount(n) => n
    case FloatCount(x) => Trunc(x)
    case OtherCount => 0
  }

  /** `total_songs` after the first documents. */
  function SongsTotal(docs: seq<Doc>): int {
    if |docs| == 0 then 0 else SongsTotal(docs[..|docs| - 1]) + SongsOf(docs[|docs| - 1])
  }

  /** The artist section: samples of the first three documents, their genres and songs, and the count. */
  function ArtistParts(artistName: string, artistDocs: seq<Doc>): seq<string> {
    if |artistDocs| == 0 then ["\n--- NO SPECIFIC DATA FOUND FOR " + artistName + " ---"]
    else
      var shown := Take(artistDocs, ShownDocs);
      ["\n--- " + artistName + " LYRICS & STYLE ---"]
        + SampleParts(shown)
        + (if GenresOf(shown) != {} then ["\nGenres: " + Join(SortedSet(GenresOf(shown)), ", ")] else [])
        + (if SongsTotal(shown) > 0 then ["Total Songs in Database: " + IntToString(SongsTotal(shown))] else [])
        + ["Retrieved " + NatToString(|artistDocs|) + " lyrical samples from " + artistName]
  }

  /** `str(artist)` for `doc.metadata.get("artist", "Unknown")`. */
  function Label(d: Doc): string {
    match d.artist
    case None => "Unknown"
    case Some(PyStr(s)) => s
    case Some(PyNone) => "None"
    case Some(PyOther(t)) => t
  }

  /** The style examples of the first similar documents. */
  function ExampleParts(docs: seq<Doc>): seq<string> {
    if |docs| == 0 then []
    else
      var d := docs[|docs| - 1];
      ExampleParts(docs[..|docs| - 1])
        + (if |d.lyric| > 0 then ["\n" + Label(d) + " Style Example:", Preview(d.lyric)] else [])
  }

  /** `similar_artists` after the first documents. */
  function LabelsOf(docs: seq<Doc>): set<string> {
    if |docs| == 0 then {} else LabelsOf(docs[..|docs| - 1]) + {Label(docs[|docs| - 1])}
  }

  function SimilarHeading(style: Option<string>): string {
    "\n--- SIMILAR " + (if Given(style) then Upper(style.value) else "RAP") + " ARTISTS ---"
  }

  /** The similar-artists section, absent when there are no similar documents. */
  function SimilarParts(similarDocs: seq<Doc>, style: Option<string>): seq<string> {
    if |similarDocs| == 0 then []
    else
      var shown := Take(similarDocs, ShownDocs);
      [SimilarHeading(style)]
        + ExampleParts(shown)
        + ["\nSimilar Artists Found: " + Join(SortedSet(LabelsOf(shown)), ", ")]
  }

  function Header(artistName: string, style: Option<string>): string {
    "=== ARTIST DATA: " + artistName + (if Given(style) then " (" + style.value + ")" else "") + " ==="
  }

  function TotalLine(count: nat): string {
    "Total Documents Retrieved: " + NatToString(count)
  }

  function NoDataNotice(artistName: string): string {
    "\nNo lyrical data found for " + artistName + ". Consider using general rap style characteristics."
  }

  function FooterParts(artistName: string, artistDocs: seq<Doc>, similarDocs: seq<Doc>): seq<string> {
    ["\n=== END ARTIST DATA ===", TotalLine(|artistDocs| + |similarDocs|)]
      + (if |artistDocs| == 0 && |similarDocs| == 0 then [NoDataNotice(artistName)] else [])
  }

  /** `result_parts` at the end of `_format_results`. */
  function ResultParts(artistName: string, artistDocs: seq<Doc>, similarDocs: seq<Doc>, style: Option<string>): seq<string> {
    [Header(artistName, style)]
      + ArtistParts(artistName, artistDocs)
      + SimilarParts(similarDocs, style)
      + FooterParts(artistName, artistDocs, similarDocs)
  }

  /** What `_format_results` returns. */
  function ResultsText(artistName: string, artistDocs: seq<Doc>, similarDocs: seq<Doc>, style: Option<string>): string {
    Join(ResultParts(artistName, artistDocs, similarDocs, style), "\n")
  }

  function SamplePart(i: nat, d: Doc): seq<string> {
    if |d.lyric| > 0 then ["\nLyrics Sample " + NatToString(i) + ":", Preview(d.lyric)] else []
  }

  lemma SampleStep(docs: seq<Doc>, k: nat)
    requires k < |docs|
    ensures SampleParts(docs[..k + 1]) == SampleParts(docs[..k]) + SamplePart(k + 1, docs[k])
    ensures GenresOf(docs[..k + 1]) == GenresOf(docs[..k]) + ListedGenres(docs[k])
    ensures SongsTotal(docs[..k + 1]) == SongsTotal(docs[..k]) + SongsOf(docs[k])
  {
    assert docs[..k + 1][..k] == docs[..k];
  }

  /** The artist section of `_format_results`, with its `all_genres` set and `total_songs` counter. */
  method ArtistSection(artistName: string, artistDocs: seq<Doc>) returns (parts: seq<string>)
    ensures parts == ArtistParts(artistName, artistDocs)
  {
    if |artistDocs| == 0 {
      return ["\n--- NO SPECIFIC DATA FOUND FOR " + artistName + " ---"];
    }
    parts := ["\n--- " + artistName + " LYRICS & STYLE ---"];
    var allGenres: set<string> := {};
    var totalSongs := 0;
    var docs := Take(artistDocs, ShownDocs);
    var k := 0;
    while k < |docs|
      invariant 0 <= k <= |docs|
      invariant parts == ["\n--- " + artistName + " LYRICS & STYLE ---"] + SampleParts(docs[..k])
      invariant allGenres == GenresOf(docs[..k])
      invariant totalSongs == SongsTotal(docs[..k])
    {
      SampleStep(docs, k);
      var i := k + 1;
      var doc := docs[k];
      var fullLyrics := doc.lyric;
      ghost var before := parts;
      if |fullLyrics| > 0 {
        var lyricsPreview := Preview(fullLyrics);
        parts := parts + ["\nLyrics Sample " + NatToString(i) + ":"];
        parts := parts + [lyricsPreview];
      }
      assert parts == before + SamplePart(i, doc);
      AppendAssoc(["\n--- " + artistName + " LYRICS & STYLE ---"], SampleParts(docs[..k]), SamplePart(i, doc));
      match doc.genres {
        case GenreList(items) =>
          allGenres := allGenres + set g | g in items;
        case NotAList =>
      }
      match doc.songsCount {
        case IntCount(n) =>
          totalSongs := totalSongs + n;
        case FloatCount(x) =>
          totalSongs := totalSongs + Trunc(x);
        case OtherCount =>
      }
      k := k + 1;
    }
    assert docs[..k] == docs;
    if allGenres != {} {
      parts := parts + ["\nGenres: " + Join(SortedSet(allGenres), ", ")];
    }
    if totalSongs > 0 {
      parts := parts + ["Total Songs in Database: " + IntToString(totalSongs)];
    }
    parts := parts + ["Retrieved " + NatToString(|artistDocs|) + " lyrical samples from " + artistName];
  }

  function ExamplePart(d: Doc): seq<string> {
    if |d.lyric| > 0 then ["\n" + Label(d) + " Style Example:", Preview(d.lyric)] else []
  }

  lemma ExampleStep(docs: seq<Doc>, k: nat)
    requires k < |docs|
    ensures ExampleParts(docs[..k + 1]) == ExampleParts(docs[..k]) + ExamplePart(docs[k])
    ensures LabelsOf(docs[..k + 1]) == LabelsOf(docs[..k]) + {Label(docs[k])}
  {
    assert docs[..k + 1][..k] == docs[..k];
  }

  /** One similar artist's example: its heading line and lyric preview, when it has lyrics. */
  method AppendExample(parts: seq<string>, doc: Doc) returns (extended: seq<string>)
    ensures extended == parts + ExamplePart(doc)
  {
    extended := parts;
    var fullLyrics := doc.lyric;
    if |fullLyrics| > 0 {
      var lyricsPreview := Preview(fullLyrics);
      extended := extended + ["\n" + Label(doc) + " Style Example:"];
      extended := extended + [lyricsPreview];
    }
  }

  /** The similar-artists section of `_format_results`, with its `similar_artists` set. */
  method SimilarSection(similarDocs: seq<Doc>, style: Option<string>) returns (parts: seq<string>)
    ensures parts == SimilarParts(similarDocs, style)
  {
    if |similarDocs| == 0 {
      return [];
    }
    var heading := if style.Some? && |style.value| > 0 then Upper(style.value) else "RAP";
    parts := ["\n--- SIMILAR " + heading + " ARTISTS ---"];
    assert parts == [SimilarHeading(style)] + ExampleParts([]);
    var similarArtists: set<string> := {};
    var docs := Take(similarDocs, ShownDocs);
    var k := 0;
    while k < |docs|
      invariant 0 <= k <= |docs|
      invariant parts == [SimilarHeading(style)] + ExampleParts(docs[..k])
      invariant similarArtists == LabelsOf(docs[..k])
    {
      ExampleStep(docs, k);
      var doc := docs[k];
      var artist := Label(doc);
      similarArtists := similarArtists + {artist};
      parts := AppendExample(parts, doc);
      AppendAssoc([SimilarHeading(style)], ExampleParts(docs[..k]), ExamplePart(doc));
      k := k + 1;
    }
    assert docs[..k] == docs;
    parts := parts + ["\nSimilar Artists Found: " + Join(SortedSet(similarArtists), ", ")];
  }

  /** `_format_results` */
  method FormatResults(artistName: string, artistDocs: seq<Doc>, similarDocs: seq<Doc>, style: Option<string>)
    returns (text: string)
    ensures text == ResultsText(artistName, artistDocs, similarDocs, style)
  {
    var styleText := if style.Some? && |style.value| > 0 then " (" + style.value + ")" else "";
    var resultParts := ["=== ARTIST DATA: " + artistName + styleText + " ==="];
    assert resultParts == [Header(artistName, style)];
    var artistSection := ArtistSection(artistName, artistDocs);
    resultParts := resultParts + artistSection;
    var similarSection := SimilarSection(similarDocs, style);
    resultParts := resultParts + similarSection;
    ghost var body := resultParts;
    resultParts := resultParts + ["\n=== END ARTIST DATA ==="];
    resultParts := resultParts + ["Total Documents Retrieved: " + NatToString(|artistDocs| + |similarDocs|)];
    if |artistDocs| == 0 && |similarDocs| == 0 {
      resultParts := resultParts + [NoDataNotice(artistName)];
    }
    assert resultParts == body + FooterParts(artistName, artistDocs, similarDocs);
    assert resultParts == ResultParts(artistName, artistDocs, similarDocs, style);
    text := Join(resultParts, "\n");
  }

  /** `_arun`: the rendering of what was retrieved, or the error text when the filter raised. */
  method Arun(artistName: string, style: Option<string>, kArg: Option<int>, includeSimilar: bool,
              search: (string, int) -> Option<seq<Doc>>, errorText: PyValue -> string)
    returns (text: string)
    ensures Retrieval(artistName, style, kArg, includeSimilar, search).Ok? ==>
      var r := Retrieval(artistName, style, kArg, includeSimilar, search).value;
      text == ResultsText(artistName, r.0, r.1, style)
    ensures Retrieval(artistName, style, kArg, includeSimilar, search).Err? ==>
      text == "Error retrieving data for " + artistName + ": "
                + errorText(Retrieval(artistName, style, kArg, includeSimilar, search).error)
  {
    ghost var r := Retrieval(artistName, style, kArg, includeSimilar, search);
    var k := EffectiveK(kArg);
    var searchQuery := SearchQuery(artistName, style);
    var artistDocs := SafeSearch(searchQuery, k, search);
    assert artistDocs == search(SearchQuery(artistName, style), k).GetOr([]);
    var similarDocs: seq<Doc> := [];
    if includeSimilar && |artistDocs| < k {
      var remainingK := k - |artistDocs|;
      var styleQuery := StyleQuery(style);
      var allDocs := SafeSearch(styleQuery, remainingK * 2, search);
      assert SimilarRequest(k, includeSimilar, |artistDocs|, style) == Some((styleQuery, remainingK * 2));
      var kept := KeepOthers(allDocs, artistName);
      if kept.Err? {
        assert r == Err(kept.error);
        return "Error retrieving data for " + artistName + ": " + errorText(kept.error);
      }
      similarDocs := Take(kept.value, remainingK);
      assert r == Ok((artistDocs, similarDocs));
    } else {
      assert r == Ok((artistDocs, similarDocs));
    }
    text := FormatResults(artistName, artistDocs, similarDocs, style);
  }

  /** Each section shows at most three samples, and no preview exceeds 1503 characters. */
  lemma {:induction false} SampleBounds(docs: seq<Doc>)
    ensures |SampleParts(docs)| <= 2 * |docs| && |ExampleParts(docs)| <= 2 * |docs|
    ensures forall j :: 0 <= j < |SampleParts(docs)| / 2 ==> |SampleParts(docs)[2 * j + 1]| <= PreviewLength + 3
    ensures |SampleParts(docs)| % 2 == 0
  {
    if |docs| > 0 {
      var init := docs[..|docs| - 1];
      SampleBounds(init);
      var extra := SamplePart(|docs|, docs[|docs| - 1]);
      assert SampleParts(docs) == SampleParts(init) + extra;
      forall j | 0 <= j < |SampleParts(docs)| / 2 ensures |SampleParts(docs)[2 * j + 1]| <= PreviewLength + 3 {
        if 2 * j + 1 >= |SampleParts(init)| {
          assert SampleParts(docs)[2 * j + 1] == extra[1];
        } else {
          assert SampleParts(docs)[2 * j + 1] == SampleParts(init)[2 * j + 1];
        }
      }
    }
  }

  /** Only the first three documents of each list are rendered. */
  lemma ShownAtMostThree(artistName: string, artistDocs: seq<Doc>, similarDocs: seq<Doc>)
    ensures |artistDocs| > 0 ==> |SampleParts(Take(artistDocs, ShownDocs))| <= 6
    ensures |similarDocs| > 0 ==> |ExampleParts(Take(similarDocs, ShownDocs))| <= 6
  {
    SampleBounds(Take(artistDocs, ShownDocs));
    SampleBounds(Take(similarDocs, ShownDocs));
  }

  /** A genre is collected iff one of the documents lists it. */
  lemma {:induction false} GenresOfSpec(docs: seq<Doc>)
    ensures forall g :: g in GenresOf(docs) <==> exists i :: 0 <= i < |docs| && g in ListedGenres(docs[i])
  {
    if |docs| > 0 {
      var init := docs[..|docs| - 1];
      GenresOfSpec(init);
      forall g ensures g in GenresOf(docs) <==> exists i :: 0 <= i < |docs| && g in ListedGenres(docs[i]) {
        if g in GenresOf(init) {
          var i :| 0 <= i < |init| && g in ListedGenres(init[i]);
          assert docs[i] == init[i];
        }
        if exists i :: 0 <= i < |docs| && g in ListedGenres(docs[i]) {
          var i :| 0 <= i < |docs| && g in ListedGenres(docs[i]);
          if i < |init| {
            assert init[i] == docs[i];
          }
        }
      }
    }
  }

  /**
   * The genres line lists each genre of the shown documents once, in
   * ascending order, and does not depend on the order they were found in.
   */
  lemma GenresLineSpec(docs: seq<Doc>)
    ensures var line := SortedSet(GenresOf(docs));
      && StrictlyAscending(line)
      && (forall g :: g in line <==> exists i :: 0 <= i < |docs| && g in ListedGenres(docs[i]))
      && forall other: seq<string> ::
           StrictlyAscending(other) && (forall g :: g in other <==> g in GenresOf(docs)) ==> other == line
  {
    var line := SortedSet(GenresOf(docs));
    SortedSetSpec(GenresOf(docs));
    GenresOfSpec(docs);
    forall other: seq<string> | StrictlyAscending(other) && (forall g :: g in other <==> g in GenresOf(docs))
      ensures other == line
    {
      AscendingUnique(other, line);
    }
  }

  lemma {:induction false} JoinStarts(parts: seq<string>, sep: string)
    requires |parts| > 0
    ensures StartsWith(Join(parts, sep), parts[0])
  {
    if |parts| > 1 {
      assert Join(parts, sep) == parts[0] + (sep + Join(parts[1..], sep));
    }
  }

  /**
   * The text opens with the header; the footer reports the number of
   * documents of both lists; the no-data notice closes it iff both lists are
   * empty.
   */
  lemma ResultPartsShape(artistName: string, artistDocs: seq<Doc>, similarDocs: seq<Doc>, style: Option<string>)
    ensures var parts := ResultParts(artistName, artistDocs, similarDocs, style);
      && StartsWith(ResultsText(artistName, artistDocs, similarDocs, style), Header(artistName, style))
      && |parts| >= 4
      && (parts[|parts| - 1] == NoDataNotice(artistName) <==> |artistDocs| == 0 && |similarDocs| == 0)
      && (|artistDocs| == 0 && |similarDocs| == 0 ==>
            parts[|parts| - 2] == TotalLine(0) && parts[1] == "\n--- NO SPECIFIC DATA FOUND FOR " + artistName + " ---")
      && (|artistDocs| > 0 || |similarDocs| > 0 ==> parts[|parts| - 1] == TotalLine(|artistDocs| + |similarDocs|))
  {
    var parts := ResultParts(artistName, artistDocs, similarDocs, style);
    JoinStarts(parts, "\n");
    if |artistDocs| > 0 || |similarDocs| > 0 {
      assert TotalLine(|artistDocs| + |similarDocs|)[0] == 'T';
      assert NoDataNotice(artistName)[0] == '\n';
    }
  }
}
