/**
 * The two CSV processors (the service and the stand-alone chunker): the
 * encodings tried, the parse of a loaded row back into fields, and the
 * counting of rows through batches and the whole file. Reading the file,
 * detecting its encoding and the vector store are oracles: the documents
 * the loader yields, whether it failed after them, and what each store call
 * returned.
 */
module CsvProcessing {
  import opened Wrappers
  import opened Strings
  import opened Lyrics
  import opened Artist

  // ---------------------------------------------------------------- encodings

  const CommonEncodings: seq<string> := ["utf-8", "utf-8-sig", "latin1", "cp1252", "iso-8859-1"]

  /** `[enc.lower() for enc in encs]` */
  function LowerAll(encs: seq<string>): (r: seq<string>)
    ensures |r| == |encs| && forall i :: 0 <= i < |encs| ==> r[i] == Lower(encs[i])
  {
    seq(|encs|, i requires 0 <= i < |encs| => Lower(encs[i]))
  }

  /** `[enc for enc in encs if enc.lower() != d.lower()]` */
  function OtherEncodings(d: string, encs: seq<string>): seq<string>
  {
    if |encs| == 0 then []
    else (if Lower(encs[0]) != Lower(d) then [encs[0]] else []) + OtherEncodings(d, encs[1..])
  }

  /** `_get_encoding_fallbacks`; `None` or `""` is "nothing detected". */
  function EncodingFallbacks(detected: Option<string>): seq<string>
  {
    match detected
    case None => CommonEncodings
    case Some(d) =>
      if d == "" then CommonEncodings
      else if Lower(d) !in LowerAll(CommonEncodings) then [d] + CommonEncodings
      else [d] + OtherEncodings(d, CommonEncodings)
  }

  /** No two entries are the same encoding name up to letter case. */
  predicate CaseDistinct(encs: seq<string>) {
    forall i, j :: 0 <= i < j < |encs| ==> Lower(encs[i]) != Lower(encs[j])
  }

  predicate LowerCase(encs: seq<string>) {
    forall i :: 0 <= i < |encs| ==> Lower(encs[i]) == encs[i]
  }

  lemma CommonEncodingsShape()
    ensures LowerCase(CommonEncodings) && LowerAll(CommonEncodings) == CommonEncodings
    ensures CaseDistinct(CommonEncodings)
  {
    var c := CommonEncodings;
    assert Lower(c[0]) == c[0] && Lower(c[1]) == c[1] && Lower(c[2]) == c[2];
    assert Lower(c[3]) == c[3] && Lower(c[4]) == c[4];
    assert c[0][1] != c[2][1] && c[0][1] != c[3][1] && c[0][1] != c[4][1];
    assert c[2][1] != c[3][1] && c[2][1] != c[4][1] && c[3][1] != c[4][1];
    assert |c[0]| != |c[1]|;
    assert c[1][1] != c[2][1] && c[1][1] != c[3][1] && c[1][1] != c[4][1];
  }

  /** Filtering out the one name a lower-case, case-distinct list matches removes exactly that entry. */
  lemma {:induction false} OtherEncodingsDropOne(d: string, encs: seq<string>, k: nat)
    requires LowerCase(encs) && CaseDistinct(encs)
    requires k < |encs| && Lower(d) == encs[k]
    ensures OtherEncodings(d, encs) == encs[..k] + encs[k + 1..]
  {
    if k == 0 {
      OtherEncodingsKeepAll(d, encs[1..]);
      assert encs[1..] == encs[..0] + encs[1..];
    } else {
      assert Lower(encs[0]) != Lower(encs[k]);
      OtherEncodingsDropOne(d, encs[1..], k - 1);
      assert encs[..k] == [encs[0]] + encs[1..][..k - 1];
      assert encs[k + 1..] == encs[1..][k..];
    }
  }

  lemma {:induction false} OtherEncodingsKeepAll(d: string, encs: seq<string>)
    requires forall i :: 0 <= i < |encs| ==> Lower(encs[i]) != Lower(d)
    ensures OtherEncodings(d, encs) == encs
  {
    if |encs| > 0 {
      OtherEncodingsKeepAll(d, encs[1..]);
      assert encs == [encs[0]] + encs[1..];
    }
  }

  lemma LowerIdempotentAt(d: string)
    ensures Lower(Lower(d)) == Lower(d)
  {
    LowerIdempotent(d);
  }

  /** A name that matches none of a lower-case, case-distinct list can go in front of it. */
  lemma PrependDistinct(d: string, rest: seq<string>)
    requires LowerCase(rest) && CaseDistinct(rest) && Lower(d) !in rest
    ensures CaseDistinct([d] + rest)
  {
    var r := [d] + rest;
    forall i, j | 0 <= i < j < |r| ensures Lower(r[i]) != Lower(r[j]) {
      assert r[j] == rest[j - 1];
      if i > 0 {
        assert r[i] == rest[i - 1];
      }
    }
  }

  /** Dropping entry `k` keeps the list case-distinct and keeps every other entry. */
  lemma DropOne(c: seq<string>, k: nat)
    requires LowerCase(c) && CaseDistinct(c) && k < |c|
    ensures var rest := c[..k] + c[k + 1..];
      && LowerCase(rest) && CaseDistinct(rest) && c[k] !in rest
      && forall e :: e in c && e != c[k] ==> e in rest
  {
    var rest := c[..k] + c[k + 1..];
    assert forall m :: 0 <= m < |rest| ==> rest[m] == (if m < k then c[m] else c[m + 1]);
    forall e | e in c && e != c[k] ensures e in rest {
      var i :| 0 <= i < |c| && c[i] == e;
      if i < k { assert rest[i] == e; } else { assert rest[i - 1] == e; }
    }
    forall m | 0 <= m < |rest| ensures rest[m] != c[k] {
      var i := if m < k then m else m + 1;
      assert Lower(c[i]) != Lower(c[k]);
    }
  }

  lemma FallbacksKnown(d: string)
    requires d != "" && Lower(d) in CommonEncodings
    ensures var r := EncodingFallbacks(Some(d));
      |r| == 5 && CaseDistinct(r) && forall e :: e in CommonEncodings && e != Lower(d) ==> e in r
  {
    CommonEncodingsShape();
    var c := CommonEncodings;
    var k :| 0 <= k < |c| && c[k] == Lower(d);
    OtherEncodingsDropOne(d, c, k);
    DropOne(c, k);
    var rest := c[..k] + c[k + 1..];
    LowerIdempotentAt(d);
    PrependDistinct(d, rest);
    assert EncodingFallbacks(Some(d)) == [d] + rest;
  }

  lemma FallbacksUnknown(d: string)
    requires d != "" && Lower(d) !in CommonEncodings
    ensures var r := EncodingFallbacks(Some(d));
      r == [d] + CommonEncodings && |r| == 6 && CaseDistinct(r)
  {
    CommonEncodingsShape();
    PrependDistinct(d, CommonEncodings);
  }

  /**
   * The encodings to try: the common five when nothing was detected; else
   * the detected name first, then the common five, minus the one the
   * detected name matches up to case. No name is tried twice.
   */
  lemma EncodingFallbacksSpec(detected: Option<string>)
    ensures var r := EncodingFallbacks(detected);
      && ((detected.None? || detected.value == "") ==> r == CommonEncodings)
      && (detected.Some? && detected.value != "" ==> r[0] == detected.value)
      && (detected.Some? && detected.value != "" && Lower(detected.value) !in CommonEncodings ==>
            r == [detected.value] + CommonEncodings && |r| == 6)
      && (detected.Some? && detected.value != "" && Lower(detected.value) in CommonEncodings ==>
            |r| == 5 && forall e :: e in CommonEncodings && e != Lower(detected.value) ==> e in r)
      && CaseDistinct(r)
  {
    CommonEncodingsShape();
    if detected.Some? && detected.value != "" {
      if Lower(detected.value) in CommonEncodings {
        FallbacksKnown(detected.value);
      } else {
        FallbacksUnknown(detected.value);
      }
    }
  }

  // ---------------------------------------------------------------- parsing a row

  /** `line.split(":", 1)`, both halves stripped, for a line that holds a `:`. */
  function EntryOf(line: string): Option<(string, string)> {
    match FindFirst(line, ":")
    case None => None
    case Some(i) => Some((Strip(line[..i]), Strip(line[i + 1..])))
  }

  function Entries(lines: seq<string>): (es: seq<Option<(string, string)>>)
    ensures |es| == |lines| && forall i :: 0 <= i < |lines| ==> es[i] == EntryOf(lines[i])
  {
    seq(|lines|, i requires 0 <= i < |lines| => EntryOf(lines[i]))
  }

  /** The dictionary the entries build, each one overwriting what an earlier one set. */
  function MapOf(es: seq<Option<(string, string)>>): map<string, string>
  {
    if |es| == 0 then map[]
    else
      var m := MapOf(es[..|es| - 1]);
      match es[|es| - 1]
      case None => m
      case Some((key, value)) => m[key := value]
  }

  lemma MapOfStep(es: seq<Option<(string, string)>>, k: nat)
    requires k < |es|
    ensures es[k].None? ==> MapOf(es[..k + 1]) == MapOf(es[..k])
    ensures es[k].Some? ==> MapOf(es[..k + 1]) == MapOf(es[..k])[es[k].value.0 := es[k].value.1]
  {
    assert es[..k + 1][..k] == es[..k];
  }

  /** The `data` dictionary built from the lines of a row. */
  function FieldsOf(lines: seq<string>): map<string, string> {
    MapOf(Entries(lines))
  }

  /** `data.get(key, "")` */
  function Field(data: map<string, string>, key: string): string {
    if key in data then data[key] else ""
  }

  /** The key:value loop of `_parse_document_to_artist_data`. */
  method ParseFields(content: string) returns (data: map<string, string>)
    ensures data == FieldsOf(Split(content, "\n"))
  {
    var lines := Split(content, "\n");
    ghost var es := Entries(lines);
    data := map[];
    var k := 0;
    while k < |lines|
      invariant 0 <= k <= |lines|
      invariant data == MapOf(es[..k])
    {
      var entry := EntryOf(lines[k]);
      MapOfStep(es, k);
      if entry.Some? {
        data := data[entry.value.0 := entry.value.1];
      }
      k := k + 1;
    }
    assert es[..k] == es;
  }

  /** The last entry that sets `key`, if any. */
  function LastWith(es: seq<Option<(string, string)>>, key: string): (r: Option<nat>)
    ensures r.Some? ==> r.value < |es| && es[r.value].Some? && es[r.value].value.0 == key
  {
    if |es| == 0 then None
    else if es[|es| - 1].Some? && es[|es| - 1].value.0 == key then Some(|es| - 1)
    else LastWith(es[..|es| - 1], key)
  }

  predicate Sets(e: Option<(string, string)>, key: string) {
    e.Some? && e.value.0 == key
  }

  /** `LastWith` finds the last entry for the key, and finds none only when no entry sets it. */
  lemma {:induction false} LastWithSpec(es: seq<Option<(string, string)>>, key: string)
    ensures var r := LastWith(es, key);
      && (r.None? ==> forall j :: 0 <= j < |es| ==> !Sets(es[j], key))
      && (r.Some? ==> Sets(es[r.value], key))
      && (r.Some? ==> forall j :: r.value < j < |es| ==> !Sets(es[j], key))
  {
    if |es| > 0 && !Sets(es[|es| - 1], key) {
      var init := es[..|es| - 1];
      LastWithSpec(init, key);
      forall j | 0 <= j < |init| ensures init[j] == es[j] { }
    }
  }

  /** A key is present exactly when some entry sets it, with the value of the last entry that does. */
  lemma {:induction false} MapOfSpec(es: seq<Option<(string, string)>>, key: string)
    ensures key in MapOf(es) <==> LastWith(es, key).Some?
    ensures key in MapOf(es) ==> MapOf(es)[key] == es[LastWith(es, key).value].value.1
  {
    if |es| > 0 {
      var init := es[..|es| - 1];
      MapOfSpec(init, key);
      if !Sets(es[|es| - 1], key) && key in MapOf(init) {
        var i := LastWith(init, key).value;
        assert init[i] == es[i];
      }
    }
  }

  /**
   * In a row, a key is present exactly when some line carries it, and its
   * value is that of the last line that does: later lines overwrite earlier
   * ones, and lines without a `:` are ignored.
   */
  lemma FieldsOfSpec(lines: seq<string>, key: string)
    ensures var r := LastWith(Entries(lines), key);
      && (key in FieldsOf(lines) <==> exists i :: 0 <= i < |lines| && Sets(EntryOf(lines[i]), key))
      && (key in FieldsOf(lines) ==> r.Some? && EntryOf(lines[r.value]) == Some((key, FieldsOf(lines)[key])))
      && (key in FieldsOf(lines) ==> forall j :: r.value < j < |lines| ==> !Sets(EntryOf(lines[j]), key))
  {
    var es := Entries(lines);
    MapOfSpec(es, key);
    LastWithSpec(es, key);
    if key !in FieldsOf(lines) {
      forall i | 0 <= i < |lines| ensures !Sets(EntryOf(lines[i]), key) {
        assert es[i] == EntryOf(lines[i]);
      }
    } else {
      var i := LastWith(es, key).value;
      assert es[i] == EntryOf(lines[i]);
    }
  }

  /** Entries whose values are stripped build a dictionary whose values are stripped. */
  lemma {:induction false} MapOfStripped(es: seq<Option<(string, string)>>)
    requires forall j :: 0 <= j < |es| && es[j].Some? ==> Strip(es[j].value.1) == es[j].value.1
    ensures forall key :: key in MapOf(es) ==> Strip(MapOf(es)[key]) == MapOf(es)[key]
  {
    if |es| > 0 {
      var init := es[..|es| - 1];
      forall j | 0 <= j < |init| ensures init[j] == es[j] { }
      MapOfStripped(init);
    }
  }

  /** Every value of a parsed row is already stripped. */
  lemma FieldsOfStripped(lines: seq<string>)
    ensures forall key :: key in FieldsOf(lines) ==> Strip(FieldsOf(lines)[key]) == FieldsOf(lines)[key]
  {
    var es := Entries(lines);
    forall j | 0 <= j < |es| && es[j].Some? ensures Strip(es[j].value.1) == es[j].value.1 {
      var i := FindFirst(lines[j], ":").value;
      StripIdempotent(lines[j][i + 1..]);
    }
    MapOfStripped(es);
  }

  /** Which of the two processors: the service validates, the chunker only cleans the lyric. */
  datatype Processor = Service | Chunker

  /** Why a row did not become an `ArtistData`. */
  datatype DocError =
    | ValidationFailed(errors: seq<FieldError>)  // pydantic `ValidationError`
    | ParsingFailed                              // `float()` rejected the Songs text

  /** `float(data.get("Songs", 0))`; the conversion of text is an oracle. */
  function SongsValue(data: map<string, string>, toFloat: string -> Option<real>): Option<real> {
    if "Songs" in data then toFloat(data["Songs"]) else Some(0.0)
  }

  /** The record built from the parsed fields. */
  function FromFields(p: Processor, data: map<string, string>, toFloat: string -> Option<real>): Result<ArtistData, DocError>
  {
    match SongsValue(data, toFloat)
    case None => Err(ParsingFailed)
    case Some(songs) =>
      match p
      case Service => ServiceRecord(Field(data, "Artist"), Field(data, "Genres"), songs, Field(data, "Lyric"))
      case Chunker => Ok(ChunkerRecord(Field(data, "Artist"), Field(data, "Genres"), songs, Field(data, "Lyric")))
  }

  /** The service builds the validated model; a failed validation is its `ValidationError`. */
  function ServiceRecord(artist: string, genres: string, songs: real, lyric: string): Result<ArtistData, DocError> {
    match NewArtistData(artist, genres, songs, lyric)
    case Ok(a) => Ok(a)
    case Err(es) => Err(ValidationFailed(es))
  }

  /** The chunker builds the record unvalidated, with the lyric cleaned. */
  function ChunkerRecord(artist: string, genres: string, songs: real, lyric: string): ArtistData {
    ArtistData(artist, genres, songs, CleanLyricsText(PyStr(lyric)))
  }

  /** `_parse_document_to_artist_data` */
  function ParseDocument(p: Processor, content: string, toFloat: string -> Option<real>): Result<ArtistData, DocError> {
    FromFields(p, FieldsOf(Split(content, "\n")), toFloat)
  }

  method ParseDocumentToArtistData(p: Processor, content: string, toFloat: string -> Option<real>)
    returns (r: Result<ArtistData, DocError>)
    ensures r == ParseDocument(p, content, toFloat)
  {
    var data := ParseFields(content);
    var songs := if "Songs" in data then toFloat(data["Songs"]) else Some(0.0);
    if songs.None? {
      return Err(ParsingFailed);
    }
    var artist := if "Artist" in data then data["Artist"] else "";
    var genres := if "Genres" in data then data["Genres"] else "";
    var lyric := if "Lyric" in data then data["Lyric"] else "";
    match p
    case Service =>
      var a := NewArtistData(artist, genres, songs.value, lyric);
      r := if a.Ok? then Ok(a.value) else Err(ValidationFailed(a.error));
    case Chunker =>
      r := Ok(ArtistData(artist, genres, songs.value, CleanLyricsText(PyStr(lyric))));
  }

  /**
   * A row the service accepts is stored identically by the chunker: the
   * parsed fields are already stripped, and both clean the lyric the same way.
   */
  lemma ServiceAcceptedMeansChunkerSame(content: string, toFloat: string -> Option<real>)
    requires ParseDocument(Service, content, toFloat).Ok?
    ensures ParseDocument(Chunker, content, toFloat) == ParseDocument(Service, content, toFloat)
  {
    var data := FieldsOf(Split(content, "\n"));
    FieldsOfStripped(Split(content, "\n"));
    FieldStripped(data, "Artist");
    FieldStripped(data, "Genres");
    FromFieldsAgree(data, toFloat);
  }

  lemma FromFieldsAgree(data: map<string, string>, toFloat: string -> Option<real>)
    requires Strip(Field(data, "Artist")) == Field(data, "Artist")
    requires Strip(Field(data, "Genres")) == Field(data, "Genres")
    requires FromFields(Service, data, toFloat).Ok?
    ensures FromFields(Chunker, data, toFloat).Ok?
    ensures FromFields(Chunker, data, toFloat).value == FromFields(Service, data, toFloat).value
  {
    SongsRequired(data, toFloat);
    var songs := SongsValue(data, toFloat).value;
    var artist, genres, lyric := Field(data, "Artist"), Field(data, "Genres"), Field(data, "Lyric");
    assert FromFields(Chunker, data, toFloat).value == ChunkerRecord(artist, genres, songs, lyric);
    assert FromFields(Service, data, toFloat) == ServiceRecord(artist, genres, songs, lyric);
    AcceptedUnchanged(artist, genres, songs, lyric);
  }

  /** On already-stripped text an accepted service record is the chunker's record. */
  lemma AcceptedUnchanged(artist: string, genres: string, songs: real, lyric: string)
    requires Strip(artist) == artist && Strip(genres) == genres
    requires ServiceRecord(artist, genres, songs, lyric).Ok?
    ensures ServiceRecord(artist, genres, songs, lyric).value == ChunkerRecord(artist, genres, songs, lyric)
  {
    assert CleanLyricsText(PyStr(lyric)) == CleanText(lyric);
  }

  lemma FieldStripped(data: map<string, string>, key: string)
    requires forall key :: key in data ==> Strip(data[key]) == data[key]
    ensures Strip(Field(data, key)) == Field(data, key)
  {
    if key !in data {
      assert |Strip("")| <= 0;
    }
  }

  /** A row with no Songs line is rejected by the service's validator but kept by the chunker with 0 songs. */
  lemma MissingSongs(content: string, toFloat: string -> Option<real>)
    requires "Songs" !in FieldsOf(Split(content, "\n"))
    ensures ParseDocument(Service, content, toFloat).Err?
    ensures ParseDocument(Service, content, toFloat).error.ValidationFailed?
    ensures ParseDocument(Chunker, content, toFloat).Ok? && ParseDocument(Chunker, content, toFloat).value.songs == 0.0
  {
  }

  /** The chunker stores the lyric cleaned: one line, single-spaced, stripped. */
  lemma ChunkerLyricIsClean(content: string, toFloat: string -> Option<real>)
    requires ParseDocument(Chunker, content, toFloat).Ok?
    ensures var l := ParseDocument(Chunker, content, toFloat).value.lyric;
      '\n' !in l && '\r' !in l && (l == [] || (!IsSpace(l[0]) && !IsSpace(l[|l| - 1])))
  {
    var data := FieldsOf(Split(content, "\n"));
    assert ParseDocument(Chunker, content, toFloat) == FromFields(Chunker, data, toFloat);
    SongsRequired(data, toFloat);
    ChunkerLyric(data, toFloat);
    var l := Field(data, "Lyric");
    ChunkerRecordLyric(Field(data, "Artist"), Field(data, "Genres"), SongsValue(data, toFloat).value, l);
    CleanHasNoNewlines(l);
    CleanIsStripped(l);
  }

  lemma ChunkerLyric(data: map<string, string>, toFloat: string -> Option<real>)
    requires SongsValue(data, toFloat).Some?
    ensures FromFields(Chunker, data, toFloat).Ok?
    ensures FromFields(Chunker, data, toFloat).value
      == ChunkerRecord(Field(data, "Artist"), Field(data, "Genres"), SongsValue(data, toFloat).value, Field(data, "Lyric"))
  {
  }

  /** The chunker's lyric is the cleaned text. */
  lemma ChunkerRecordLyric(artist: string, genres: string, songs: real, lyric: string)
    ensures ChunkerRecord(artist, genres, songs, lyric).lyric == CleanText(lyric)
  {
  }

  /** Either processor turns a row into a record only when its Songs text converts; the chunker then always does. */
  lemma SongsRequired(data: map<string, string>, toFloat: string -> Option<real>)
    ensures FromFields(Service, data, toFloat).Ok? ==> SongsValue(data, toFloat).Some?
    ensures FromFields(Chunker, data, toFloat).Ok? <==> SongsValue(data, toFloat).Some?
  {
    if SongsValue(data, toFloat).None? {
      assert FromFields(Service, data, toFloat).Err?;
      assert FromFields(Chunker, data, toFloat).Err?;
    }
  }

  // ---------------------------------------------------------------- one batch

  /** What `add_artist_data_batch` did: returned some ids, or raised. */
  datatype StoreOutcome = Stored(ids: nat) | StoreFailed(message: string)

  /** The entries of an `errors` list; their text is not modelled. */
  datatype BatchError =
    | ValidationError(fields: seq<FieldError>)
    | ParsingError
    | VectorStoreError(message: string)
    | BatchProcessingError(message: string)
    | UndecodableFile(message: string)            // no encoding decoded the file
    | EncodingFailed(encoding: string, message: string)
    | FileError(message: string)

  /** One yielded `batch_results` dictionary. */
  datatype BatchResult = BatchResult(total: nat, successful: nat, failed: nat, errors: seq<BatchError>)

  /** The rows of a batch that parsed, in order. */
  function Parsed(p: Processor, docs: seq<string>, toFloat: string -> Option<real>): seq<ArtistData>
  {
    if |docs| == 0 then []
    else
      var init := Parsed(p, docs[..|docs| - 1], toFloat);
      match ParseDocument(p, docs[|docs| - 1], toFloat)
      case Ok(a) => init + [a]
      case Err(_) => init
  }

  function AsBatchError(e: DocError): BatchError {
    match e
    case ValidationFailed(es) => ValidationError(es)
    case ParsingFailed => ParsingError
  }

  /** The errors of the rows that did not parse, in order. */
  function ParseErrors(p: Processor, docs: seq<string>, toFloat: string -> Option<real>): seq<BatchError>
  {
    if |docs| == 0 then []
    else
      var init := ParseErrors(p, docs[..|docs| - 1], toFloat);
      match ParseDocument(p, docs[|docs| - 1], toFloat)
      case Ok(_) => init
      case Err(e) => init + [AsBatchError(e)]
  }

  /** Every row either parses or leaves an error. */
  lemma {:induction false} ParsedOrFailed(p: Processor, docs: seq<string>, toFloat: string -> Option<real>)
    ensures |Parsed(p, docs, toFloat)| + |ParseErrors(p, docs, toFloat)| == |docs|
  {
    if |docs| > 0 {
      ParsedOrFailed(p, docs[..|docs| - 1], toFloat);
    }
  }

  /** One more row adds its record to the parsed rows, or its error to the errors. */
  lemma ParseStep(p: Processor, docs: seq<string>, k: nat, toFloat: string -> Option<real>)
    requires k < |docs|
    ensures var a := ParseDocument(p, docs[k], toFloat);
      && Parsed(p, docs[..k + 1], toFloat) == Parsed(p, docs[..k], toFloat) + (if a.Ok? then [a.value] else [])
      && ParseErrors(p, docs[..k + 1], toFloat)
         == ParseErrors(p, docs[..k], toFloat) + (if a.Err? then [AsBatchError(a.error)] else [])
  {
    var d := docs[..k + 1];
    assert d[..|d| - 1] == docs[..k];
  }

  /** What `_process_document_batch` returns, with the batch size as its total. */
  function BatchOutcome(p: Processor, docs: seq<string>, toFloat: string -> Option<real>, store: StoreOutcome): BatchResult
  {
    var parsed := |Parsed(p, docs, toFloat)|;
    var parseErrors := ParseErrors(p, docs, toFloat);
    if parsed == 0 then BatchResult(|docs|, 0, |parseErrors|, parseErrors)
    else match store
      case Stored(ids) => BatchResult(|docs|, ids, |parseErrors|, parseErrors)
      case StoreFailed(m) => BatchResult(|docs|, 0, |parseErrors| + parsed, parseErrors + [VectorStoreError(m)])
  }

  /** `_process_document_batch` */
  method ProcessDocumentBatch(p: Processor, docs: seq<string>, toFloat: string -> Option<real>, store: StoreOutcome)
    returns (successful: nat, failed: nat, errors: seq<BatchError>)
    ensures BatchResult(|docs|, successful, failed, errors) == BatchOutcome(p, docs, toFloat, store)
  {
    successful, failed, errors := 0, 0, [];
    var batch: seq<ArtistData> := [];
    var k := 0;
    while k < |docs|
      invariant 0 <= k <= |docs|
      invariant batch == Parsed(p, docs[..k], toFloat)
      invariant errors == ParseErrors(p, docs[..k], toFloat) && failed == |errors|
    {
      ParseStep(p, docs, k, toFloat);
      var a := ParseDocumentToArtistData(p, docs[k], toFloat);
      match a {
        case Ok(d) =>
          batch := batch + [d];
        case Err(e) =>
          failed := failed + 1;
          errors := errors + [AsBatchError(e)];
      }
      k := k + 1;
    }
    assert docs[..k] == docs;
    if |batch| > 0 {
      match store
      case Stored(ids) =>
        successful := successful + ids;
      case StoreFailed(m) =>
        failed := failed + |batch|;
        errors := errors + [VectorStoreError(m)];
    }
  }

  /**
   * Every row of a batch is counted once when the store returns one id per
   * record; a failed store counts every row as failed.
   */
  lemma BatchAccounting(p: Processor, docs: seq<string>, toFloat: string -> Option<real>, store: StoreOutcome)
    ensures var b := BatchOutcome(p, docs, toFloat, store);
      && (store == Stored(|Parsed(p, docs, toFloat)|) ==> b.successful + b.failed == |docs|)
      && (store.StoreFailed? ==> b.successful == 0 && b.failed == |docs|)
      && b.failed >= |ParseErrors(p, docs, toFloat)|
  {
    ParsedOrFailed(p, docs, toFloat);
  }

  // ---------------------------------------------------------------- batching

  /** The full batches of `n` rows, in order. */
  function FullChunks(docs: seq<string>, n: nat): seq<seq<string>>
    requires n >= 1
    decreases |docs|
  {
    if |docs| < n then [] else [docs[..n]] + FullChunks(docs[n..], n)
  }

  /** The rows after the last full batch. */
  function Remainder(docs: seq<string>, n: nat): (r: seq<string>)
    requires n >= 1
    ensures |r| < n
    decreases |docs|
  {
    if |docs| < n then docs else Remainder(docs[n..], n)
  }

  /** The batches `_process_csv_in_batches` forms from the rows. */
  function Chunks(docs: seq<string>, n: nat): seq<seq<string>>
    requires n >= 1
  {
    FullChunks(docs, n) + (if |Remainder(docs, n)| > 0 then [Remainder(docs, n)] else [])
  }

  /** `len(batch) >= batch_size` fires after every row when `batch_size` is below 1. */
  function BatchLength(batchSize: int): nat {
    if batchSize >= 1 then batchSize else 1
  }

  /** Batch `i` goes to the store in call `i`. */
  function Outcomes(p: Processor, chunks: seq<seq<string>>, toFloat: string -> Option<real>, stores: nat -> StoreOutcome): (r: seq<BatchResult>)
    ensures |r| == |chunks|
  {
    if |chunks| == 0 then []
    else
      var i := |chunks| - 1;
      Outcomes(p, chunks[..i], toFloat, stores) + [BatchOutcome(p, chunks[i], toFloat, stores(i))]
  }

  /** The yielded results: every batch, or, when the loader fails, the full batches and then the error. */
  function BatchResults(p: Processor, docs: seq<string>, loadError: Option<string>, batchSize: int,
                        toFloat: string -> Option<real>, stores: nat -> StoreOutcome): seq<BatchResult>
  {
    var n := BatchLength(batchSize);
    match loadError
    case None => Outcomes(p, Chunks(docs, n), toFloat, stores)
    case Some(m) =>
      var rest := |Remainder(docs, n)|;
      Outcomes(p, FullChunks(docs, n), toFloat, stores) + [BatchResult(rest, 0, rest, [BatchProcessingError(m)])]
  }

  lemma {:induction false} ChunkStep(d: seq<string>, x: string, n: nat)
    requires n >= 1
    ensures |Remainder(d, n)| + 1 == n ==>
      Remainder(d + [x], n) == [] && FullChunks(d + [x], n) == FullChunks(d, n) + [Remainder(d, n) + [x]]
    ensures |Remainder(d, n)| + 1 < n ==>
      Remainder(d + [x], n) == Remainder(d, n) + [x] && FullChunks(d + [x], n) == FullChunks(d, n)
    decreases |d|
  {
    var e := d + [x];
    if |d| < n {
      if |d| + 1 == n {
        assert e[..n] == e && e[n..] == [];
      }
    } else {
      assert e[..n] == d[..n];
      assert e[n..] == d[n..] + [x];
      ChunkStep(d[n..], x, n);
    }
  }

  lemma OutcomesAppend(p: Processor, chunks: seq<seq<string>>, c: seq<string>, toFloat: string -> Option<real>,
                       stores: nat -> StoreOutcome)
    ensures Outcomes(p, chunks + [c], toFloat, stores)
      == Outcomes(p, chunks, toFloat, stores) + [BatchOutcome(p, c, toFloat, stores(|chunks|))]
  {
    assert (chunks + [c])[..|chunks|] == chunks;
  }

  /** A row that completes the pending batch sends it to the next store call. */
  lemma {:induction false} FlushStep(p: Processor, docs: seq<string>, k: nat, n: nat, toFloat: string -> Option<real>,
                                     stores: nat -> StoreOutcome, results: seq<BatchResult>, b: BatchResult)
    requires k < |docs| && n >= 1
    requires |Remainder(docs[..k], n)| + 1 == n
    requires results == Outcomes(p, FullChunks(docs[..k], n), toFloat, stores)
    requires b == BatchOutcome(p, Remainder(docs[..k], n) + [docs[k]], toFloat, stores(|results|))
    ensures Remainder(docs[..k + 1], n) == []
    ensures results + [b] == Outcomes(p, FullChunks(docs[..k + 1], n), toFloat, stores)
  {
    var before, c := FullChunks(docs[..k], n), Remainder(docs[..k], n) + [docs[k]];
    PrefixStep(docs, k);
    ChunkStep(docs[..k], docs[k], n);
    assert FullChunks(docs[..k + 1], n) == before + [c];
    OutcomesAppend(p, before, c, toFloat, stores);
  }

  /** A row that leaves the pending batch short of `n` rows joins it. */
  lemma {:induction false} KeepStep(p: Processor, docs: seq<string>, k: nat, n: nat, toFloat: string -> Option<real>,
                                    stores: nat -> StoreOutcome)
    requires k < |docs| && n >= 1
    requires |Remainder(docs[..k], n)| + 1 < n
    ensures Remainder(docs[..k + 1], n) == Remainder(docs[..k], n) + [docs[k]]
    ensures FullChunks(docs[..k + 1], n) == FullChunks(docs[..k], n)
  {
    PrefixStep(docs, k);
    ChunkStep(docs[..k], docs[k], n);
  }

  /** What is left after the last row: the pending batch goes to the store unless the loader failed. */
  lemma BatchesEnd(p: Processor, docs: seq<string>, loadError: Option<string>, batchSize: int,
                   toFloat: string -> Option<real>, stores: nat -> StoreOutcome)
    ensures var n := BatchLength(batchSize);
      var full := FullChunks(docs, n);
      var rest := Remainder(docs, n);
      var before := Outcomes(p, full, toFloat, stores);
      && (loadError.None? && |rest| > 0 ==>
            BatchResults(p, docs, loadError, batchSize, toFloat, stores)
            == before + [BatchOutcome(p, rest, toFloat, stores(|full|))])
      && (loadError.None? && |rest| == 0 ==> BatchResults(p, docs, loadError, batchSize, toFloat, stores) == before)
  {
    var n := BatchLength(batchSize);
    OutcomesAppend(p, FullChunks(docs, n), Remainder(docs, n), toFloat, stores);
    if |Remainder(docs, n)| == 0 {
      assert Chunks(docs, n) == FullChunks(docs, n);
    }
  }

  /** `_process_csv_in_batches`, collecting what it yields. */
  method ProcessCsvInBatches(p: Processor, docs: seq<string>, loadError: Option<string>, batchSize: int,
                             toFloat: string -> Option<real>, stores: nat -> StoreOutcome)
    returns (results: seq<BatchResult>)
    ensures results == BatchResults(p, docs, loadError, batchSize, toFloat, stores)
  {
    var n := BatchLength(batchSize);
    var batch: seq<string> := [];
    var total: nat := 0;
    results := [];
    var k := 0;
    while k < |docs|
      invariant 0 <= k <= |docs|
      invariant batch == Remainder(docs[..k], n) && total == |batch|
      invariant results == Outcomes(p, FullChunks(docs[..k], n), toFloat, stores)
    {
      batch := batch + [docs[k]];
      total := total + 1;
      if |batch| >= batchSize {
        results := YieldBatch(p, docs, k, n, toFloat, stores, results, batch);
        batch := [];
        total := 0;
      } else {
        KeepStep(p, docs, k, n, toFloat, stores);
      }
      k := k + 1;
    }
    assert docs[..k] == docs;
    BatchesEnd(p, docs, loadError, batchSize, toFloat, stores);
    match loadError {
      case Some(m) =>
        results := results + [BatchResult(total, 0, total, [BatchProcessingError(m)])];
      case None =>
        if |batch| > 0 {
          var successful, failed, errors := ProcessDocumentBatch(p, batch, toFloat, stores(|results|));
          results := results + [BatchResult(total, successful, failed, errors)];
        }
    }
  }

  /** The flush inside the loop of `_process_csv_in_batches`: the completed batch goes to the next store call. */
  method YieldBatch(p: Processor, docs: seq<string>, k: nat, n: nat, toFloat: string -> Option<real>,
                    stores: nat -> StoreOutcome, results: seq<BatchResult>, batch: seq<string>)
    returns (extended: seq<BatchResult>)
    requires k < |docs| && n >= 1
    requires |Remainder(docs[..k], n)| + 1 == n && batch == Remainder(docs[..k], n) + [docs[k]]
    requires results == Outcomes(p, FullChunks(docs[..k], n), toFloat, stores)
    ensures Remainder(docs[..k + 1], n) == []
    ensures extended == Outcomes(p, FullChunks(docs[..k + 1], n), toFloat, stores)
  {
    var successful, failed, errors := ProcessDocumentBatch(p, batch, toFloat, stores(|results|));
    FlushStep(p, docs, k, n, toFloat, stores, results, BatchResult(|batch|, successful, failed, errors));
    extended := results + [BatchResult(|batch|, successful, failed, errors)];
  }

  function Flatten(chunks: seq<seq<string>>): seq<string> {
    if |chunks| == 0 then [] else chunks[0] + Flatten(chunks[1..])
  }

  /** The full batches have exactly `n` rows and, with the remainder, give back the rows in order. */
  lemma {:induction false} ChunksCover(docs: seq<string>, n: nat)
    requires n >= 1
    ensures Flatten(FullChunks(docs, n)) + Remainder(docs, n) == docs
    ensures forall i :: 0 <= i < |FullChunks(docs, n)| ==> |FullChunks(docs, n)[i]| == n
    decreases |docs|
  {
    if |docs| >= n {
      ChunksCover(docs[n..], n);
      var f := FullChunks(docs, n);
      assert f[1..] == FullChunks(docs[n..], n);
      assert docs == docs[..n] + docs[n..];
    }
  }

  /** Every batch holds between 1 and `n` rows, and the batches give back the rows in order. */
  lemma ChunksSpec(docs: seq<string>, n: nat)
    requires n >= 1
    ensures Flatten(Chunks(docs, n)) == docs
    ensures forall i :: 0 <= i < |Chunks(docs, n)| ==> 0 < |Chunks(docs, n)[i]| <= n
  {
    ChunksCover(docs, n);
    var f := FullChunks(docs, n);
    var r := Remainder(docs, n);
    if |r| > 0 {
      FlattenAppend(f, r);
    } else {
      assert Chunks(docs, n) == f;
      assert Flatten(f) + r == Flatten(f);
    }
  }

  lemma {:induction false} FlattenAppend(chunks: seq<seq<string>>, c: seq<string>)
    ensures Flatten(chunks + [c]) == Flatten(chunks) + c
  {
    if |chunks| == 0 {
      assert chunks + [c] == [c];
      assert Flatten([c]) == c + Flatten([]);
    } else {
      assert (chunks + [c])[1..] == chunks[1..] + [c];
      FlattenAppend(chunks[1..], c);
    }
  }

  function SumTotal(rs: seq<BatchResult>): int {
    if |rs| == 0 then 0 else SumTotal(rs[..|rs| - 1]) + rs[|rs| - 1].total
  }

  function SumSuccessful(rs: seq<BatchResult>): int {
    if |rs| == 0 then 0 else SumSuccessful(rs[..|rs| - 1]) + rs[|rs| - 1].successful
  }

  function SumFailed(rs: seq<BatchResult>): int {
    if |rs| == 0 then 0 else SumFailed(rs[..|rs| - 1]) + rs[|rs| - 1].failed
  }

  function AllErrors(rs: seq<BatchResult>): seq<BatchError> {
    if |rs| == 0 then [] else AllErrors(rs[..|rs| - 1]) + rs[|rs| - 1].errors
  }

  lemma {:induction false} SumTotalOutcomes(p: Processor, chunks: seq<seq<string>>, toFloat: string -> Option<real>,
                                            stores: nat -> StoreOutcome)
    ensures SumTotal(Outcomes(p, chunks, toFloat, stores)) == |Flatten(chunks)|
  {
    if |chunks| > 0 {
      var init := chunks[..|chunks| - 1];
      var last := chunks[|chunks| - 1];
      assert chunks == init + [last];
      SumTotalOutcomes(p, init, toFloat, stores);
      OutcomesAppend(p, init, last, toFloat, stores);
      FlattenAppend(init, last);
      var b := BatchOutcome(p, last, toFloat, stores(|init|));
      assert b.total == |last|;
      SumTotalSnoc(Outcomes(p, init, toFloat, stores), b);
    }
  }

  lemma SumTotalSnoc(rs: seq<BatchResult>, b: BatchResult)
    ensures SumTotal(rs + [b]) == SumTotal(rs) + b.total
  {
    assert (rs + [b])[..|rs|] == rs;
  }

  /** Whether the loader fails or not, the batch totals add up to the rows read. */
  lemma BatchTotalsCountRows(p: Processor, docs: seq<string>, loadError: Option<string>, batchSize: int,
                             toFloat: string -> Option<real>, stores: nat -> StoreOutcome)
    ensures SumTotal(BatchResults(p, docs, loadError, batchSize, toFloat, stores)) == |docs|
  {
    var n := BatchLength(batchSize);
    ChunksCover(docs, n);
    ChunksSpec(docs, n);
    SumTotalOutcomes(p, Chunks(docs, n), toFloat, stores);
    SumTotalOutcomes(p, FullChunks(docs, n), toFloat, stores);
    var rs := BatchResults(p, docs, loadError, batchSize, toFloat, stores);
    if loadError.Some? {
      assert rs[..|rs| - 1] == Outcomes(p, FullChunks(docs, n), toFloat, stores);
    }
  }

  // ---------------------------------------------------------------- the whole file

  /** What `chardet.detect` reported: its encoding guess (possibly none) and its confidence. */
  datatype Detection = Detection(encoding: Option<string>, confidence: real)

  /** `_detect_encoding`; `None` is a file that could not be read. */
  function DetectEncoding(d: Option<Detection>): (r: Option<string>)
    ensures d.None? || d.value.confidence < 0.7 ==> r == Some("utf-8")
    ensures d.Some? && d.value.confidence >= 0.7 ==> r == d.value.encoding
  {
    match d
    case None => Some("utf-8")
    case Some(det) => if det.confidence < 0.7 then Some("utf-8") else det.encoding
  }

  /** One trial load of the whole file with one encoding. */
  datatype Attempt =
    | Decoded(docs: seq<string>)    // `list(loader.lazy_load())`
    | DecodeFailed(message: string) // `UnicodeDecodeError` / `UnicodeError`
    | LoadFailed(message: string)   // any other exception

  const NoSuitableEncoding: string := "Could not find a suitable encoding for the CSV file"

  /** The trial succeeded with at least one row. */
  predicate Loads(a: Attempt) {
    a.Decoded? && |a.docs| > 0
  }

  /**
   * The encoding loop of `process_csv_file` from entry `i` on: the rows of
   * the first encoding that yields some, or the errors the code records
   * when the last encoding fails or none yields any row.
   */
  function Choose(encs: seq<string>, i: nat, attempt: string -> Attempt): (r: Result<seq<string>, seq<BatchError>>)
    requires i <= |encs|
    ensures r.Ok? ==> |r.value| > 0
    ensures r.Err? ==> |r.error| > 0
    decreases |encs| - i
  {
    if i == |encs| then Err([FileError(NoSuitableEncoding)])
    else
      var last := encs[i] == encs[|encs| - 1];
      match attempt(encs[i])
      case Decoded(docs) => if |docs| > 0 then Ok(docs) else Choose(encs, i + 1, attempt)
      case DecodeFailed(m) =>
        if last then Err([UndecodableFile(m), FileError(m)]) else Choose(encs, i + 1, attempt)
      case LoadFailed(m) =>
        if last then Err([EncodingFailed(encs[i], m), FileError(m)]) else Choose(encs, i + 1, attempt)
  }

  /** The loop over `encodings_to_try`. */
  method ChooseEncoding(encs: seq<string>, attempt: string -> Attempt) returns (r: Result<seq<string>, seq<BatchError>>)
    ensures r == Choose(encs, 0, attempt)
  {
    var i := 0;
    while i < |encs|
      invariant 0 <= i <= |encs|
      invariant Choose(encs, i, attempt) == Choose(encs, 0, attempt)
    {
      var encoding := encs[i];
      match attempt(encoding) {
        case Decoded(docs) =>
          if |docs| > 0 {
            return Ok(docs);
          }
        case DecodeFailed(m) =>
          if encoding == encs[|encs| - 1] {
            return Err([UndecodableFile(m), FileError(m)]);
          }
        case LoadFailed(m) =>
          if encoding == encs[|encs| - 1] {
            return Err([EncodingFailed(encoding, m), FileError(m)]);
          }
      }
      i := i + 1;
    }
    return Err([FileError(NoSuitableEncoding)]);
  }

  predicate Distinct(encs: seq<string>) {
    forall i, j :: 0 <= i < j < |encs| ==> encs[i] != encs[j]
  }

  /**
   * Over a list without repeats, `encoding == encodings_to_try[-1]` holds only
   * at the end, so the loop succeeds exactly when some encoding from `i` on
   * yields rows, and then with the rows of the first one that does.
   */
  lemma {:induction false} ChooseSpec(encs: seq<string>, i: nat, attempt: string -> Attempt)
    requires Distinct(encs) && i <= |encs|
    ensures Choose(encs, i, attempt).Ok? <==> exists j :: i <= j < |encs| && Loads(attempt(encs[j]))
    ensures Choose(encs, i, attempt).Ok? ==> exists j :: (i <= j < |encs| && Loads(attempt(encs[j]))
      && Choose(encs, i, attempt).value == attempt(encs[j]).docs
      && forall k :: i <= k < j ==> !Loads(attempt(encs[k])))
    decreases |encs| - i
  {
    if i < |encs| {
      ChooseSpec(encs, i + 1, attempt);
      if Loads(attempt(encs[i])) {
        assert Choose(encs, i, attempt) == Ok(attempt(encs[i]).docs);
      } else if i == |encs| - 1 {
        assert Choose(encs, i, attempt).Err?;
      } else {
        assert encs[i] != encs[|encs| - 1];
        assert Choose(encs, i, attempt) == Choose(encs, i + 1, attempt);
      }
    }
  }

  /** The fallback list never names an encoding twice. */
  lemma FallbacksDistinct(detected: Option<string>)
    ensures Distinct(EncodingFallbacks(detected))
  {
    EncodingFallbacksSpec(detected);
  }

  /** `ProcessingResult`, without the collection name taken from the settings. */
  datatype ProcessingResult = ProcessingResult(totalRecords: int, successfulRecords: int, failedRecords: int,
                                               errors: seq<BatchError>)

  const DefaultBatchSize: int := 50

  /**
   * What `process_csv_file` reports. The oracles: what the encoding
   * detector saw, what a trial load with each encoding gave, whether the
   * batch pass over the rows was cut short by an exception, and what each
   * store call returned.
   */
  function FileResult(p: Processor, detection: Option<Detection>, attempt: string -> Attempt, loadError: Option<string>,
                      toFloat: string -> Option<real>, stores: nat -> StoreOutcome): ProcessingResult
  {
    var encs := EncodingFallbacks(DetectEncoding(detection));
    match Choose(encs, 0, attempt)
    case Err(es) => ProcessingResult(0, 0, 1, es)
    case Ok(docs) =>
      var rs := BatchResults(p, docs, loadError, DefaultBatchSize, toFloat, stores);
      ProcessingResult(SumTotal(rs), SumSuccessful(rs), SumFailed(rs), AllErrors(rs))
  }

  /** The `async for` over the yielded batch results: the running sums. */
  method Tally(rs: seq<BatchResult>) returns (r: ProcessingResult)
    ensures r == ProcessingResult(SumTotal(rs), SumSuccessful(rs), SumFailed(rs), AllErrors(rs))
  {
    var totalRecords, successfulRecords, failedRecords := 0, 0, 0;
    var errors: seq<BatchError> := [];
    var k := 0;
    while k < |rs|
      invariant 0 <= k <= |rs|
      invariant totalRecords == SumTotal(rs[..k]) && successfulRecords == SumSuccessful(rs[..k])
      invariant failedRecords == SumFailed(rs[..k]) && errors == AllErrors(rs[..k])
    {
      assert rs[..k + 1][..k] == rs[..k];
      totalRecords := totalRecords + rs[k].total;
      successfulRecords := successfulRecords + rs[k].successful;
      failedRecords := failedRecords + rs[k].failed;
      errors := errors + rs[k].errors;
      k := k + 1;
    }
    assert rs[..k] == rs;
    r := ProcessingResult(totalRecords, successfulRecords, failedRecords, errors);
  }

  /** `process_csv_file` */
  method ProcessCsvFile(p: Processor, detection: Option<Detection>, attempt: string -> Attempt, loadError: Option<string>,
                        toFloat: string -> Option<real>, stores: nat -> StoreOutcome)
    returns (r: ProcessingResult)
    ensures r == FileResult(p, detection, attempt, loadError, toFloat, stores)
  {
    var encodings := EncodingFallbacks(DetectEncoding(detection));
    var loaded := ChooseEncoding(encodings, attempt);
    match loaded {
      case Err(es) =>
        var totalRecords := 0;
        r := ProcessingResult(totalRecords, 0, if totalRecords > 0 then totalRecords else 1, es);
      case Ok(docs) =>
        var rs := ProcessCsvInBatches(p, docs, loadError, DefaultBatchSize, toFloat, stores);
        r := Tally(rs);
    }
  }

  /**
   * A file some encoding loads reports exactly its rows as the total; one
   * that no encoding loads reports no rows, one failure and why.
   */
  lemma FileTotals(p: Processor, detection: Option<Detection>, attempt: string -> Attempt, loadError: Option<string>,
                   toFloat: string -> Option<real>, stores: nat -> StoreOutcome)
    ensures var c := Choose(EncodingFallbacks(DetectEncoding(detection)), 0, attempt);
      var r := FileResult(p, detection, attempt, loadError, toFloat, stores);
      && (c.Ok? ==> r.totalRecords == |c.value| > 0)
      && (c.Err? ==> r == ProcessingResult(0, 0, 1, c.error) && |r.errors| > 0)
  {
    var c := Choose(EncodingFallbacks(DetectEncoding(detection)), 0, attempt);
    if c.Ok? {
      BatchTotalsCountRows(p, c.value, loadError, DefaultBatchSize, toFloat, stores);
    }
  }
}
