/**
 * `ArtistData`, the record one CSV row becomes: its field validators, the
 * genre list and the document metadata built from it.
 */
module Artist {
  import opened Wrappers
  import opened Strings
  import opened Lyrics

  /** A validated row; `songs` is the float the validator accepted. */
  datatype ArtistData = ArtistData(artist: string, genres: string, songs: real, lyric: string)

  /** One entry of a pydantic `ValidationError`: the field and the validator's message. */
  datatype FieldError = FieldError(field: string, message: string)

  /** `validate_artist` and `validate_genres`: `not v or not v.strip()` is rejected, else the stripped value. */
  function ValidateText(v: string, message: string): (r: Result<string, string>)
    ensures r.Err? <==> AllSpace(v)
    ensures r.Err? ==> r.error == message
    ensures r.Ok? ==> r.value == Strip(v) && r.value != "" && !IsSpace(r.value[0]) && !IsSpace(r.value[|r.value| - 1])
  {
    StripEmptyIffAllSpace(v);
    if v == "" || Strip(v) == "" then Err(message) else Ok(Strip(v))
  }

  /** `validate_songs` */
  function ValidateSongs(v: real): (r: Result<real, string>)
    ensures r.Ok? <==> v > 0.0
    ensures r.Ok? ==> r.value == v
  {
    if v <= 0.0 then Err("Songs count must be positive") else Ok(v)
  }

  /** `validate_lyric`: rejects blank text, then returns the cleaned text, rejecting an empty one. */
  function ValidateLyric(v: string): Result<string, string>
  {
    if v == "" || Strip(v) == "" then Err("Lyric cannot be empty")
    else
      var cleaned := CleanLyricsText(PyStr(v));
      if cleaned == "" then Err("Lyric cannot be empty after cleaning") else Ok(cleaned)
  }

  /** Text whose words are none is whitespace only. */
  lemma {:induction false} NoWordsAllSpace(s: string)
    requires Words(s) == []
    ensures AllSpace(s)
    decreases |s|
  {
    if |s| > 0 {
      if IsSpace(s[0]) {
        var u := LStrip(s);
        NoWordsAllSpace(u);
        assert s == s[..|s| - |u|] + u;
      }
    }
  }

  /** Cleaning empties exactly the whitespace-only texts. */
  lemma CleanEmptyIffAllSpace(s: string)
    ensures CleanText(s) == "" <==> AllSpace(s)
  {
    CleanIsJoinedWords(s);
    WordsAreWords(s);
    var ws := Words(s);
    if CleanText(s) == "" {
      if |ws| > 0 {
        JoinedWordsEnds(ws);
        JoinFirst(ws, " ");
      }
      NoWordsAllSpace(s);
    } else {
      StripEmptyIffAllSpace(CleanText(s));
      CleanIsStripped(s);
      if AllSpace(s) {
        AllSpaceNoWords(s);
      }
    }
  }

  lemma JoinFirst(ws: seq<string>, sep: string)
    requires |ws| > 0
    ensures |Join(ws, sep)| >= |ws[0]| && Join(ws, sep)[..|ws[0]|] == ws[0]
  {
    if |ws| > 1 {
      assert Join(ws, sep) == ws[0] + (sep + Join(ws[1..], sep));
    }
  }

  lemma AllSpaceNoWords(s: string)
    requires AllSpace(s)
    ensures Words(s) == []
  {
    if |s| > 0 {
      assert LStrip(s) == [];
    }
  }

  /** The lyric validator accepts exactly the non-blank texts and returns them cleaned; the second error never occurs. */
  lemma ValidateLyricSpec(v: string)
    ensures ValidateLyric(v).Ok? <==> !AllSpace(v)
    ensures ValidateLyric(v).Ok? ==> ValidateLyric(v).value == CleanText(v)
    ensures ValidateLyric(v) != Err("Lyric cannot be empty after cleaning")
  {
    StripEmptyIffAllSpace(v);
    CleanEmptyIffAllSpace(v);
  }

  /** Every failing validator, in field order: artist, genres, songs, lyric. */
  function FieldErrors(artist: string, genres: string, songs: real, lyric: string): seq<FieldError> {
    (match ValidateText(artist, "Artist name cannot be empty") case Err(m) => [FieldError("artist", m)] case Ok(_) => [])
    + (match ValidateText(genres, "Genres cannot be empty") case Err(m) => [FieldError("genres", m)] case Ok(_) => [])
    + (match ValidateSongs(songs) case Err(m) => [FieldError("songs", m)] case Ok(_) => [])
    + (match ValidateLyric(lyric) case Err(m) => [FieldError("lyric", m)] case Ok(_) => [])
  }

  /** `ArtistData(artist=..., genres=..., songs=..., lyric=...)` in the service's model, validators included. */
  function NewArtistData(artist: string, genres: string, songs: real, lyric: string): (r: Result<ArtistData, seq<FieldError>>)
    ensures r.Ok? <==> !AllSpace(artist) && !AllSpace(genres) && songs > 0.0 && !AllSpace(lyric)
    ensures r.Ok? ==> r.value == ArtistData(Strip(artist), Strip(genres), songs, CleanText(lyric))
    ensures r.Err? ==> r.error == FieldErrors(artist, genres, songs, lyric) && |r.error| > 0
  {
    ValidateLyricSpec(lyric);
    var errors := FieldErrors(artist, genres, songs, lyric);
    if |errors| > 0 then Err(errors)
    else Ok(ArtistData(ValidateText(artist, "").value, ValidateText(genres, "").value, songs, ValidateLyric(lyric).value))
  }

  /** A blank lyric is reported once, under its own field, whatever the other fields hold. */
  lemma BlankLyricReported(artist: string, genres: string, songs: real, lyric: string)
    requires AllSpace(lyric)
    ensures NewArtistData(artist, genres, songs, lyric).Err?
    ensures var e := NewArtistData(artist, genres, songs, lyric).error;
      e[|e| - 1] == FieldError("lyric", "Lyric cannot be empty")
  {
    StripEmptyIffAllSpace(lyric);
  }

  /** A part of the genre list that survives: stripped and not empty. */
  function Kept(part: string): seq<string> {
    if Strip(part) != "" then [Strip(part)] else []
  }

  function KeptParts(parts: seq<string>): (r: seq<string>)
    ensures forall i :: 0 <= i < |r| ==> r[i] != "" && Strip(r[i]) == r[i]
  {
    if |parts| == 0 then []
    else
      StripIdempotent(parts[0]);
      Kept(parts[0]) + KeptParts(parts[1..])
  }

  /** `get_parsed_genres` */
  function ParsedGenres(genres: string): (r: seq<string>)
    ensures forall i :: 0 <= i < |r| ==> r[i] != "" && Strip(r[i]) == r[i]
  {
    KeptParts(Split(genres, ";"))
  }

  /** The genres before the first `;` come first: that piece stripped, or nothing when it is blank. */
  lemma {:induction false} ParsedGenresCons(part: string, rest: string)
    requires ';' !in part
    ensures ParsedGenres(part + ";" + rest) == Kept(part) + ParsedGenres(rest)
  {
    SplitFirstPiece(part, ';', rest);
    var parts := Split(part + ";" + rest, ";");
    assert parts[1..] == Split(rest, ";");
  }

  /** The genres never hold a `;`. */
  lemma ParsedGenresHaveNoSeparator(genres: string)
    ensures forall i :: 0 <= i < |ParsedGenres(genres)| ==> ';' !in ParsedGenres(genres)[i]
  {
    SplitPiecesLack(genres, ';');
    KeptPartsLack(Split(genres, ";"), ';');
  }

  lemma {:induction false} SplitPiecesLack(s: string, c: char)
    ensures forall i :: 0 <= i < |Split(s, [c])| ==> c !in Split(s, [c])[i]
    decreases |s|
  {
    FindChar(s, c);
    match FindFirst(s, [c])
    case None =>
    case Some(k) =>
      SplitPiecesLack(s[k + 1..], c);
      var parts := Split(s, [c]);
      assert parts == [s[..k]] + Split(s[k + 1..], [c]);
      forall i | 0 <= i < |parts| ensures c !in parts[i] {
        if i > 0 {
          assert parts[i] == Split(s[k + 1..], [c])[i - 1];
        }
      }
  }

  lemma {:induction false} KeptPartsLack(parts: seq<string>, c: char)
    requires forall i :: 0 <= i < |parts| ==> c !in parts[i]
    ensures forall i :: 0 <= i < |KeptParts(parts)| ==> c !in KeptParts(parts)[i]
  {
    if |parts| > 0 {
      KeptPartsLack(parts[1..], c);
      KeptLacks(parts[0], c);
      ConcatLack(Kept(parts[0]), KeptParts(parts[1..]), c);
    }
  }

  lemma KeptLacks(part: string, c: char)
    requires c !in part
    ensures forall i :: 0 <= i < |Kept(part)| ==> c !in Kept(part)[i]
  {
    StripSlice(part);
  }

  lemma ConcatLack(a: seq<string>, b: seq<string>, c: char)
    requires forall i :: 0 <= i < |a| ==> c !in a[i]
    requires forall i :: 0 <= i < |b| ==> c !in b[i]
    ensures forall i :: 0 <= i < |a + b| ==> c !in (a + b)[i]
  {
    forall i | 0 <= i < |a + b| ensures c !in (a + b)[i] {
      if i >= |a| {
        assert (a + b)[i] == b[i - |a|];
      }
    }
  }

  lemma StripSlice(s: string)
    ensures forall c :: c in Strip(s) ==> c in s
  {
    var k := StripIsSlice(s);
    forall c | c in Strip(s) ensures c in s {
      var i :| 0 <= i < |Strip(s)| && Strip(s)[i] == c;
      assert s[k + i] == c;
    }
  }

  /** Joining clean genre names with `;` and parsing them back gives the names. */
  lemma {:induction false} ParsedGenresRoundTrip(names: seq<string>)
    requires forall i :: 0 <= i < |names| ==> names[i] != "" && Strip(names[i]) == names[i] && ';' !in names[i]
    ensures ParsedGenres(Join(names, ";")) == names
  {
    if |names| == 0 {
      assert Split("", ";") == [""];
      StripEmptyIffAllSpace("");
    } else {
      SplitJoin(names, ';');
      KeptAll(names);
    }
  }

  lemma {:induction false} KeptAll(names: seq<string>)
    requires forall i :: 0 <= i < |names| ==> names[i] != "" && Strip(names[i]) == names[i]
    ensures KeptParts(names) == names
  {
    if |names| > 0 {
      KeptAll(names[1..]);
      assert names == [names[0]] + names[1..];
    }
  }

  /** `int(x)` on a float: truncation toward zero. */
  function Trunc(x: real): int {
    if x >= 0.0 then x.Floor else -((-x).Floor)
  }

  /** The metadata dictionary of a document. */
  datatype Metadata = Metadata(artist: string, genres: seq<string>, songsCount: int, source: string)

  /** `get_metadata` */
  function GetMetadata(d: ArtistData): Metadata {
    Metadata(d.artist, ParsedGenres(d.genres), Trunc(d.songs), "csv_import")
  }

  /** `get_embedding_content` */
  function EmbeddingContent(d: ArtistData): string {
    "Artist: " + d.artist + ". Genres: " + Join(ParsedGenres(d.genres), ", ") + ". Songs: "
    + IntToString(Trunc(d.songs)) + " songs."
  }

  /**
   * The embedded text names the artist first and the songs count last, and
   * states the same artist, genres and count as the document's metadata.
   */
  lemma EmbeddingContentMetadata(d: ArtistData)
    ensures var m := GetMetadata(d);
      EmbeddingContent(d) == "Artist: " + m.artist + ". Genres: " + Join(m.genres, ", ") + ". Songs: "
        + IntToString(m.songsCount) + " songs."
    ensures StartsWith(EmbeddingContent(d), "Artist: " + d.artist + ". Genres: ")
    ensures var c := EmbeddingContent(d); |c| >= 7 && c[|c| - 7..] == " songs."
  {
    var head := "Artist: " + d.artist + ". Genres: ";
    var genres := Join(ParsedGenres(d.genres), ", ");
    var count := IntToString(Trunc(d.songs));
    Framed(head, genres + ". Songs: " + count, " songs.");
  }

  /** A text made of a head, a middle and an end starts with the head and ends with the end. */
  lemma Framed(head: string, middle: string, end: string)
    ensures StartsWith(head + middle + end, head)
    ensures var c := head + middle + end; |c| >= |end| && c[|c| - |end|..] == end
  {
    var c := head + middle + end;
    assert c[..|head|] == head;
    assert c[|c| - |end|..] == end;
  }

  /**
   * The metadata of a validated row: the stripped name, the genres parsed
   * from the stripped genre text (the parse is the same either way), a
   * whole song count that is never negative, and the `csv_import` source.
   */
  lemma MetadataOfValidated(artist: string, genres: string, songs: real, lyric: string)
    requires NewArtistData(artist, genres, songs, lyric).Ok?
    ensures var m := GetMetadata(NewArtistData(artist, genres, songs, lyric).value);
      && m.artist == Strip(artist) && m.artist != ""
      && m.genres == ParsedGenres(Strip(genres))
      && m.songsCount >= 0 && m.songsCount as real <= songs < m.songsCount as real + 1.0
      && m.source == "csv_import"
  {
  }

  /** Integer-valued songs counts are kept exactly; fractions are cut toward zero. */
  lemma TruncSpec(x: real)
    ensures Trunc(x) as real <= x < Trunc(x) as real + 1.0 || x < 0.0
    ensures x >= 0.0 ==> Trunc(x) >= 0
    ensures x < 0.0 ==> Trunc(x) as real - 1.0 < x <= Trunc(x) as real
  {
  }
}
