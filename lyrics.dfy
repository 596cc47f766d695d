/**
 * `clean_lyrics_text`, which appears three times with the same body:
 * newline runs become one space, whitespace runs become one space, and the
 * ends are stripped. The result is the words of the text, as `str.split()`
 * finds them, joined by single spaces.
 */
module Lyrics {
  import opened Strings

  /** The argument of `clean_lyrics_text`: `None`, a string, or another value with its `str()`. */
  datatype PyValue = PyNone | PyStr(s: string) | PyOther(str: string)

  /** The suffix after the leading `\r`/`\n` characters. */
  function DropNewlines(s: string): (r: string)
    ensures |r| <= |s|
    ensures |r| == |s| ==> r == s
    ensures |r| < |s| ==> r == s[|s| - |r|..]
    ensures r == [] || !IsNewline(r[0])
    ensures forall i :: 0 <= i < |s| - |r| ==> IsNewline(s[i])
  {
    if |s| > 0 && IsNewline(s[0]) then DropNewlines(s[1..]) else s
  }

  /** `re.sub(r"[\r\n]+", " ", s)` */
  function SubNewlines(s: string): (r: string)
    ensures |r| == 0 <==> |s| == 0
    ensures |s| > 0 ==> (IsSpace(r[0]) <==> IsSpace(s[0]))
    decreases |s|
  {
    if |s| == 0 then ""
    else if IsNewline(s[0]) then " " + SubNewlines(DropNewlines(s))
    else [s[0]] + SubNewlines(s[1..])
  }

  /** The leading run of non-whitespace characters. */
  function Word(s: string): (w: string)
    ensures |w| <= |s| && w == s[..|w|]
    ensures forall i :: 0 <= i < |w| ==> !IsSpace(w[i])
    ensures |w| == |s| || IsSpace(s[|w|])
  {
    if |s| == 0 || IsSpace(s[0]) then "" else [s[0]] + Word(s[1..])
  }

  /** `re.sub(r"\s+", " ", s)`: each whitespace run becomes one space, the text between is copied. */
  function SubSpaces(s: string): string
    decreases |s|
  {
    if |s| == 0 then ""
    else if IsSpace(s[0]) then " " + SubSpaces(LStrip(s))
    else
      var w := Word(s);
      w + SubSpaces(s[|w|..])
  }

  /** `clean_lyrics_text` on a string. */
  function CleanText(s: string): string {
    Strip(SubSpaces(SubNewlines(s)))
  }

  /** `clean_lyrics_text` */
  function CleanLyricsText(v: PyValue): (r: string)
    ensures v.PyNone? ==> r == ""
    ensures v.PyOther? ==> r == v.str
  {
    match v
    case PyNone => ""
    case PyOther(str) => str
    case PyStr(s) => CleanText(s)
  }

  /** `s.split()`: the maximal runs of non-whitespace characters, in order. */
  function Words(s: string): seq<string>
    decreases |s|
  {
    if |s| == 0 then []
    else if IsSpace(s[0]) then Words(LStrip(s))
    else
      var w := Word(s);
      [w] + Words(s[|w|..])
  }

  /** Non-empty and without whitespace: what `str.split()` produces. */
  predicate IsWord(w: string) {
    |w| > 0 && forall i :: 0 <= i < |w| ==> !IsSpace(w[i])
  }

  lemma {:induction false} WordsAreWords(s: string)
    ensures forall k :: 0 <= k < |Words(s)| ==> IsWord(Words(s)[k])
    decreases |s|
  {
    if |s| > 0 {
      if IsSpace(s[0]) {
        WordsAreWords(LStrip(s));
      } else {
        WordsAreWords(s[|Word(s)|..]);
      }
    }
  }

  lemma WordsLStrip(s: string)
    ensures Words(LStrip(s)) == Words(s)
  {
  }

  /** Leading whitespace does not change the words. */
  lemma {:induction false} WordsAfterSpace(a: string, b: string)
    requires AllSpace(a)
    ensures Words(a + b) == Words(b)
  {
    if |a| > 0 {
      LStripSpacePrefix(a, b);
      WordsLStrip(b);
    } else {
      assert a + b == b;
    }
  }

  lemma {:induction false} WordCons(c: char, x: string)
    requires !IsSpace(c)
    ensures Word([c] + x) == [c] + Word(x)
  {
    assert ([c] + x)[1..] == x;
  }

  /** A non-space character in front either starts a word of its own or joins the first word. */
  lemma {:induction false} WordsCons(c: char, x: string)
    requires !IsSpace(c)
    ensures |x| == 0 || IsSpace(x[0]) ==> Words([c] + x) == [[c]] + Words(x)
    ensures |x| > 0 && !IsSpace(x[0]) ==> Words([c] + x) == [[c] + Words(x)[0]] + Words(x)[1..]
  {
    WordCons(c, x);
    var w := Word(x);
    assert ([c] + x)[|[c] + w|..] == x[|w|..];
    if |x| == 0 || IsSpace(x[0]) {
      assert x[|w|..] == x;
    }
  }

  /** Replacing newline runs by spaces keeps the words. */
  lemma {:induction false} WordsSubNewlines(s: string)
    ensures Words(SubNewlines(s)) == Words(s)
    decreases |s|
  {
    if |s| > 0 {
      if IsNewline(s[0]) {
        var d := DropNewlines(s);
        var p := s[..|s| - |d|];
        assert s == p + d;
        WordsAfterSpace(" ", SubNewlines(d));
        WordsSubNewlines(d);
        WordsAfterSpace(p, d);
      } else if IsSpace(s[0]) {
        assert s == [s[0]] + s[1..];
        WordsAfterSpace([s[0]], SubNewlines(s[1..]));
        WordsSubNewlines(s[1..]);
        WordsAfterSpace([s[0]], s[1..]);
      } else {
        assert s == [s[0]] + s[1..];
        WordsCons(s[0], SubNewlines(s[1..]));
        WordsCons(s[0], s[1..]);
        WordsSubNewlines(s[1..]);
      }
    }
  }

  /** " " when the string ends in whitespace. */
  function Trail(t: string): string {
    if |t| > 0 && IsSpace(t[|t| - 1]) then " " else ""
  }

  lemma JoinCons(w: string, ws: seq<string>, sep: string)
    requires |ws| > 0
    ensures Join([w] + ws, sep) == w + sep + Join(ws, sep)
  {
    assert ([w] + ws)[1..] == ws;
  }

  /** From a word boundary on, collapsing runs gives the joined words and one space for trailing whitespace. */
  lemma {:induction false} SubSpacesFromWord(t: string)
    requires |t| == 0 || !IsSpace(t[0])
    ensures SubSpaces(t) == Join(Words(t), " ") + Trail(t)
    decreases |t|
  {
    if |t| > 0 {
      var rest := t[|Word(t)|..];
      if |rest| == 0 {
        WordOnly(t);
      } else if |LStrip(rest)| == 0 {
        WordThenSpace(t);
      } else {
        SubSpacesFromWord(LStrip(rest));
        WordThenMore(t);
      }
    }
  }

  lemma WordOnly(t: string)
    requires |t| > 0 && !IsSpace(t[0]) && |Word(t)| == |t|
    ensures SubSpaces(t) == Join(Words(t), " ") + Trail(t)
  {
    var w := Word(t);
    WordThenRest(t);
    assert t[|t| - 1] == w[|w| - 1];
    assert w + "" == w;
  }

  lemma WordThenSpace(t: string)
    requires |t| > 0 && !IsSpace(t[0]) && |Word(t)| < |t| && |LStrip(t[|Word(t)|..])| == 0
    ensures SubSpaces(t) == Join(Words(t), " ") + Trail(t)
  {
    var w := Word(t);
    var rest := t[|w|..];
    WordThenRest(t);
    SpaceRun(rest);
    var u := LStrip(rest);
    assert u == [];
    assert SubSpaces(rest) == " ";
    assert Words(rest) == [];
    assert Words(t) == [w];
    TrailAppend(w, rest);
    assert Trail(rest) == " ";
  }

  lemma TrailAppend(a: string, b: string)
    requires |b| > 0
    ensures Trail(a + b) == Trail(b)
  {
    assert (a + b)[|a + b| - 1] == b[|b| - 1];
  }

  lemma WordThenMore(t: string)
    requires |t| > 0 && !IsSpace(t[0]) && |Word(t)| < |t|
    requires var u := LStrip(t[|Word(t)|..]); |u| > 0 && SubSpaces(u) == Join(Words(u), " ") + Trail(u)
    ensures SubSpaces(t) == Join(Words(t), " ") + Trail(t)
  {
    var w := Word(t);
    var rest := t[|w|..];
    var u := LStrip(rest);
    WordThenRest(t);
    SpaceRun(rest);
    assert t[|t| - 1] == rest[|rest| - 1];
    FromWordStep(w, Words(u), SubSpaces(u), Trail(u));
  }

  /** A string that starts with a word: the word, then the rest. */
  lemma WordThenRest(t: string)
    requires |t| > 0 && !IsSpace(t[0])
    ensures var w := Word(t); var rest := t[|w|..];
      && |w| > 0 && !IsSpace(w[|w| - 1]) && t == w + rest
      && SubSpaces(t) == w + SubSpaces(rest)
      && Words(t) == [w] + Words(rest)
      && (|rest| == 0 || IsSpace(rest[0]))
  {
    var w := Word(t);
    assert t == w + t[|w|..];
  }

  /** A string that starts with whitespace: one space, then what follows the run. */
  lemma SpaceRun(rest: string)
    requires |rest| > 0 && IsSpace(rest[0])
    ensures var u := LStrip(rest);
      && SubSpaces(rest) == " " + SubSpaces(u)
      && Words(rest) == Words(u)
      && (|u| == 0 ==> IsSpace(rest[|rest| - 1]))
      && (|u| > 0 ==> rest[|rest| - 1] == u[|u| - 1])
  {
    var u := LStrip(rest);
    if |u| == 0 {
      assert rest[..|rest|] == rest;
    }
  }

  lemma FromWordStep(w: string, ws: seq<string>, su: string, tr: string)
    requires |ws| > 0
    requires su == Join(ws, " ") + tr
    ensures w + (" " + su) == Join([w] + ws, " ") + tr
  {
    JoinCons(w, ws, " ");
    AppendAssoc4(w, " ", Join(ws, " "), tr);
  }

  /** Words joined by single spaces neither start nor end with whitespace. */
  lemma {:induction false} JoinedWordsEnds(ws: seq<string>)
    requires forall k :: 0 <= k < |ws| ==> IsWord(ws[k])
    ensures var j := Join(ws, " "); j == [] || (!IsSpace(j[0]) && !IsSpace(j[|j| - 1]))
  {
    if |ws| > 1 {
      JoinedWordsEnds(ws[1..]);
      var j := Join(ws, " ");
      var r := Join(ws[1..], " ");
      assert j == ws[0] + " " + r;
      assert j[0] == ws[0][0];
      assert j[|j| - 1] == r[|r| - 1];
    } else if |ws| == 1 {
      assert IsWord(ws[0]);
    }
  }

  lemma StripUnpadded(s: string)
    requires s == [] || (!IsSpace(s[0]) && !IsSpace(s[|s| - 1]))
    ensures Strip(s) == s
  {
  }

  /** " " when the string starts with whitespace. */
  function Lead(t: string): string {
    if |t| > 0 && IsSpace(t[0]) then " " else ""
  }

  lemma LeadRun(t: string)
    ensures SubSpaces(t) == Lead(t) + SubSpaces(LStrip(t))
    ensures Words(t) == Words(LStrip(t))
    ensures AllSpace(Lead(t)) && AllSpace(Trail(t))
  {
    if |t| > 0 && IsSpace(t[0]) {
      assert SubSpaces(t) == " " + SubSpaces(LStrip(t));
      assert Words(t) == Words(LStrip(t));
    } else {
      assert LStrip(t) == t;
      assert Lead(t) == "";
      assert "" + SubSpaces(t) == SubSpaces(t);
    }
    assert AllSpace(" ") by {
      assert " "[0] == ' ';
    }
  }

  lemma JoinedWordsUnpadded(ws: seq<string>)
    requires forall k :: 0 <= k < |ws| ==> IsWord(ws[k])
    ensures Strip(Join(ws, " ")) == Join(ws, " ")
  {
    JoinedWordsEnds(ws);
    StripUnpadded(Join(ws, " "));
  }

  /** Collapsing whitespace runs and stripping gives the words joined by single spaces. */
  lemma {:induction false} CollapseIsJoinedWords(t: string)
    ensures Strip(SubSpaces(t)) == Join(Words(t), " ")
  {
    var u := LStrip(t);
    var a, b := Lead(t), Trail(u);
    var ws := Words(u);
    var j := Join(ws, " ");
    LeadRun(t);
    LeadRun(u);
    assert SubSpaces(t) == a + SubSpaces(u);
    SubSpacesFromWord(u);
    assert SubSpaces(u) == j + b;
    AppendAssoc(a, j, b);
    assert SubSpaces(t) == a + j + b;
    StripPadded(a, j, b);
    assert Strip(SubSpaces(t)) == Strip(j);
    WordsAreWords(u);
    JoinedWordsUnpadded(ws);
    assert Strip(j) == j;
    assert Words(t) == ws;
  }

  /** `clean_lyrics_text(s) == " ".join(s.split())` */
  lemma {:induction false} CleanIsJoinedWords(s: string)
    ensures CleanText(s) == Join(Words(s), " ")
  {
    CollapseIsJoinedWords(SubNewlines(s));
    WordsSubNewlines(s);
  }

  /**
   * Inside words joined by single spaces, every whitespace character is a
   * plain space with a non-whitespace character on each side.
   */
  lemma {:induction false} JoinedWordsSpacing(ws: seq<string>, i: nat)
    requires forall k :: 0 <= k < |ws| ==> IsWord(ws[k])
    requires i < |Join(ws, " ")| && IsSpace(Join(ws, " ")[i])
    ensures var j := Join(ws, " ");
      j[i] == ' ' && 0 < i < |j| - 1 && !IsSpace(j[i - 1]) && !IsSpace(j[i + 1])
  {
    var j := Join(ws, " ");
    var w, r := ws[0], Join(ws[1..], " ");
    assert j == w + " " + r;
    assert IsWord(w);
    JoinedWordsEnds(ws[1..]);
    if i >= |w| + 1 {
      assert j[i] == r[i - |w| - 1];
      if i > |w| + 1 {
        JoinedWordsSpacing(ws[1..], i - |w| - 1);
        assert j[i - 1] == r[i - |w| - 2];
      }
      assert j[i + 1] == r[i - |w|];
    }
    assert i != |w| || (j[i - 1] == w[|w| - 1] && j[i + 1] == r[0]);
  }

  /** The cleaned text holds no `\r` or `\n`. */
  lemma CleanHasNoNewlines(s: string)
    ensures '\r' !in CleanText(s) && '\n' !in CleanText(s)
  {
    CleanIsJoinedWords(s);
    WordsAreWords(s);
    var j := CleanText(s);
    forall i | 0 <= i < |j| && IsNewline(j[i])
      ensures false
    {
      JoinedWordsSpacing(Words(s), i);
    }
  }

  /** The cleaned text never has two whitespace characters in a row. */
  lemma CleanHasNoDoubleSpace(s: string)
    ensures var j := CleanText(s); forall i :: 0 <= i < |j| - 1 ==> !(IsSpace(j[i]) && IsSpace(j[i + 1]))
  {
    CleanIsJoinedWords(s);
    WordsAreWords(s);
    var j := CleanText(s);
    forall i | 0 <= i < |j| - 1 && IsSpace(j[i])
      ensures !IsSpace(j[i + 1])
    {
      JoinedWordsSpacing(Words(s), i);
    }
  }

  /** The cleaned text neither starts nor ends with whitespace. */
  lemma CleanIsStripped(s: string)
    ensures var j := CleanText(s); j == [] || (!IsSpace(j[0]) && !IsSpace(j[|j| - 1]))
  {
    CleanIsJoinedWords(s);
    WordsAreWords(s);
    JoinedWordsEnds(Words(s));
  }

  /** Cleaning keeps the words: cleaning an already clean text changes nothing. */
  lemma CleanIdempotent(s: string)
    ensures CleanText(CleanText(s)) == CleanText(s)
  {
    CleanIsJoinedWords(s);
    CleanIsJoinedWords(CleanText(s));
    WordsAreWords(s);
    WordsOfJoined(Words(s));
  }

  /** Splitting words joined by single spaces gives the words back. */
  lemma {:induction false} WordsOfJoined(ws: seq<string>)
    requires forall k :: 0 <= k < |ws| ==> IsWord(ws[k])
    ensures Words(Join(ws, " ")) == ws
  {
    if |ws| == 1 {
      WordsAlone(ws[0], "");
      assert ws[0] + "" == ws[0];
    } else if |ws| > 1 {
      var r := Join(ws[1..], " ");
      WordsOfJoined(ws[1..]);
      JoinCons(ws[0], ws[1..], " ");
      assert [ws[0]] + ws[1..] == ws;
      WordsSpaceSep(ws[0], r);
    }
  }

  lemma WordsSpaceSep(w: string, r: string)
    requires IsWord(w)
    ensures Words(w + " " + r) == [w] + Words(r)
  {
    var x := " " + r;
    assert w + " " + r == w + x;
    WordsAlone(w, x);
    assert Words(w + x) == [w] + Words(x);
    WordsAfterSpace(" ", r);
    assert Words(x) == Words(r);
  }

  /** A word followed by whitespace, or by nothing, is the first word. */
  lemma {:induction false} WordsAlone(w: string, rest: string)
    requires IsWord(w)
    requires |rest| == 0 || IsSpace(rest[0])
    ensures Words(w + rest) == [w] + Words(rest)
  {
    var t := w + rest;
    assert t[0] == w[0];
    WordOfWord(w, rest);
    assert t[|w|..] == rest;
  }

  lemma {:induction false} WordOfWord(w: string, rest: string)
    requires forall i :: 0 <= i < |w| ==> !IsSpace(w[i])
    requires |rest| == 0 || IsSpace(rest[0])
    ensures Word(w + rest) == w
  {
    if |w| > 0 {
      assert (w + rest)[1..] == w[1..] + rest;
      WordOfWord(w[1..], rest);
      assert w == [w[0]] + w[1..];
    } else {
      assert w + rest == rest;
    }
  }
}
