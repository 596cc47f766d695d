/**
 * Turning the parallel verse generator's output into the two verses of a
 * round, with a canned fallback. The generator is an oracle: its list of
 * `{rapper_name, content}` entries, or None when it raised.
 */
module VerseGeneration {
  import opened Wrappers
  import opened Strings
  import opened Models

  const Line0: string := "I'm the king of this game, no one can compete"
  const Line1: string := "My rhymes are so fire, they can't be beat"
  const Line2: string := "Step to me wrong and you'll face defeat"
  const Line3: string := "I'm on another level, my flow's so neat"
  const Line4: string := "Respect my name, I'm elite on the street"
  const Line5: string := "My words cut deep, my verses are sweet"
  const Line6: string := "You can't match my style, accept your defeat"
  const Line7: string := "I rise to the top, that's my main feat"

  const FallbackLines: seq<string> := [Line0, Line1, Line2, Line3, Line4, Line5, Line6, Line7]

  /** The positions `random.sample(fallback_lines, 4)` may pick: four distinct indices. */
  predicate IsSample(idx: seq<nat>) {
    && |idx| == 4
    && (forall i :: 0 <= i < 4 ==> idx[i] < |FallbackLines|)
    && (forall i, j :: 0 <= i < j < 4 ==> idx[i] != idx[j])
  }

  function SampleLines(idx: seq<nat>): (lines: seq<string>)
    requires IsSample(idx)
    ensures |lines| == 4
    ensures forall i :: 0 <= i < 4 ==> lines[i] == FallbackLines[idx[i]]
  {
    seq(4, i requires 0 <= i < 4 => FallbackLines[idx[i]])
  }

  /** `"\n".join(random.sample(fallback_lines, 4))` for the sampled positions. */
  function FallbackContent(idx: seq<nat>): string
    requires IsSample(idx)
  {
    Join(SampleLines(idx), "\n")
  }

  ghost predicate IsFallbackContent(s: string) {
    exists idx :: IsSample(idx) && s == FallbackContent(idx)
  }

  /** The first and fifth characters of a line, which already tell the fixed lines apart. */
  function Key(line: string): (char, char) {
    if |line| < 5 then (' ', ' ') else (line[0], line[4])
  }

  lemma FallbackLine0()
    ensures '\n' !in Line0 && Key(Line0) == ('I', 't')
  {
    var a, b := "I'm the king of this game, ", "no one can compete";
    assert '\n' !in a && '\n' !in b;
    assert Line0 == a + b;
  }

  lemma FallbackLine1()
    ensures '\n' !in Line1 && Key(Line1) == ('M', 'h')
  {
    var a, b := "My rhymes are so fire, ", "they can't be beat";
    assert '\n' !in a && '\n' !in b;
    assert Line1 == a + b;
  }

  lemma FallbackLine2()
    ensures '\n' !in Line2 && Key(Line2) == ('S', ' ')
  {
    var a, b := "Step to me wrong and ", "you'll face defeat";
    assert '\n' !in a && '\n' !in b;
    assert Line2 == a + b;
  }

  lemma FallbackLine3()
    ensures '\n' !in Line3 && Key(Line3) == ('I', 'o')
  {
    var a, b := "I'm on another level, ", "my flow's so neat";
    assert '\n' !in a && '\n' !in b;
    assert Line3 == a + b;
  }

  lemma FallbackLine4()
    ensures '\n' !in Line4 && Key(Line4) == ('R', 'e')
  {
    var a, b, c := "Respect my name, ", "I'm elite ", "on the street";
    assert '\n' !in a && '\n' !in b && '\n' !in c;
    assert Line4 == a + b + c;
  }

  lemma FallbackLine5()
    ensures '\n' !in Line5 && Key(Line5) == ('M', 'o')
  {
    var a, b := "My words cut deep, ", "my verses are sweet";
    assert '\n' !in a && '\n' !in b;
    assert Line5 == a + b;
  }

  lemma FallbackLine6()
    ensures '\n' !in Line6 && Key(Line6) == ('Y', 'c')
  {
    var a, b := "You can't match my style, ", "accept your defeat";
    assert '\n' !in a && '\n' !in b;
    assert Line6 == a + b;
  }

  lemma FallbackLine7()
    ensures '\n' !in Line7 && Key(Line7) == ('I', 's')
  {
    var a, b := "I rise to the top, ", "that's my main feat";
    assert '\n' !in a && '\n' !in b;
    assert Line7 == a + b;
  }

  /** The fixed lines are pairwise different and none contains a line break. */
  lemma FallbackLinesShape()
    ensures forall i, j :: 0 <= i < j < |FallbackLines| ==> FallbackLines[i] != FallbackLines[j]
    ensures forall i :: 0 <= i < |FallbackLines| ==> '\n' !in FallbackLines[i]
  {
    FallbackLine0();
    FallbackLine1();
    FallbackLine2();
    FallbackLine3();
    FallbackLine4();
    FallbackLine5();
    FallbackLine6();
    FallbackLine7();
    var keys := seq(8, i requires 0 <= i < 8 => Key(FallbackLines[i]));
    assert keys == [('I', 't'), ('M', 'h'), ('S', ' '), ('I', 'o'), ('R', 'e'), ('M', 'o'), ('Y', 'c'), ('I', 's')];
  }

  /** A fallback verse is four different lines of the fixed list, one per line. */
  lemma {:induction false} FallbackContentLines(idx: seq<nat>)
    requires IsSample(idx)
    ensures |Split(FallbackContent(idx), "\n")| == 4
    ensures forall i :: 0 <= i < 4 ==> Split(FallbackContent(idx), "\n")[i] in FallbackLines
    ensures forall i, j :: 0 <= i < j < 4 ==>
      Split(FallbackContent(idx), "\n")[i] != Split(FallbackContent(idx), "\n")[j]
  {
    FallbackLinesShape();
    var lines := SampleLines(idx);
    SplitJoin(lines, '\n');
  }

  /** `_generate_fallback_verses`: two independent samples, tagged with the round and the battle's names. */
  method GenerateFallbackVerses(battle: Battle, round: Round) returns (v1: Verse, v2: Verse)
    ensures v1.roundId == round.id && v1.rapperName == battle.rapper1Name && IsFallbackContent(v1.content)
    ensures v2.roundId == round.id && v2.rapperName == battle.rapper2Name && IsFallbackContent(v2.content)
  {
    assert IsSample([0, 1, 2, 3]);
    var idx1: seq<nat> :| IsSample(idx1);
    var idx2: seq<nat> :| IsSample(idx2);
    v1 := Verse(round.id, battle.rapper1Name, FallbackContent(idx1));
    v2 := Verse(round.id, battle.rapper2Name, FallbackContent(idx2));
  }

  /** Entry `i` is the last one attributed to `name`. */
  predicate LastWith(verses: seq<NamedVerse>, i: int, name: string) {
    && 0 <= i < |verses| && verses[i].rapperName == name
    && forall j :: i < j < |verses| ==> verses[j].rapperName != name
  }

  /** The content of the last entry attributed to `name`. */
  function LastContentFor(verses: seq<NamedVerse>, name: string): (r: Option<string>)
    ensures r.None? <==> forall i :: 0 <= i < |verses| ==> verses[i].rapperName != name
    ensures r.Some? ==> exists i :: LastWith(verses, i, name) && verses[i].content == r.value
  {
    if |verses| == 0 then None
    else if verses[|verses| - 1].rapperName == name then
      assert LastWith(verses, |verses| - 1, name);
      Some(verses[|verses| - 1].content)
    else
      var init := verses[..|verses| - 1];
      var t := LastContentFor(init, name);
      assert forall j :: 0 <= j < |init| ==> init[j] == verses[j];
      assert t.Some? ==> forall i :: LastWith(init, i, name) ==> LastWith(verses, i, name);
      t
  }

  /**
   * The verse the loop keeps for rapper2: an entry is only checked against
   * rapper2's name when it does not match rapper1's (`elif`).
   */
  function SecondContent(verses: seq<NamedVerse>, r1: string, r2: string): (r: Option<string>)
    ensures r1 == r2 ==> r.None?
  {
    if r1 == r2 then None else LastContentFor(verses, r2)
  }

  /**
   * The verse texts a round may receive from a generator result: the last
   * entry for each rapper when both are present, otherwise two fallback verses.
   */
  ghost predicate ChosenContents(r1: string, r2: string, result: Option<seq<NamedVerse>>, c1: string, c2: string)
  {
    if result.Some? && LastContentFor(result.value, r1).Some? && SecondContent(result.value, r1, r2).Some? then
      c1 == LastContentFor(result.value, r1).value && c2 == SecondContent(result.value, r1, r2).value
    else IsFallbackContent(c1) && IsFallbackContent(c2)
  }

  /** `generate_verses_for_round` */
  method GenerateVersesForRound(battle: Battle, round: Round, result: Option<seq<NamedVerse>>)
    returns (v1: Verse, v2: Verse)
    ensures v1.roundId == round.id && v1.rapperName == battle.rapper1Name
    ensures v2.roundId == round.id && v2.rapperName == battle.rapper2Name
    ensures ChosenContents(battle.rapper1Name, battle.rapper2Name, result, v1.content, v2.content)
    ensures battle.rapper1Name == battle.rapper2Name ==> IsFallbackContent(v1.content) && IsFallbackContent(v2.content)
  {
    if result.None? {
      v1, v2 := GenerateFallbackVerses(battle, round);
      return;
    }
    var verses := result.value;
    var c1: Option<string> := None;
    var c2: Option<string> := None;
    var k := 0;
    while k < |verses|
      invariant 0 <= k <= |verses|
      invariant c1 == LastContentFor(verses[..k], battle.rapper1Name)
      invariant c2 == SecondContent(verses[..k], battle.rapper1Name, battle.rapper2Name)
    {
      assert verses[..k + 1][..k] == verses[..k];
      if verses[k].rapperName == battle.rapper1Name {
        c1 := Some(verses[k].content);
      } else if verses[k].rapperName == battle.rapper2Name {
        c2 := Some(verses[k].content);
      }
      k := k + 1;
    }
    assert verses[..k] == verses;
    if c1.None? || c2.None? {
      v1, v2 := GenerateFallbackVerses(battle, round);
    } else {
      v1 := Verse(round.id, battle.rapper1Name, c1.value);
      v2 := Verse(round.id, battle.rapper2Name, c2.value);
    }
  }
}
