/**
 * Reading the winner out of the judge model's free-text verdict. The model
 * itself is an oracle: its reply is a string, or None when the call raised.
 */
module JudgeAgent {
  import opened Wrappers
  import opened Strings

  const ErrorWinner: string := "Error"
  const ErrorFeedback: string := "Exception occurred while judging the round. Try again."

  /** The lowercased verdict contains "winner: <name>" or "the winner is <name>", name lowercased. */
  predicate Names(lowerJudgment: string, name: string) {
    Contains(lowerJudgment, "winner: " + Lower(name)) || Contains(lowerJudgment, "the winner is " + Lower(name))
  }

  /**
   * `_extract_winner`: rapper1 unless only rapper2 is named; the verdict is
   * passed on unchanged as the feedback.
   */
  function ExtractWinner(judgment: string, r1: string, r2: string): (r: (string, string))
    ensures r.0 == r1 || r.0 == r2
    ensures r.1 == judgment
  {
    var lowerJudgment := Lower(judgment);
    var winner :=
      if Names(lowerJudgment, r1) then r1
      else if Names(lowerJudgment, r2) then r2
      else r1;
    (winner, judgment)
  }

  /** rapper2 is chosen exactly when the verdict names rapper2 and does not name rapper1. */
  lemma ExtractWinnerSecond(judgment: string, r1: string, r2: string)
    requires r1 != r2
    ensures ExtractWinner(judgment, r1, r2).0 == r2 <==> !Names(Lower(judgment), r1) && Names(Lower(judgment), r2)
  {
  }

  /** Naming rapper1 decides for rapper1, whatever else the verdict says. */
  lemma {:induction false} ExtractWinnerFirstNamed(pre: string, post: string, r1: string, r2: string)
    ensures ExtractWinner(pre + "Winner: " + r1 + post, r1, r2).0 == r1
  {
    var j := pre + "Winner: " + r1 + post;
    LowerConcat(pre, "Winner: " + r1 + post);
    LowerConcat("Winner: " + r1, post);
    LowerConcat("Winner: ", r1);
    assert Lower("Winner: ") == "winner: ";
    var lj := Lower(j);
    var pat := "winner: " + Lower(r1);
    assert lj == Lower(pre) + pat + Lower(post);
    assert lj[|Lower(pre)|..|Lower(pre)| + |pat|] == pat;
    ContainsAt(lj, pat, |Lower(pre)|);
  }

  /** A verdict that says "The winner is <rapper2>" and never names rapper1 goes to rapper2. */
  lemma {:induction false} ExtractWinnerSecondNamed(pre: string, post: string, r1: string, r2: string)
    requires !Names(Lower(pre + "The winner is " + r2 + post), r1)
    ensures ExtractWinner(pre + "The winner is " + r2 + post, r1, r2).0 == r2
  {
    var j := pre + "The winner is " + r2 + post;
    LowerConcat(pre, "The winner is " + r2 + post);
    LowerConcat("The winner is " + r2, post);
    LowerConcat("The winner is ", r2);
    assert Lower("The winner is ") == "the winner is ";
    var lj := Lower(j);
    var pat := "the winner is " + Lower(r2);
    assert lj == Lower(pre) + pat + Lower(post);
    assert lj[|Lower(pre)|..|Lower(pre)| + |pat|] == pat;
    ContainsAt(lj, pat, |Lower(pre)|);
  }

  /** The test ignores case: lowercasing the verdict first picks the same winner. */
  lemma ExtractWinnerIgnoresCase(judgment: string, r1: string, r2: string)
    ensures ExtractWinner(Lower(judgment), r1, r2).0 == ExtractWinner(judgment, r1, r2).0
  {
    assert Lower(Lower(judgment)) == Lower(judgment);
  }

  /** `judge_round`: the extracted verdict, or the fixed error pair when the model call raised. */
  function JudgeRound(reply: Option<string>, r1: string, r2: string): (r: (string, string))
    ensures reply.None? ==> r == (ErrorWinner, ErrorFeedback)
    ensures reply.Some? ==> (r.0 == r1 || r.0 == r2) && r.1 == reply.value
    ensures r.0 == r1 || r.0 == r2 || r.0 == ErrorWinner
  {
    match reply
    case None => (ErrorWinner, ErrorFeedback)
    case Some(text) => ExtractWinner(text, r1, r2)
  }
}
