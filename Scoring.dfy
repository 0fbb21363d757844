// Scoring (Trainer.finishRun): every position up to the longer of the
// sequence and the answers is visited; a position is correct when a target
// exists there and its pair code equals the answer shown for that position,
// which is "-" where no answer was given.

module Scoring {
  import opened Pool

  /** `userAnswers[i] || '-'`: the answer at i, or "-" when there is none (or it is empty). */
  function AnswerAt(answers: seq<string>, i: nat): (a: string)
    ensures i < |answers| && answers[i] != [] ==> a == answers[i]
    ensures i >= |answers| ==> a == "-"
  {
    if i < |answers| && answers[i] != [] then answers[i] else "-"
  }

  /** `target && target.pair === ans`. */
  function IsOk(sequence: seq<Stimulus>, answers: seq<string>, i: nat): (ok: bool)
    ensures ok ==> i < |sequence|
    ensures i < |sequence| && i >= |answers| ==> (ok <==> sequence[i].pair == "-")
    ensures i < |answers| && answers[i] != [] ==> (ok <==> i < |sequence| && sequence[i].pair == answers[i])
  {
    i < |sequence| && sequence[i].pair == AnswerAt(answers, i)
  }

  /** Number of correct positions among the first n. */
  function Correct(sequence: seq<Stimulus>, answers: seq<string>, n: nat): (c: nat)
    ensures c <= n
  {
    if n == 0 then 0
    else Correct(sequence, answers, n - 1) + (if IsOk(sequence, answers, n - 1) then 1 else 0)
  }

  function Max(a: nat, b: nat): nat
  {
    if a < b then b else a
  }

  /** The score finishRun computes: correct positions over max(|sequence|, |answers|). */
  function Score(sequence: seq<Stimulus>, answers: seq<string>): (score: nat)
    ensures score <= |sequence|
    ensures score == Correct(sequence, answers, |sequence|)
  {
    CorrectBounded(sequence, answers, Max(|sequence|, |answers|));
    CorrectPastEnd(sequence, answers, Max(|sequence|, |answers|));
    Correct(sequence, answers, Max(|sequence|, |answers|))
  }

  /** No more positions are correct than there are targets. */
  lemma {:induction false} CorrectBounded(sequence: seq<Stimulus>, answers: seq<string>, n: nat)
    ensures Correct(sequence, answers, n) <= |sequence|
  {
    if n > 0 {
      CorrectBounded(sequence, answers, n - 1);
    }
  }

  /** Positions past the end of the sequence never score. */
  lemma {:induction false} CorrectPastEnd(sequence: seq<Stimulus>, answers: seq<string>, n: nat)
    requires n >= |sequence|
    ensures Correct(sequence, answers, n) == Correct(sequence, answers, |sequence|)
  {
    if n > |sequence| {
      CorrectPastEnd(sequence, answers, n - 1);
    }
  }

  /** All of the first n positions are correct exactly when the count reaches n. */
  lemma {:induction false} CorrectAllIff(sequence: seq<Stimulus>, answers: seq<string>, n: nat)
    ensures Correct(sequence, answers, n) == n <==> forall i :: 0 <= i < n ==> IsOk(sequence, answers, i)
  {
    if n > 0 {
      CorrectAllIff(sequence, answers, n - 1);
      CorrectBounded(sequence, answers, n - 1);
    }
  }

  /** A run succeeds (score == total) exactly when every target has a matching answer
      at its position; answers after the last target do not matter. Pair codes are
      never "-" and stored answers are never empty. */
  lemma SuccessIffAllMatched(sequence: seq<Stimulus>, answers: seq<string>)
    requires forall x :: x in sequence ==> x.pair != "-"
    requires forall j :: 0 <= j < |answers| ==> answers[j] != []
    ensures Score(sequence, answers) == |sequence|
        <==> |answers| >= |sequence| && forall i :: 0 <= i < |sequence| ==> answers[i] == sequence[i].pair
  {
    CorrectAllIff(sequence, answers, |sequence|);
    forall i | 0 <= i < |sequence|
      ensures IsOk(sequence, answers, i) <==> i < |answers| && answers[i] == sequence[i].pair
    {
      assert sequence[i] in sequence;
    }
  }

  /** Targets AB, CD, EF against answers AB, XX: one correct of three, not a success. */
  lemma ShortAnswerScenario(a: Stimulus, b: Stimulus, c: Stimulus)
    requires a.pair == "AB" && b.pair == "CD" && c.pair == "EF"
    ensures Score([a, b, c], ["AB", "XX"]) == 1
    ensures IsOk([a, b, c], ["AB", "XX"], 0)
    ensures !IsOk([a, b, c], ["AB", "XX"], 1) && !IsOk([a, b, c], ["AB", "XX"], 2)
  {
    var s, ans := [a, b, c], ["AB", "XX"];
    assert "XX" != "CD" by { assert "XX"[0] != "CD"[0]; }
    assert Correct(s, ans, 1) == 1;
    assert Correct(s, ans, 2) == 1;
    assert Correct(s, ans, 3) == 1;
  }

  /** A trailing extra answer does not make a run fail. */
  lemma ExtraAnswerScenario(a: Stimulus)
    requires a.pair == "AB"
    ensures Score([a], ["AB", "XX"]) == 1
  {
    var s, ans := [a], ["AB", "XX"];
    assert Correct(s, ans, 1) == 1;
    assert Correct(s, ans, 2) == 1;
  }
}
