// The training-session engine (class Trainer of app.js). The check boxes, the
// answer box, the study filter select, the clock (Date.now(), in
// milliseconds) and Math.random() are parameters of the operations that read
// them; DOM rendering is not modelled.

module App {
  import opened Pool
  import opened Generation
  import opened Answers
  import opened Scoring
  import opened RunStats
  import opened StudyFilter

  datatype Mode = Idle | Memo | Exec | Result | Stats | Study

  /** The record finishRun hands to saveStats for a run that ends at `now`. */
  function RecordOf(now: int, start: int, memo: int, sequence: seq<Stimulus>, answers: seq<string>): (r: RunRecord)
    ensures Consistent(r)
    ensures r.time == now - start && r.memo == memo
    ensures r.total == |sequence| && r.score == Score(sequence, answers)
  {
    var score := Score(sequence, answers);
    RunRecord(now - start, memo, now - start - memo, score, |sequence|, score == |sequence|)
  }

  class Trainer {
    const data: seq<Stimulus>
    var mode: Mode
    var currentSequence: seq<Stimulus>
    var userAnswers: seq<string>
    var currentMemoIndex: nat
    var startTime: int
    var memoTime: int
    var stats: seq<RunRecord>
    var studyList: seq<Stimulus>
    var studyIndex: int
    /** The answer box's current text. */
    var input: string

    /** What holds between operations, except the memo cursor bound. */
    ghost predicate Coherent()
      reads this
    {
      && (forall x :: x in currentSequence ==> x in data)
      && (forall j :: 0 <= j < |userAnswers| ==> IsAnswer(userAnswers[j]))
      && (forall x :: x in studyList ==> x in data)
      && (|studyList| > 0 ==> 0 <= studyIndex < |studyList|)
    }

    /** In Memo the cursor always points at an item still to be shown. */
    ghost predicate Valid()
      reads this
    {
      Coherent() && (mode == Memo ==> currentMemoIndex < |currentSequence|)
    }

    twostate predicate RunKept()
      reads this
    {
      && currentSequence == old(currentSequence) && userAnswers == old(userAnswers)
      && currentMemoIndex == old(currentMemoIndex) && startTime == old(startTime)
      && memoTime == old(memoTime) && input == old(input)
    }

    twostate predicate OthersKept()
      reads this
    {
      stats == old(stats) && studyList == old(studyList) && studyIndex == old(studyIndex)
    }

    /** setMode(m) and nothing else. */
    twostate predicate ModeSet(m: Mode)
      reads this
    {
      mode == m && RunKept() && OthersKept()
    }

    /** startMemo: nothing without a pool; otherwise a fresh sequence, cursor 0, clock
        started, and Memo, or Exec straight away when the sequence is empty. */
    twostate predicate MemoStarted(opts: Options, random: nat -> Roll, now: int)
      reads this
    {
      if |data| == 0 then unchanged(this)
      else
        && currentSequence == Generated(data, opts, random)
        && currentMemoIndex == 0 && startTime == now && OthersKept()
        && if |currentSequence| > 0 then
             mode == Memo && userAnswers == old(userAnswers) && memoTime == old(memoTime) && input == old(input)
           else
             mode == Exec && userAnswers == [] && input == "" && memoTime == 0
    }

    /** startExec: memo split taken, answers and answer box cleared, Exec. */
    twostate predicate ExecEntered(now: int)
      reads this
    {
      && mode == Exec && userAnswers == [] && input == "" && memoTime == now - startTime
      && currentSequence == old(currentSequence) && currentMemoIndex == old(currentMemoIndex)
      && startTime == old(startTime) && OthersKept()
    }

    /** nextMemo: the cursor moves on; past the last item, Exec starts. */
    twostate predicate MemoAdvanced(now: int)
      reads this
    {
      && currentMemoIndex == old(currentMemoIndex) + 1
      && currentSequence == old(currentSequence) && startTime == old(startTime) && OthersKept()
      && if currentMemoIndex >= |currentSequence| then
           mode == Exec && userAnswers == [] && input == "" && memoTime == now - startTime
         else
           mode == old(mode) && userAnswers == old(userAnswers) && memoTime == old(memoTime) && input == old(input)
    }

    /** submitPair: a non-blank box is stored upper-cased and trimmed at the end of the answers. */
    twostate predicate AnswerSubmitted()
      reads this
    {
      var v := Normalize(old(input));
      if v == [] then unchanged(this)
      else
        && userAnswers == old(userAnswers) + [v] && input == ""
        && mode == old(mode) && currentSequence == old(currentSequence)
        && currentMemoIndex == old(currentMemoIndex) && startTime == old(startTime)
        && memoTime == old(memoTime) && OthersKept()
    }

    /** finishRun: the run is scored, its record goes first in the history, Result. */
    twostate predicate RunFinished(now: int)
      reads this
    {
      && mode == Result && RunKept()
      && stats == [RecordOf(now, startTime, memoTime, currentSequence, userAnswers)] + old(stats)
      && studyList == old(studyList) && studyIndex == old(studyIndex)
    }

    /** navStudy: a no-op on an empty list; otherwise the cursor lands in range, and one
        step either way moves it cyclically. */
    twostate predicate StudyStepped(dir: int)
      reads this
    {
      && mode == old(mode) && RunKept() && stats == old(stats) && studyList == old(studyList)
      && (|studyList| == 0 ==> studyIndex == old(studyIndex))
      && (|studyList| > 0 ==> 0 <= studyIndex < |studyList|)
      && (|studyList| > 0 && 0 <= old(studyIndex) < |studyList| && -1 <= dir <= 1 ==>
            studyIndex == (old(studyIndex) + dir) % |studyList|)
    }

    /** The pool is what pairs.json supplied; the history is what was saved before. */
    constructor (pool: seq<Stimulus>, saved: seq<RunRecord>)
      ensures Valid()
      ensures data == pool && stats == saved && mode == Idle
      ensures currentSequence == [] && userAnswers == [] && currentMemoIndex == 0
      ensures startTime == 0 && memoTime == 0 && input == ""
      ensures studyList == [] && studyIndex == 0
    {
      data := pool;
      currentSequence := [];
      userAnswers := [];
      currentMemoIndex := 0;
      mode := Idle;
      startTime := 0;
      memoTime := 0;
      stats := saved;
      studyList := [];
      studyIndex := 0;
      input := "";
    }

    method HandleSpace(opts: Options, random: nat -> Roll, now: int)
      requires Valid()
      modifies this
      ensures Valid()
      ensures old(mode) == Idle ==> MemoStarted(opts, random, now)
      ensures old(mode) == Memo ==> MemoAdvanced(now)
      ensures old(mode) == Exec ==> unchanged(this)
      ensures old(mode) == Result ==> ModeSet(Idle)
      ensures old(mode) == Study ==> StudyStepped(1)
      ensures old(mode) == Stats ==> ModeSet(Idle)
    {
      match mode {
        case Idle => StartMemo(opts, random, now);
        case Memo => NextMemo(now);
        case Exec =>
        case Result => mode := Idle;
        case Study => NavStudy(1);
        case Stats => mode := Idle;
      }
    }

    method HandleEnter(now: int)
      requires Valid()
      modifies this
      ensures Valid()
      ensures old(mode) == Memo ==> ExecEntered(now)
      ensures old(mode) == Exec && Trim(old(input)) != [] ==>
        AnswerSubmitted() && |userAnswers| == |old(userAnswers)| + 1
      ensures old(mode) == Exec && Trim(old(input)) == [] ==> RunFinished(now)
      ensures old(mode) != Memo && old(mode) != Exec ==> unchanged(this)
    {
      if mode == Memo {
        StartExec(now);
      } else if mode == Exec {
        if Trim(input) != [] {
          NormalizeEmptyIff(input);
          SubmitPair();
        } else {
          var _, _ := FinishRun(now);
        }
      }
    }

    /** The finish button: a non-blank answer box is submitted first. */
    method PressFinish(now: int)
      requires Valid()
      modifies this
      ensures Valid()
      ensures var v := Normalize(old(input));
        && userAnswers == (if v == [] then old(userAnswers) else old(userAnswers) + [v])
        && input == (if v == [] then old(input) else "")
        && mode == Result
        && stats == [RecordOf(now, startTime, memoTime, currentSequence, userAnswers)] + old(stats)
        && currentSequence == old(currentSequence) && currentMemoIndex == old(currentMemoIndex)
        && startTime == old(startTime) && memoTime == old(memoTime)
        && studyList == old(studyList) && studyIndex == old(studyIndex)
    {
      if Trim(input) != [] {
        SubmitPair();
      }
      NormalizeEmptyIff(old(input));
      var _, _ := FinishRun(now);
    }

    method StartMemo(opts: Options, random: nat -> Roll, now: int)
      requires Valid()
      modifies this`currentSequence, this`currentMemoIndex, this`startTime, this`mode,
               this`memoTime, this`userAnswers, this`input
      ensures Valid() && MemoStarted(opts, random, now)
    {
      if |data| == 0 {
        return;
      }
      GenerateSequence(opts, random);
      currentMemoIndex := 0;
      startTime := now;
      mode := Memo;
      RenderMemo(now);
    }

    /** Fills currentSequence by pushing draws: the i-th push uses the i-th roll. */
    method GenerateSequence(opts: Options, random: nat -> Roll)
      requires Coherent() && |data| > 0
      modifies this`currentSequence
      ensures Coherent()
      ensures currentSequence == Generated(data, opts, random)
    {
      var s: seq<Stimulus> := [];
      if opts.edges {
        for i := 0 to EdgeCount
          invariant s == Draws(data, random, i)
        {
          s := s + [Pick(data, random(|s|))];
        }
      }
      if opts.corners {
        var base := |s|;
        for i := 0 to CornerCount
          invariant s == Draws(data, random, base + i)
        {
          s := s + [Pick(data, random(|s|))];
        }
      }
      var isOdd := |s| % 2 != 0;
      if (opts.parity && !isOdd) || (!opts.parity && isOdd) {
        s := s + [Pick(data, random(|s|))];
      }
      currentSequence := s;
      GeneratedInPool(data, opts, random);
    }

    /** renderMemo's end check: past the last item, Exec starts. */
    method RenderMemo(now: int)
      requires Coherent()
      modifies this`memoTime, this`mode, this`userAnswers, this`input
      ensures Valid()
      ensures currentMemoIndex >= |currentSequence| ==>
        mode == Exec && userAnswers == [] && input == "" && memoTime == now - startTime
      ensures currentMemoIndex < |currentSequence| ==> unchanged(this)
    {
      if currentMemoIndex >= |currentSequence| {
        StartExec(now);
        return;
      }
    }

    method NextMemo(now: int)
      requires Valid()
      modifies this`currentMemoIndex, this`memoTime, this`mode, this`userAnswers, this`input
      ensures Valid() && MemoAdvanced(now)
    {
      currentMemoIndex := currentMemoIndex + 1;
      RenderMemo(now);
    }

    method StartExec(now: int)
      requires Coherent()
      modifies this`memoTime, this`mode, this`userAnswers, this`input
      ensures Valid()
      ensures mode == Exec && userAnswers == [] && input == "" && memoTime == now - startTime
    {
      memoTime := now - startTime;
      mode := Exec;
      userAnswers := [];
      input := "";
    }

    /** The user edits the answer box. */
    method EditInput(text: string)
      requires Valid()
      modifies this`input
      ensures Valid() && input == text
    {
      input := text;
    }

    method SubmitPair()
      requires Valid()
      modifies this`userAnswers, this`input
      ensures Valid() && AnswerSubmitted()
    {
      var val := Normalize(input);
      if val == [] {
        return;
      }
      NormalizedIsAnswer(input);
      userAnswers := userAnswers + [val];
      input := "";
    }

    /** Scores the run position by position, saves its record and shows the result. */
    method FinishRun(now: int) returns (correct: nat, total: nat)
      requires Valid()
      modifies this`stats, this`mode
      ensures Valid() && RunFinished(now)
      ensures total == |currentSequence| && correct == Score(currentSequence, userAnswers)
      ensures correct <= total
    {
      var totalTime := now - startTime;
      var execTime := totalTime - memoTime;
      var sequence, answers := currentSequence, userAnswers;
      correct := 0;
      total := |sequence|;
      var max := if total > |answers| then total else |answers|;
      var i := 0;
      while i < max
        invariant i <= max
        invariant correct == Correct(sequence, answers, i)
      {
        var ans := if i < |answers| && answers[i] != [] then answers[i] else "-";
        var isOk := i < total && sequence[i].pair == ans;
        assert Correct(sequence, answers, i + 1) == correct + if isOk then 1 else 0;
        if isOk {
          correct := correct + 1;
        }
        i := i + 1;
      }
      assert correct == Score(currentSequence, userAnswers);
      ghost var record := RecordOf(now, startTime, memoTime, currentSequence, userAnswers);
      assert record == RunRecord(totalTime, memoTime, execTime, correct, total, correct == total);
      SaveStats(totalTime, memoTime, execTime, correct, total);
      mode := Result;
    }

    /** Puts the new record first; earlier records move down by one, unchanged. */
    method SaveStats(totalTime: int, memo: int, exec: int, score: nat, total: nat)
      modifies this`stats
      ensures stats == [RunRecord(totalTime, memo, exec, score, total, score == total)] + old(stats)
    {
      stats := [RunRecord(totalTime, memo, exec, score, total, score == total)] + stats;
    }

    method ShowStats() returns (summary: Summary)
      requires Valid()
      modifies this`mode
      ensures Valid() && mode == Stats && summary == Summarize(stats)
    {
      mode := Stats;
      summary := Summarize(stats);
    }

    /** The close buttons of the statistics and study screens. */
    method CloseScreen()
      requires Valid()
      modifies this`mode
      ensures Valid() && mode == Idle
    {
      mode := Idle;
    }

    method StartStudy(filter: string)
      requires Valid()
      modifies this`mode, this`studyList, this`studyIndex
      ensures Valid()
      ensures |data| == 0 ==> unchanged(this)
      ensures |data| > 0 ==> mode == Study && studyList == StudyList(data, filter) && studyIndex == 0
    {
      if |data| == 0 {
        return;
      }
      mode := Study;
      FilterStudy(filter);
    }

    method FilterStudy(filter: string)
      requires Valid()
      modifies this`studyList, this`studyIndex
      ensures Valid()
      ensures studyList == StudyList(data, filter) && studyIndex == 0
    {
      studyList := StudyList(data, filter);
      studyIndex := 0;
    }

    method NavStudy(dir: int)
      requires Valid()
      modifies this`studyIndex
      ensures Valid() && StudyStepped(dir)
    {
      if |studyList| == 0 {
        return;
      }
      if 0 <= studyIndex < |studyList| && -1 <= dir <= 1 {
        StepModulo(studyIndex, dir, |studyList|);
      }
      studyIndex := studyIndex + dir;
      if studyIndex < 0 {
        studyIndex := |studyList| - 1;
      }
      if studyIndex >= |studyList| {
        studyIndex := 0;
      }
    }
  }

  /** Dismissing a result keeps the old sequence and answers, yet the next run cannot
      see them: starting replaces the sequence and entering Exec clears the answers. */
  method RestartAfterResult(t: Trainer, opts: Options, random: nat -> Roll, now1: int, now2: int, now3: int)
    requires t.Valid() && t.mode == Result && |t.data| > 0
    modifies t
    ensures t.Valid() && t.mode == Exec && t.userAnswers == []
    ensures t.currentSequence == Generated(t.data, opts, random) && t.startTime == now2
    ensures t.stats == old(t.stats)
  {
    ghost var staleSequence, staleAnswers := t.currentSequence, t.userAnswers;
    t.HandleSpace(opts, random, now1);
    assert t.mode == Idle && t.currentSequence == staleSequence && t.userAnswers == staleAnswers;
    t.HandleSpace(opts, random, now2);
    if t.mode == Memo {
      t.HandleEnter(now3);
    }
  }

  /** One step from an index in range, as Euclidean remainder. */
  lemma StepModulo(index: int, dir: int, n: nat)
    requires 0 <= index < n && -1 <= dir <= 1
    ensures index + dir < 0 ==> (index + dir) % n == n - 1
    ensures index + dir >= n ==> (index + dir) % n == 0
    ensures 0 <= index + dir < n ==> (index + dir) % n == index + dir
  {
  }
}
