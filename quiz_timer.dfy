/**
  The quiz round of app.js over time, with the delayed reset after a wrong
  answer as a timer of its own.

  `onAnswer` (app.js:351-357) schedules `resetBird` 700 ms after a wrong
  answer and nothing cancels it. The wrong answer does not re-render the page,
  so the quiz button stays enabled (app.js:547, 605) and the quiz can be
  reopened and answered before the timer fires. `BirdSession.Session.OnAnswer`
  applies the reset at the event; this module keeps the timer as written and
  shows which invariant its late firing breaks.

  A round is reduced to the fields the quiz flow reads and writes. Collecting
  the five cards (the feed and scan walk-throughs of BirdScenario) is one input,
  and an answer is only right or wrong.
 */
module QuizTimer {
  import opened Wrappers
  import opened BirdData
  import opened BirdSession

  /** The quiz-related part of `state`, the two dialogs and the number of resets still scheduled. */
  datatype Round = Round(
    collected: set<Part>,
    step: int,
    assembled: set<Part>,
    quizShown: bool,
    assembleShown: bool,
    pending: nat)

  /** The user's clicks and the firing of a scheduled reset. */
  datatype Input =
    | CollectAll          // the five feed-and-scan rounds on the page
    | QuizButton          // btnQuiz → openQuiz
    | Answer(correct: bool)
    | ContinueButton      // btnContinue → continueAfterAssemble
    | TimerFires          // a scheduled resetBird(true) runs

  const START: Round := Round({}, 0, {}, false, false, 0)

  const ALL_PARTS: set<Part> := {Legs, Body, Wing, Tail, Head}

  /** The page controls lie beneath the dialogs; the dialog buttons exist only while their dialog shows. */
  predicate Enabled(r: Round, i: Input)
  {
    match i
    case CollectAll => !r.quizShown && !r.assembleShown
    case QuizButton => !r.quizShown && !r.assembleShown && AllCollected(r.collected)
    case Answer(_) => r.quizShown && 0 <= r.step < |PART_ORDER|
    case ContinueButton => r.assembleShown && 0 <= r.step < |PART_ORDER|
    case TimerFires => r.pending > 0
  }

  /** What resetBird does to the round; it closes neither dialog. */
  function Reset(r: Round): (n: Round)
    ensures n.collected == {} && n.step == 0 && n.assembled == {}
    ensures n.quizShown == r.quizShown && n.assembleShown == r.assembleShown && n.pending == r.pending
  {
    r.(collected := {}, step := 0, assembled := {})
  }

  /** One input as app.js handles it: a wrong answer schedules the reset. */
  function Next(r: Round, i: Input): (n: Round)
    requires Enabled(r, i)
    ensures 0 <= r.step < |PART_ORDER| ==> 0 <= n.step < |PART_ORDER|
    ensures n.pending == r.pending + (if i == Answer(false) then 1 else 0) - (if i == TimerFires then 1 else 0)
    ensures n.assembled == r.assembled || n.assembled == {}
         || (i == Answer(true) && n.assembled == r.assembled + {PART_ORDER[r.step]})
  {
    match i
    case CollectAll => r.(collected := ALL_PARTS)
    case QuizButton => r.(quizShown := true)
    case Answer(correct) =>
      if correct then r.(assembled := r.assembled + {PART_ORDER[r.step]}, quizShown := false, assembleShown := true)
      else r.(quizShown := false, pending := r.pending + 1)
    case ContinueButton =>
      if r.step == |PART_ORDER| - 1 then Reset(r.(assembleShown := false))
      else r.(step := r.step + 1, assembleShown := false, quizShown := AllCollected(r.collected))
    case TimerFires => Reset(r.(pending := r.pending - 1))
  }

  /** The round after a sequence of inputs, or None when one of them cannot be given. */
  function Run(r: Round, trace: seq<Input>): (o: Option<Round>)
    ensures trace == [] ==> o == Some(r)
    decreases |trace|
  {
    if trace == [] then Some(r)
    else if Enabled(r, trace[0]) then Run(Next(r, trace[0]), trace[1..])
    else None
  }

  /** The clauses of `BirdSession.Session.Valid` that the quiz flow touches. */
  ghost predicate Consistent(r: Round)
  {
    && 0 <= r.step < |PART_ORDER|
    && (r.assembled == PartsBefore(r.step) || r.assembled == PartsBefore(r.step + 1))
    && (r.quizShown ==> AllCollected(r.collected))
    && (r.assembleShown ==> AllCollected(r.collected) && !r.quizShown && r.assembled == PartsBefore(r.step + 1))
  }

  /** The intended handling: a wrong answer resets the round before any further input. */
  function NextIntended(r: Round, i: Input): (n: Round)
    requires Enabled(r, i)
    ensures n.pending == r.pending - (if i == TimerFires then 1 else 0)
  {
    if i == Answer(false) then Reset(r.(quizShown := false)) else Next(r, i)
  }

  /** Every input under the intended handling keeps the quiz clauses of the session invariant. */
  lemma NextIntendedConsistent(r: Round, i: Input)
    requires Consistent(r) && r.pending == 0 && Enabled(r, i)
    ensures Consistent(NextIntended(r, i)) && NextIntended(r, i).pending == 0
  {
    assert PartsBefore(0) == {};
    match i
    case Answer(true) =>
      PartsBeforeStep(r.step);
    case ContinueButton =>
      if r.step < |PART_ORDER| - 1 {
        assert PartsBefore(r.step + 1) == PartsBefore(r.step + 1);
      }
    case CollectAll =>
      assert AllCollected(ALL_PARTS);
    case _ =>
  }

  /** When the scheduled reset fires before the next input, the code as written is the intended handling. */
  lemma TimelyResetIsIntended(r: Round)
    requires Consistent(r) && r.quizShown && r.pending == 0
    ensures Run(r, [Answer(false), TimerFires]) == Some(NextIntended(r, Answer(false)))
  {
    var mid := Next(r, Answer(false));
    assert [Answer(false), TimerFires][1..] == [TimerFires];
    assert Run(mid, [TimerFires]) == Some(Next(mid, TimerFires));
  }

  /** One enabled input at the head of a trace. */
  lemma RunStep(r: Round, i: Input, rest: seq<Input>)
    requires Enabled(r, i)
    ensures Run(r, [i] + rest) == Run(Next(r, i), rest)
  {
    assert ([i] + rest)[1..] == rest;
  }

  /** Running two traces one after the other is running their concatenation. */
  lemma {:induction false} RunAppend(r: Round, a: seq<Input>, b: seq<Input>, m: Round)
    requires Run(r, a) == Some(m)
    ensures Run(r, a + b) == Run(m, b)
    decreases |a|
  {
    if a != [] {
      assert Enabled(r, a[0]);
      assert (a + b)[0] == a[0] && (a + b)[1..] == a[1..] + b;
      assert Run(r, a) == Run(Next(r, a[0]), a[1..]);
      RunAppend(Next(r, a[0]), a[1..], b, m);
      assert a + b != [];
      assert Run(r, a + b) == Run(Next(r, a[0]), a[1..] + b);
    } else {
      assert a + b == b;
    }
  }

  const STALE_OPENING: seq<Input> := [CollectAll, QuizButton, Answer(false), QuizButton, Answer(true), TimerFires]

  const STALE_CLOSING: seq<Input> := [ContinueButton, CollectAll, QuizButton, Answer(true)]

  /** A wrong answer at step 0 closes the quiz and schedules a reset, with the cards still collected. */
  lemma StaleWrongAnswer()
    ensures Run(START, STALE_OPENING[..3]) == Some(Round(ALL_PARTS, 0, {}, false, false, 1))
  {
    var r1 := Round(ALL_PARTS, 0, {}, false, false, 0);
    var r2 := Round(ALL_PARTS, 0, {}, true, false, 0);
    var r3 := Round(ALL_PARTS, 0, {}, false, false, 1);
    FullIff(ALL_PARTS);
    var t2 := [Answer(false)];
    var t1 := [QuizButton] + t2;
    assert STALE_OPENING[..3] == [CollectAll] + t1;
    RunStep(r2, Answer(false), []);
    assert Next(r1, QuizButton) == r2;
    RunStep(r1, QuizButton, t2);
    assert Next(START, CollectAll) == r1;
    RunStep(START, CollectAll, t1);
  }

  /** Before the reset fires, the quiz is reopened and step 0 answered right; then the reset fires. */
  lemma StaleRightAnswer()
    ensures Run(Round(ALL_PARTS, 0, {}, false, false, 1), STALE_OPENING[3..]) == Some(Round({}, 0, {}, false, true, 0))
  {
    var r3 := Round(ALL_PARTS, 0, {}, false, false, 1);
    var r4 := Round(ALL_PARTS, 0, {}, true, false, 1);
    var r5 := Round(ALL_PARTS, 0, {Legs}, false, true, 1);
    FullIff(ALL_PARTS);
    var t2 := [TimerFires];
    var t1 := [Answer(true)] + t2;
    assert STALE_OPENING[3..] == [QuizButton] + t1;
    RunStep(r5, TimerFires, []);
    assert Next(r4, Answer(true)) == r5;
    RunStep(r4, Answer(true), t2);
    assert Next(r3, QuizButton) == r4;
    RunStep(r3, QuizButton, t1);
  }

  /** The reset fires while the assembly dialog for step 0 shows. */
  lemma StaleOpening()
    ensures Run(START, STALE_OPENING) == Some(Round({}, 0, {}, false, true, 0))
  {
    StaleWrongAnswer();
    StaleRightAnswer();
    assert STALE_OPENING == STALE_OPENING[..3] + STALE_OPENING[3..];
    RunAppend(START, STALE_OPENING[..3], STALE_OPENING[3..], Round(ALL_PARTS, 0, {}, false, false, 1));
  }

  /** From there, Continue, a new collection and a right answer at step 1. */
  lemma StaleClosing()
    ensures Run(Round({}, 0, {}, false, true, 0), STALE_CLOSING) == Some(Round(ALL_PARTS, 1, {Body}, false, true, 0))
  {
    var r6 := Round({}, 0, {}, false, true, 0);
    var r7 := Round({}, 1, {}, false, false, 0);
    var r8 := Round(ALL_PARTS, 1, {}, false, false, 0);
    var r9 := Round(ALL_PARTS, 1, {}, true, false, 0);
    FullIff(ALL_PARTS);
    FullIff({});
    var t3 := [Answer(true)];
    var t2 := [QuizButton] + t3;
    var t1 := [CollectAll] + t2;
    assert STALE_CLOSING == [ContinueButton] + t1;
    RunStep(r9, Answer(true), []);
    assert Next(r8, QuizButton) == r9;
    RunStep(r8, QuizButton, t3);
    assert Next(r7, CollectAll) == r8;
    RunStep(r7, CollectAll, t2);
    assert Next(r6, ContinueButton) == r7;
    RunStep(r6, ContinueButton, t1);
  }

  /**
    A wrong answer, the quiz reopened and step 0 answered right within 700 ms:
    the reset fires under the assembly dialog (which then shows with nothing
    collected), Continue moves to step 1 with nothing assembled, and after the
    cards are collected again a right answer assembles the body without the legs.
   */
  lemma StaleResetBreaksPrefix()
    ensures Run(START, STALE_OPENING) == Some(Round({}, 0, {}, false, true, 0))
    ensures Run(START, STALE_OPENING + STALE_CLOSING) == Some(Round(ALL_PARTS, 1, {Body}, false, true, 0))
    ensures !Consistent(Round({}, 0, {}, false, true, 0))
    ensures !Consistent(Round(ALL_PARTS, 1, {Body}, false, true, 0))
  {
    StaleOpening();
    StaleClosing();
    RunAppend(START, STALE_OPENING, STALE_CLOSING, Round({}, 0, {}, false, true, 0));
    FullIff({});
    assert Legs in PartsBefore(1) && Legs in PartsBefore(2);
  }
}
