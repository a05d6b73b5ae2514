/**
  Client walk-throughs of a session, proved from the handlers' contracts
  alone: collecting the five cards (each draw 0.0 picks the first remaining
  part, so they come in part order), entering the quiz, a correct first
  answer, the two-hint budget, a wrong answer that forfeits the round, and a
  full round of five correct answers.
 */
module BirdScenario {
  import opened Wrappers
  import opened BirdData
  import opened JsText
  import opened BirdSession

  /** Feed with the draw `rand` while the collection is incomplete: it assigns the part the draw picks. */
  method FeedDraw(s: Session, rand: real) returns (got: Part)
    requires s.Valid() && !AllCollected(s.collected) && s.needPart == None
    requires 0.0 <= rand < 1.0
    modifies s`needPart, s`isScanning
    ensures s.Valid() && s.needPart == Some(got) && PickNextNeedPart(s.collected, rand) == Some(got)
  {
    var fed := s.Feed(true, rand);
    got := fed.part;
  }

  /** Scan, at time `now`, a payload that trims to the assigned part's token; then close the scan view. */
  method ScanAssigned(s: Session, payload: string, now: int)
    requires s.Valid() && s.needPart.Some? && now - s.lastQrAt >= THROTTLE_MS
    requires Trim(payload) == Token(s.birdKey, s.needPart.value)
    modifies s`needPart, s`isScanning, s`lastQrAt, s`collected
    ensures s.Valid() && s.lastQrAt == now && s.needPart == None && !s.isScanning
    ensures s.collected == old(s.collected) + {old(s.needPart).value}
  {
    var scanned := s.HandleQr(payload, now);
    assert scanned.Matched?;
    s.CloseScan();
  }

  /** Feed with the draw `rand`, then scan the assigned card at time `now`, then close the scan view. */
  method FeedAndScanDraw(s: Session, rand: real, now: int) returns (got: Part)
    requires s.Valid() && !AllCollected(s.collected) && s.needPart == None
    requires 0.0 <= rand < 1.0 && now - s.lastQrAt >= THROTTLE_MS
    modifies s`needPart, s`isScanning, s`lastQrAt, s`collected
    ensures s.Valid() && s.lastQrAt == now && s.needPart == None && !s.isScanning
    ensures PickNextNeedPart(old(s.collected), rand) == Some(got) && s.collected == old(s.collected) + {got}
  {
    got := FeedDraw(s, rand);
    TokenMatchesPaddedPayload(s.birdKey, got, "", "");
    ScanAssigned(s, Token(s.birdKey, got), now);
  }

  /** Feed with draw 0.0, which picks the first part still to be collected, then scan it. */
  method FeedAndScan(s: Session, now: int) returns (got: Part)
    requires s.Valid() && !AllCollected(s.collected) && s.needPart == None
    requires now - s.lastQrAt >= THROTTLE_MS
    modifies s`needPart, s`isScanning, s`lastQrAt, s`collected
    ensures s.Valid() && s.lastQrAt == now && s.needPart == None && !s.isScanning
    ensures got == Remaining(old(s.collected))[0] && s.collected == old(s.collected) + {got}
  {
    assert RandomIndex(0.0, |Remaining(s.collected)|) == 0;
    got := FeedAndScanDraw(s, 0.0, now);
  }

  /**
    Feeds with the draws `rands`, each assigned card scanned one throttle
    window after the last, until the draws run out or the collection is
    complete: they assign exactly FeedSequence of the draws, so the
    freshness and completion properties of FeedSequence hold of the handlers.
   */
  method CollectByDraws(s: Session, rands: seq<real>) returns (picks: seq<Part>)
    requires s.Valid() && s.needPart == None
    requires forall i :: 0 <= i < |rands| ==> 0.0 <= rands[i] < 1.0
    modifies s`needPart, s`isScanning, s`lastQrAt, s`collected
    ensures s.Valid() && s.needPart == None
    ensures picks == FeedSequence(old(s.collected), rands)
    ensures forall p :: p in s.collected <==> p in old(s.collected) || p in picks
  {
    picks := [];
    var rest := rands;
    ghost var start := s.collected;
    ghost var whole := FeedSequence(start, rands);
    while rest != [] && !AllCollected(s.collected)
      invariant forall i :: 0 <= i < |rest| ==> 0.0 <= rest[i] < 1.0
      invariant s.Valid() && s.needPart == None
      invariant picks + FeedSequence(s.collected, rest) == whole
      invariant forall p :: p in s.collected <==> p in start || p in picks
      decreases |rest|
    {
      ghost var before := s.collected;
      var got := CollectDraw(s, rest);
      PicksGrow(start, picks, before, got);
      TailShifts(picks, got, FeedSequence(s.collected, rest[1..]));
      picks := picks + [got];
      rest := rest[1..];
    }
    FeedSequenceStops(s.collected, rest);
  }

  /** Adding the newly collected part to the picks keeps `collected` the start plus the picks. */
  lemma PicksGrow(start: set<Part>, picks: seq<Part>, collected: set<Part>, got: Part)
    requires forall p :: p in collected <==> p in start || p in picks
    ensures forall p :: p in collected + {got} <==> p in start || p in picks + [got]
  {
  }

  /** Moving the head of the remaining sequence onto the picks keeps their concatenation. */
  lemma TailShifts(picks: seq<Part>, got: Part, tail: seq<Part>)
    ensures (picks + [got]) + tail == picks + ([got] + tail)
  {
  }

  /** One round of CollectByDraws: the first draw's feed and scan assign the head of FeedSequence. */
  method CollectDraw(s: Session, rands: seq<real>) returns (got: Part)
    requires s.Valid() && !AllCollected(s.collected) && s.needPart == None && rands != []
    requires forall i :: 0 <= i < |rands| ==> 0.0 <= rands[i] < 1.0
    modifies s`needPart, s`isScanning, s`lastQrAt, s`collected
    ensures s.Valid() && s.needPart == None && s.collected == old(s.collected) + {got}
    ensures FeedSequence(old(s.collected), rands) == [got] + FeedSequence(s.collected, rands[1..])
  {
    got := FeedAndScanDraw(s, rands[0], s.lastQrAt + THROTTLE_MS);
  }

  /** With the draws exhausted or every part collected, FeedSequence assigns nothing more. */
  lemma FeedSequenceStops(collected: set<Part>, rands: seq<real>)
    requires forall i :: 0 <= i < |rands| ==> 0.0 <= rands[i] < 1.0
    requires rands == [] || AllCollected(collected)
    ensures FeedSequence(collected, rands) == []
  {
    if rands != [] {
      assert PickNextNeedPart(collected, rands[0]) == None;
    }
  }

  /** With the first `i` parts of PART_ORDER collected, a feed with draw 0.0 and a scan collect part `i`. */
  method CollectNext(s: Session, i: int) returns (got: Part)
    requires 0 <= i < |PART_ORDER|
    requires s.Valid() && s.needPart == None && s.collected == PartsBefore(i)
    modifies s`needPart, s`isScanning, s`lastQrAt, s`collected
    ensures s.Valid() && s.needPart == None && !s.isScanning
    ensures got == PART_ORDER[i] && s.collected == PartsBefore(i + 1)
  {
    RemainingInOrder(i);
    got := FeedAndScan(s, s.lastQrAt + THROTTLE_MS);
    PartsBeforeStep(i);
  }

  /**
    From an empty collection, five feeds with draw 0.0, each card scanned one
    throttle window after the last, collect the parts in PART_ORDER.
   */
  method CollectInPartOrder(s: Session) returns (picks: seq<Part>)
    requires s.Valid() && s.collected == {} && s.needPart == None
    modifies s`needPart, s`isScanning, s`lastQrAt, s`collected
    ensures s.Valid() && AllCollected(s.collected) && s.needPart == None && !s.isScanning
    ensures picks == PART_ORDER
  {
    picks := [];
    var i := 0;
    while i < |PART_ORDER|
      invariant 0 <= i <= |PART_ORDER|
      invariant s.Valid() && s.needPart == None
      invariant s.collected == PartsBefore(i) && picks == PART_ORDER[..i]
      invariant i > 0 ==> !s.isScanning
      decreases |PART_ORDER| - i
    {
      var got := CollectNext(s, i);
      picks := picks + [got];
      i := i + 1;
    }
    RemainingInOrder(|PART_ORDER|);
  }

  method SparrowScenario()
  {
    var s := new Session(Sparrow);
    var picks := CollectInPartOrder(s);

    // A further feed assigns nothing; a rescan within the window is dropped.
    var fed := s.Feed(true, 0.5);
    assert fed == AlreadyComplete;
    var again := s.HandleQr("sparrow_head", s.lastQrAt + 500);
    assert again == Throttled;

    var entered := s.OpenQuiz();
    assert entered;
    SparrowFirstSteps(s);
  }

  /**
    Step 0 (legs): the sparrow's correct option is 1. Then two hints, after
    which the budget is spent, and a wrong answer at step 1 forfeits the round.
   */
  method SparrowFirstSteps(s: Session)
    requires s.Valid() && s.quizShown && s.quizStepIndex == 0 && s.birdKey == Sparrow
    requires s.hintsLeft == HINTS_PER_ROUND
    modifies s
    ensures s.Valid() && s.FreshRound() && s.PageReachable()
  {
    assert CorrectIndex(Sparrow, Legs) == 1;
    var answer := s.OnAnswer(1);
    assert answer == Right(Legs, false);
    var complete := s.ContinueAfterAssemble();
    assert !complete && s.quizStepIndex == 1 && s.quizShown;

    var h1 := s.ShowAiHint();
    var h2 := s.ShowAiHint();
    var h3 := s.ShowAiHint();
    assert h1.Some? && h2.Some? && h3 == None && s.hintsLeft == 0;

    // Step 1 (body): the sparrow's correct option is 0, so option 3 is wrong.
    assert CorrectIndex(Sparrow, Body) == 0;
    answer := s.OnAnswer(3);
    assert answer == Wrong;
  }

  /** Five correct answers in a row complete the round and start a fresh one. */
  method FullRound(s: Session)
    requires s.Valid() && s.quizShown && s.quizStepIndex == 0
    modifies s
    ensures s.Valid() && s.FreshRound() && s.PageReachable()
  {
    var step := 0;
    while step < |PART_ORDER| - 1
      invariant 0 <= step <= |PART_ORDER| - 1
      invariant s.Valid() && s.quizShown && s.quizStepIndex == step
      decreases |PART_ORDER| - step
    {
      var answer := s.OnAnswer(CorrectIndex(s.birdKey, PART_ORDER[step]));
      var complete := s.ContinueAfterAssemble();
      step := step + 1;
    }
    var answer := s.OnAnswer(CorrectIndex(s.birdKey, PART_ORDER[step]));
    assert answer == Right(Head, true);
    var complete := s.ContinueAfterAssemble();
    assert complete;
  }
}
