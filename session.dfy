/**
  The session state machine of the bird-builder activity (app.js): a
  participant feeds the bird to be assigned a part, scans the clue card whose
  token matches that part, and once all five parts are collected answers a
  five-step quiz in PART_ORDER; a wrong answer forfeits the round, a fifth
  correct answer completes it, and either way the session starts afresh.

  Time (`Date.now`), randomness (`Math.random`) and whether the camera could be
  started are parameters of the handlers that consult them.
 */
module BirdSession {
  import opened Wrappers
  import opened BirdData
  import opened JsText

  /** Decodes arriving less than this many milliseconds after the last accepted one are dropped. */
  const THROTTLE_MS: int := 1200

  /** Hints a round starts with. */
  const HINTS_PER_ROUND: int := 2

  // ---------- Collection ----------

  /** Every part, as a set. */
  const ALL_PARTS: set<Part> := {Legs, Body, Wing, Tail, Head}

  /**
    `allCollected`: the collection holds as many parts as PART_ORDER, which is
    the case exactly when it holds every part.
   */
  predicate AllCollected(collected: set<Part>)
    ensures AllCollected(collected) <==> forall p: Part :: p in collected
  {
    FullIff(collected);
    |collected| == |PART_ORDER|
  }

  lemma {:induction false} SubsetCard(a: set<Part>, b: set<Part>)
    requires a <= b
    ensures |a| <= |b|
    decreases |a|
  {
    if a != {} {
      var x :| x in a;
      SubsetCard(a - {x}, b - {x});
    }
  }

  lemma FullIff(collected: set<Part>)
    ensures |collected| == |PART_ORDER| <==> forall p: Part :: p in collected
  {
    assert |ALL_PARTS| == 5;
    forall p: Part ensures p in ALL_PARTS {
      match p
      case Legs => case Body => case Wing => case Tail => case Head =>
    }
    if forall p: Part :: p in collected {
      assert collected == ALL_PARTS;
    } else {
      var p: Part :| p !in collected;
      assert |ALL_PARTS - {p}| == 4;
      SubsetCard(collected, ALL_PARTS - {p});
    }
  }

  /** The parts of `s` that are not in `c`, in the order of `s`. */
  function FilterOut(s: seq<Part>, c: set<Part>): (r: seq<Part>)
    ensures forall p :: p in r <==> p in s && p !in c
    ensures |r| <= |s|
  {
    if s == [] then []
    else if s[0] in c then FilterOut(s[1..], c)
    else [s[0]] + FilterOut(s[1..], c)
  }

  /** No element of `s` occurs twice. */
  ghost predicate Distinct(s: seq<Part>)
  {
    forall i, j :: 0 <= i < j < |s| ==> s[i] != s[j]
  }

  /** The set of elements of `s`. */
  ghost function Elements(s: seq<Part>): set<Part>
  {
    set x | x in s
  }

  lemma DistinctTail(s: seq<Part>)
    requires s != [] && Distinct(s)
    ensures Distinct(s[1..]) && s[0] !in s[1..]
  {
    var t := s[1..];
    forall i, j | 0 <= i < j < |t| ensures t[i] != t[j] {
      assert t[i] == s[i + 1] && t[j] == s[j + 1];
    }
    forall j | 0 <= j < |t| ensures t[j] != s[0] {
      assert t[j] == s[j + 1];
    }
  }

  lemma DistinctCons(x: Part, t: seq<Part>)
    requires Distinct(t) && x !in t
    ensures Distinct([x] + t)
  {
    var s := [x] + t;
    forall i, j | 0 <= i < j < |s| ensures s[i] != s[j] {
      assert s[j] == t[j - 1] && s[j] in t;
      if i > 0 { assert s[i] == t[i - 1]; }
    }
  }

  lemma {:induction false} FilterOutDistinct(s: seq<Part>, c: set<Part>)
    requires Distinct(s)
    ensures Distinct(FilterOut(s, c))
  {
    if s != [] {
      DistinctTail(s);
      FilterOutDistinct(s[1..], c);
      if s[0] !in c {
        DistinctCons(s[0], FilterOut(s[1..], c));
      }
    }
  }

  lemma {:induction false} FilterOutLength(s: seq<Part>, c: set<Part>)
    requires Distinct(s)
    ensures |FilterOut(s, c)| + |c * Elements(s)| == |s|
  {
    if s != [] {
      var t := s[1..];
      DistinctTail(s);
      FilterOutLength(t, c);
      assert Elements(s) == {s[0]} + Elements(t);
      if s[0] in c {
        assert c * Elements(s) == {s[0]} + c * Elements(t);
      } else {
        assert c * Elements(s) == c * Elements(t);
      }
    }
  }

  /**
    `PART_ORDER.filter(p => !collected.has(p))`: the parts still to be
    collected, in part order, each exactly once.
   */
  function Remaining(collected: set<Part>): (r: seq<Part>)
    ensures forall p :: p in r <==> p !in collected
    ensures r == [] <==> AllCollected(collected)
    ensures Distinct(r) && |r| == |PART_ORDER| - |collected|
  {
    PartOrderIsPermutationOfParts();
    FilterOutDistinct(PART_ORDER, collected);
    FilterOutLength(PART_ORDER, collected);
    assert collected * Elements(PART_ORDER) == collected;
    var r := FilterOut(PART_ORDER, collected);
    assert r != [] ==> r[0] in r && r[0] !in collected;
    r
  }

  /** `Math.floor(rand * n)` for `rand = Math.random()`, which lies in [0, 1). */
  function RandomIndex(rand: real, n: nat): (i: nat)
    requires 0.0 <= rand < 1.0 && n > 0
    ensures i < n
  {
    assert 0.0 <= rand * n as real < n as real;
    (rand * n as real).Floor
  }

  /**
    `pickNextNeedPart`: one of the parts still to be collected, chosen by the
    random draw `rand`, or None once every part is collected.
   */
  function PickNextNeedPart(collected: set<Part>, rand: real): (r: Option<Part>)
    requires 0.0 <= rand < 1.0
    ensures r.None? <==> AllCollected(collected)
    ensures r.Some? ==> r.value !in collected
  {
    var remaining := Remaining(collected);
    if |remaining| == 0 then None
    else Some(remaining[RandomIndex(rand, |remaining|)])
  }

  /** Every part not yet collected is the pick of some draw. */
  lemma PickCanChooseAny(collected: set<Part>, p: Part)
    requires p !in collected
    ensures exists rand :: 0.0 <= rand < 1.0 && PickNextNeedPart(collected, rand) == Some(p)
  {
    var remaining := Remaining(collected);
    var k :| 0 <= k < |remaining| && remaining[k] == p;
    RandomIndexOf(k, |remaining|);
    assert PickNextNeedPart(collected, k as real / |remaining| as real) == Some(p);
  }

  /** The draw k / n picks index k of n. */
  lemma RandomIndexOf(k: nat, n: nat)
    requires k < n
    ensures 0.0 <= k as real / n as real < 1.0
    ensures RandomIndex(k as real / n as real, n) == k
  {
    var r := k as real / n as real;
    assert r * n as real == k as real;
  }

  lemma ScaleMonotone(a: real, b: real, n: real)
    requires n > 0.0
    ensures a <= b <==> a * n <= b * n
    ensures a < b <==> a * n < b * n
  {
  }

  /** The draw `rand` picks index k of n exactly when it lies in [k/n, (k+1)/n), an interval of width 1/n. */
  lemma RandomIndexIff(rand: real, n: nat, k: nat)
    requires 0.0 <= rand < 1.0 && n > 0
    ensures RandomIndex(rand, n) == k <==> k as real / n as real <= rand < (k + 1) as real / n as real
  {
    var nr := n as real;
    var lo, hi := k as real / nr, (k + 1) as real / nr;
    assert lo * nr == k as real;
    assert hi * nr == (k + 1) as real;
    ScaleMonotone(lo, rand, nr);
    ScaleMonotone(rand, hi, nr);
  }

  /**
    Each of the n remaining parts is picked by exactly the draws in its own
    interval [k/n, (k+1)/n), so every remaining part is equally likely.
   */
  lemma PickIff(collected: set<Part>, rand: real, k: nat)
    requires 0.0 <= rand < 1.0
    requires k < |Remaining(collected)|
    ensures var n := |Remaining(collected)|;
      PickNextNeedPart(collected, rand) == Some(Remaining(collected)[k])
      <==> k as real / n as real <= rand < (k + 1) as real / n as real
  {
    var remaining := Remaining(collected);
    var n := |remaining|;
    RandomIndexIff(rand, n, k);
    var i := RandomIndex(rand, n);
    assert PickNextNeedPart(collected, rand) == Some(remaining[i]);
    assert remaining[i] == remaining[k] ==> i == k;
  }

  /**
    The parts assigned by successive feeds, one per draw in `rands`, when each
    assigned card is scanned before the next feed; it stops once nothing is
    left to assign. No assigned part was already collected, and no part is
    assigned twice.
   */
  function FeedSequence(collected: set<Part>, rands: seq<real>): (r: seq<Part>)
    requires forall i :: 0 <= i < |rands| ==> 0.0 <= rands[i] < 1.0
    ensures forall p :: p in r ==> p !in collected
    ensures Distinct(r)
    decreases |rands|
  {
    if rands == [] then []
    else match PickNextNeedPart(collected, rands[0])
      case None => []
      case Some(p) =>
        var rest := FeedSequence(collected + {p}, rands[1..]);
        DistinctCons(p, rest);
        [p] + rest
  }

  lemma {:induction false} FilterOutShrinks(s: seq<Part>, c: set<Part>, p: Part)
    requires p in s && p !in c
    ensures |FilterOut(s, c + {p})| < |FilterOut(s, c)|
  {
    if s[0] == p {
      FilterOutMonotone(s[1..], c, c + {p});
    } else {
      FilterOutShrinks(s[1..], c, p);
    }
  }

  lemma {:induction false} FilterOutMonotone(s: seq<Part>, c: set<Part>, d: set<Part>)
    requires c <= d
    ensures |FilterOut(s, d)| <= |FilterOut(s, c)|
  {
    if s != [] {
      FilterOutMonotone(s[1..], c, d);
    }
  }

  /**
    After as many feeds as there were parts left, each followed by a scan of
    the assigned card, the collection is complete (so a further pick is None).
   */
  lemma {:induction false} FeedSequenceCompletes(collected: set<Part>, rands: seq<real>)
    requires forall i :: 0 <= i < |rands| ==> 0.0 <= rands[i] < 1.0
    requires |rands| >= |Remaining(collected)|
    ensures forall q: Part :: q in collected || q in FeedSequence(collected, rands)
    decreases |rands|
  {
    var picks := FeedSequence(collected, rands);
    if rands == [] || PickNextNeedPart(collected, rands[0]).None? {
      assert Remaining(collected) == [];
      forall q: Part ensures q in collected {
        assert q !in Remaining(collected);
      }
    } else {
      var p := PickNextNeedPart(collected, rands[0]).value;
      var rest := FeedSequence(collected + {p}, rands[1..]);
      assert PART_ORDER[StepOf(p)] == p;
      FilterOutShrinks(PART_ORDER, collected, p);
      FeedSequenceCompletes(collected + {p}, rands[1..]);
      assert picks == [p] + rest;
      forall q: Part ensures q in collected || q in picks {
        if q != p && q !in collected {
          assert q in rest;
        }
      }
    }
  }

  // ---------- Quiz ----------

  /** The parts of the first `k` quiz steps. */
  ghost function PartsBefore(k: int): set<Part>
    requires 0 <= k <= |PART_ORDER|
  {
    set i | 0 <= i < k :: PART_ORDER[i]
  }

  /** Each step adds exactly its own part, which earlier steps do not hold. */
  lemma PartsBeforeStep(k: int)
    requires 0 <= k < |PART_ORDER|
    ensures PartsBefore(k + 1) == PartsBefore(k) + {PART_ORDER[k]}
    ensures PART_ORDER[k] !in PartsBefore(k)
  {
    PartOrderIsPermutationOfParts();
  }

  lemma {:induction false} FilterOutSkips(s: seq<Part>, c: set<Part>, k: nat)
    requires k <= |s|
    requires forall j :: 0 <= j < k ==> s[j] in c
    ensures FilterOut(s, c) == FilterOut(s[k..], c)
  {
    if k > 0 {
      FilterOutSkips(s[1..], c, k - 1);
      assert s[1..][k - 1..] == s[k..];
    }
  }

  lemma {:induction false} FilterOutKeeps(s: seq<Part>, c: set<Part>)
    requires forall j :: 0 <= j < |s| ==> s[j] !in c
    ensures FilterOut(s, c) == s
  {
    if s != [] {
      FilterOutKeeps(s[1..], c);
    }
  }

  /** Once the first `k` parts of PART_ORDER are collected, the remaining parts are the rest of it, in order. */
  lemma RemainingInOrder(k: int)
    requires 0 <= k <= |PART_ORDER|
    ensures Remaining(PartsBefore(k)) == PART_ORDER[k..]
  {
    PartOrderIsPermutationOfParts();
    var c := PartsBefore(k);
    forall j | 0 <= j < k ensures PART_ORDER[j] in c {
    }
    FilterOutSkips(PART_ORDER, c, k);
    var rest := PART_ORDER[k..];
    forall j | 0 <= j < |rest| ensures rest[j] !in c {
      assert rest[j] == PART_ORDER[k + j];
    }
    FilterOutKeeps(rest, c);
  }

  /** `n % d` as JavaScript computes it: truncated, so the remainder takes the sign of `n`. */
  function JsRemainder(n: int, d: int): (r: int)
    requires d > 0
    ensures n >= 0 ==> 0 <= r < d && r == n % d
    ensures n < 0 ==> -d < r <= 0
  {
    if n >= 0 then n % d else -((-n) % d)
  }

  /**
    The template a hint uses, given `hintsLeft` after the decrement:
    `AI_HINT_TEMPLATES[(2 - hintsLeft - 1) % 3] || AI_HINT_TEMPLATES[0]`.
   */
  function HintTemplateIndex(hintsLeft: int): (i: int)
    ensures 0 <= i < |AI_HINT_TEMPLATES|
    ensures hintsLeft == HINTS_PER_ROUND - 1 ==> i == 0
    ensures hintsLeft == HINTS_PER_ROUND - 2 ==> i == 1
  {
    HintTemplatesMentionClue("", "", "", "");
    var j := JsRemainder(HINTS_PER_ROUND - hintsLeft - 1, |AI_HINT_TEMPLATES|);
    if 0 <= j < |AI_HINT_TEMPLATES| then j else 0
  }

  /**
    The text of a hint for quiz step `step`, given `hintsLeft` after the
    decrement: it always quotes the clue of that step's part.
   */
  function HintText(key: Species, step: int, hintsLeft: int): (r: string)
    requires 0 <= step < |PART_ORDER|
    ensures Contains(r, Clue(key, PART_ORDER[step]))
  {
    var part := PART_ORDER[step];
    HintTemplatesMentionClue(BirdName(key), PartLabel(part), Clue(key, part), "");
    AI_HINT_TEMPLATES[HintTemplateIndex(hintsLeft)](BirdName(key), PartLabel(part), Clue(key, part))
  }

  // ---------- Scan matching ----------

  /** The wrong-card toast for bird `name`, part label `partName` and clue `clue`. */
  function WrongCardText(name: string, partName: string, clue: string): string
  {
    "這不是「" + name + "」的" + partName + "喔，再觀察看看。\n「" + name + "｜" + partName
    + "」的特徵是：「" + clue + "」"
  }

  /**
    The guidance shown for a wrong card: it is built from the target bird and
    part only, names both, and quotes the target part's clue.
   */
  function WrongCardMessage(key: Species, part: Part): (r: string)
    ensures Contains(r, BirdName(key)) && Contains(r, PartLabel(part)) && Contains(r, Clue(key, part))
  {
    WrongCardTextGuides(BirdName(key), PartLabel(part), Clue(key, part));
    WrongCardText(BirdName(key), PartLabel(part), Clue(key, part))
  }

  lemma ContainsSuffix(a: string, t: string)
    ensures Contains(a + t, t)
  {
    ContainsMiddle(a, t, "");
    assert a + t + "" == a + t;
  }

  lemma ContainsExtend(s: string, t: string, b: string)
    requires Contains(s, t)
    ensures Contains(s + b, t)
  {
    var k :| OccursAt(s, t, k);
    assert (s + b)[k..k + |t|] == s[k..k + |t|];
    assert OccursAt(s + b, t, k);
  }

  /** The wrong-card guidance names the target bird and part and quotes the target clue. */
  lemma WrongCardTextGuides(name: string, partName: string, clue: string)
    ensures Contains(WrongCardText(name, partName, clue), name)
    ensures Contains(WrongCardText(name, partName, clue), partName)
    ensures Contains(WrongCardText(name, partName, clue), clue)
  {
    var s1 := "這不是「" + name;
    var s2 := s1 + "」的" + partName;
    var s3 := s2 + "喔，再觀察看看。\n「" + name + "｜" + partName + "」的特徵是：「" + clue;
    var rest3 := "」";
    var rest2 := "喔，再觀察看看。\n「" + name + "｜" + partName + "」的特徵是：「" + clue + "」";
    var rest1 := "」的" + partName + rest2;
    assert WrongCardText(name, partName, clue) == s3 + rest3;
    assert WrongCardText(name, partName, clue) == s2 + rest2;
    assert WrongCardText(name, partName, clue) == s1 + rest1;
    ContainsSuffix("這不是「", name);
    ContainsExtend(s1, name, rest1);
    ContainsSuffix(s1 + "」的", partName);
    ContainsExtend(s2, partName, rest2);
    ContainsSuffix(s2 + "喔，再觀察看看。\n「" + name + "｜" + partName + "」的特徵是：「", clue);
    ContainsExtend(s3, clue, rest3);
  }

  /** A token is matched by the payload that is exactly the token, and by that token padded with white space. */
  lemma TokenMatchesPaddedPayload(key: Species, part: Part, w1: string, w2: string)
    requires AllWhiteSpace(w1) && AllWhiteSpace(w2)
    ensures Trim(Token(key, part)) == Token(key, part)
    ensures Trim(w1 + Token(key, part) + w2) == Token(key, part)
  {
    var t := Token(key, part);
    TokenShape(key, part);
    KeysBorderedByLetters(key, part);
    UnpaddedJoin(SpeciesKey(key), PartKey(part));
    TrimUnpadded(t);
    TrimPadded(w1, t, w2);
  }

  lemma UnpaddedJoin(a: string, b: string)
    requires |a| > 0 && 'a' <= a[0] <= 'z'
    requires |b| > 0 && 'a' <= b[|b| - 1] <= 'z'
    ensures a + "_" + b != [] && Unpadded(a + "_" + b)
  {
    var t := a + "_" + b;
    assert t[0] == a[0] && t[|t| - 1] == b[|b| - 1];
  }

  // ---------- Session ----------

  /** What `handleQr` did with a decoded payload. */
  datatype ScanOutcome =
    | Throttled              // within THROTTLE_MS of the last accepted decode
    | Blank                  // the payload trims to the empty string
    | NoTarget               // no part is assigned yet ("feed" first)
    | Matched(part: Part)    // the card of the assigned part
    | Mismatched(target: Part)  // another card: the toast is WrongCardMessage for the target

  /** What the feed button did. */
  datatype FeedOutcome =
    | CameraUnavailable        // the camera could not be started
    | AlreadyComplete          // all five cards are collected; the quiz is next
    | StillPending(part: Part) // a part is assigned and not yet scanned
    | Assigned(part: Part)     // a new part was assigned

  /** What `onAnswer` did. */
  datatype AnswerOutcome = Wrong | Right(part: Part, isFinal: bool)

  /**
    The single session record `state`, with the two dialogs whose buttons
    drive the quiz: the quiz dialog (options and hint) and the assembly dialog
    (continue). The page controls (feed, scan, quiz, reset and species
    selector) lie beneath these full-screen dialogs.
   */
  class Session {
    var birdKey: Species
    var hintsLeft: int
    var needPart: Option<Part>
    var collected: set<Part>
    var isScanning: bool
    var lastQrAt: int
    var quizStepIndex: int
    var assembled: set<Part>
    var quizShown: bool
    var assembleShown: bool

    ghost predicate Valid()
      reads this
    {
      && (needPart.Some? ==> needPart.value !in collected)
      && 0 <= quizStepIndex < |PART_ORDER|
      && 0 <= hintsLeft <= HINTS_PER_ROUND
      && (assembled == PartsBefore(quizStepIndex) || assembled == PartsBefore(quizStepIndex + 1))
      && (quizShown ==> AllCollected(collected))
      && (assembleShown ==> AllCollected(collected) && !quizShown && assembled == PartsBefore(quizStepIndex + 1))
    }

    /** No dialog covers the page controls. */
    predicate PageReachable()
      reads this
    {
      !quizShown && !assembleShown
    }

    /** The round state `resetBird` establishes. */
    ghost predicate FreshRound()
      reads this
    {
      hintsLeft == HINTS_PER_ROUND && needPart == None && collected == {}
      && quizStepIndex == 0 && assembled == {} && !isScanning
    }

    /** The initial `state`, for the species the selector shows at load. */
    constructor (initial: Species)
      ensures Valid() && FreshRound() && PageReachable()
      ensures birdKey == initial && lastQrAt == 0
    {
      birdKey := initial;
      hintsLeft := HINTS_PER_ROUND;
      needPart := None;
      collected := {};
      isScanning := false;
      lastQrAt := 0;
      quizStepIndex := 0;
      assembled := {};
      quizShown := false;
      assembleShown := false;
    }

    /** `resetBird(true)`, also the reset button: a fresh round for the same species. */
    method ResetBird()
      requires Valid() && PageReachable()
      modifies this`hintsLeft, this`needPart, this`collected, this`quizStepIndex, this`assembled, this`isScanning
      ensures Valid() && FreshRound()
      ensures birdKey == old(birdKey) && lastQrAt == old(lastQrAt)
    {
      hintsLeft := HINTS_PER_ROUND;
      needPart := None;
      collected := {};
      quizStepIndex := 0;
      assembled := {};
      isScanning := false;
    }

    /** The species selector's change handler: switch species, then reset. */
    method SelectBird(key: Species)
      requires Valid() && PageReachable()
      modifies this`birdKey, this`hintsLeft, this`needPart, this`collected, this`quizStepIndex,
               this`assembled, this`isScanning
      ensures Valid() && FreshRound()
      ensures birdKey == key && lastQrAt == old(lastQrAt)
    {
      birdKey := key;
      ResetBird();
    }

    /** `openScan` (the scan button), given whether the camera is running. */
    method OpenScan(cameraReady: bool)
      requires Valid()
      modifies this`isScanning
      ensures Valid()
      ensures isScanning == (old(isScanning) || cameraReady)
    {
      if cameraReady {
        isScanning := true;
      }
    }

    /** `closeScan`: the close buttons, and the follow-up 450 ms after a matched card. */
    method CloseScan()
      requires Valid()
      modifies this`isScanning
      ensures Valid() && !isScanning
    {
      isScanning := false;
    }

    /**
      The feed button: with the camera running and the collection incomplete,
      assign a part by the draw `rand` unless one is still pending, and open the
      scan view.
     */
    method Feed(cameraReady: bool, rand: real) returns (outcome: FeedOutcome)
      requires Valid()
      requires 0.0 <= rand < 1.0
      modifies this`needPart, this`isScanning
      ensures Valid()
      ensures !cameraReady ==> outcome == CameraUnavailable && unchanged(this)
      ensures cameraReady && AllCollected(collected) ==> outcome == AlreadyComplete && unchanged(this)
      ensures cameraReady && !AllCollected(collected) && old(needPart).Some? ==>
                outcome == StillPending(old(needPart).value) && needPart == old(needPart) && isScanning
      ensures cameraReady && !AllCollected(collected) && old(needPart).None? ==>
                needPart == PickNextNeedPart(collected, rand) && needPart.Some?
                && outcome == Assigned(needPart.value) && needPart.value !in collected && isScanning
    {
      if !cameraReady {
        return CameraUnavailable;
      }
      if AllCollected(collected) {
        return AlreadyComplete;
      }
      if needPart.Some? {
        OpenScan(true);
        return StillPending(needPart.value);
      }
      needPart := PickNextNeedPart(collected, rand);
      OpenScan(true);
      outcome := Assigned(needPart.value);
    }

    /**
      `handleQr`: a decoded payload at time `now`. A decode within THROTTLE_MS
      of the last accepted one is dropped; any other is accepted (its time is
      recorded first) and then ignored when blank, reported when no part is
      assigned, collected when it is the assigned part's token, and answered
      with guidance for the target otherwise.
     */
    method HandleQr(payload: string, now: int) returns (outcome: ScanOutcome)
      requires Valid()
      modifies this`lastQrAt, this`collected, this`needPart
      ensures Valid()
      ensures now - old(lastQrAt) < THROTTLE_MS ==> outcome == Throttled && unchanged(this)
      ensures now - old(lastQrAt) >= THROTTLE_MS ==> lastQrAt == now && outcome != Throttled
      ensures outcome == Blank <==> now - old(lastQrAt) >= THROTTLE_MS && Trim(payload) == []
      ensures outcome == NoTarget <==>
                now - old(lastQrAt) >= THROTTLE_MS && Trim(payload) != [] && old(needPart) == None
      ensures outcome.Matched? <==>
                now - old(lastQrAt) >= THROTTLE_MS && old(needPart).Some?
                && Trim(payload) == Token(birdKey, old(needPart).value)
      ensures outcome.Matched? ==>
                outcome.part == old(needPart).value && needPart == None
                && collected == old(collected) + {outcome.part} && |collected| == |old(collected)| + 1
      ensures !outcome.Matched? ==> collected == old(collected) && needPart == old(needPart)
      ensures outcome.Mismatched? <==>
                now - old(lastQrAt) >= THROTTLE_MS && Trim(payload) != [] && old(needPart).Some?
                && Trim(payload) != Token(birdKey, old(needPart).value)
      ensures outcome.Mismatched? ==> old(needPart) == Some(outcome.target)
    {
      if now - lastQrAt < THROTTLE_MS {
        return Throttled;
      }
      lastQrAt := now;
      var text := Trim(payload);
      if text == [] {
        if needPart.Some? {
          TokenShape(birdKey, needPart.value);
        }
        return Blank;
      }
      if needPart.None? {
        return NoTarget;
      }
      var part := needPart.value;
      if text == Token(birdKey, part) {
        collected := collected + {part};
        needPart := None;
        return Matched(part);
      }
      outcome := Mismatched(part);
    }

    /** `openQuiz` (the quiz button, and the next step after the assembly dialog): only with 5/5 collected. */
    method OpenQuiz() returns (entered: bool)
      requires Valid() && !assembleShown
      modifies this`quizShown
      ensures Valid()
      ensures entered == AllCollected(collected) && quizShown == entered
    {
      entered := AllCollected(collected);
      if entered {
        quizShown := true;
      }
    }

    /** `closeQuiz`: the quiz dialog's close button. */
    method CloseQuiz()
      requires Valid()
      modifies this`quizShown
      ensures Valid() && !quizShown
    {
      quizShown := false;
    }

    /** `closeAssemble`: the assembly dialog's close button. */
    method CloseAssemble()
      requires Valid()
      modifies this`assembleShown
      ensures Valid() && !assembleShown
    {
      assembleShown := false;
    }

    /**
      `onAnswer`: option `selectedIdx` of the current step. The correct option
      assembles the step's part and shows the assembly dialog; any other
      closes the quiz and resets the round (the 700 ms delay taken as
      immediate).
     */
    method OnAnswer(selectedIdx: int) returns (outcome: AnswerOutcome)
      requires Valid() && quizShown
      modifies this`quizShown, this`assembleShown, this`assembled, this`hintsLeft, this`needPart,
               this`collected, this`quizStepIndex, this`isScanning
      ensures Valid() && !quizShown
      ensures var part := PART_ORDER[old(quizStepIndex)];
        if selectedIdx == CorrectIndex(birdKey, part) then
          && outcome == Right(part, old(quizStepIndex) == |PART_ORDER| - 1)
          && assembled == old(assembled) + {part} && assembled == PartsBefore(quizStepIndex + 1)
          && assembleShown
          && hintsLeft == old(hintsLeft) && needPart == old(needPart) && collected == old(collected)
          && quizStepIndex == old(quizStepIndex) && isScanning == old(isScanning)
        else
          outcome == Wrong && FreshRound() && !assembleShown
    {
      var part := PART_ORDER[quizStepIndex];
      if selectedIdx != CorrectIndex(birdKey, part) {
        CloseQuiz();
        ResetBird();
        return Wrong;
      }
      PartsBeforeStep(quizStepIndex);
      assembled := assembled + {part};
      quizShown := false;
      assembleShown := true;
      outcome := Right(part, quizStepIndex == |PART_ORDER| - 1);
    }

    /**
      `continueAfterAssemble`: after the last step the round is complete and
      reset; otherwise the quiz moves to the next step.
     */
    method ContinueAfterAssemble() returns (roundComplete: bool)
      requires Valid() && assembleShown
      modifies this`assembleShown, this`quizShown, this`quizStepIndex, this`hintsLeft, this`needPart,
               this`collected, this`assembled, this`isScanning
      ensures Valid() && !assembleShown
      ensures roundComplete == (old(quizStepIndex) == |PART_ORDER| - 1)
      ensures roundComplete ==> FreshRound() && !quizShown
      ensures !roundComplete ==>
                && quizStepIndex == old(quizStepIndex) + 1 && quizShown
                && assembled == old(assembled) == PartsBefore(quizStepIndex)
                && hintsLeft == old(hintsLeft) && needPart == old(needPart) && collected == old(collected)
                && isScanning == old(isScanning)
    {
      roundComplete := quizStepIndex == |PART_ORDER| - 1;
      CloseAssemble();
      if roundComplete {
        ResetBird();
        return;
      }
      quizStepIndex := quizStepIndex + 1;
      var entered := OpenQuiz();
    }

    /** `showAiHint`: spend one hint, if any is left, on the current step's clue. */
    method ShowAiHint() returns (hint: Option<string>)
      requires Valid()
      modifies this`hintsLeft
      ensures Valid()
      ensures old(hintsLeft) <= 0 ==> hint == None && hintsLeft == old(hintsLeft)
      ensures old(hintsLeft) > 0 ==>
                hintsLeft == old(hintsLeft) - 1 && hint == Some(HintText(birdKey, quizStepIndex, hintsLeft))
    {
      if hintsLeft <= 0 {
        return None;
      }
      hintsLeft := hintsLeft - 1;
      hint := Some(HintText(birdKey, quizStepIndex, hintsLeft));
    }
  }
}
