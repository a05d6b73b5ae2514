/**
  The static configuration of the activity (data.js): the fixed part order,
  the part labels, the four-option pool of every part, the five bird species
  with a token, a clue and a correct option per part, and the three canned
  hint templates. Everything here is a constant; nothing is ever mutated.
 */
module BirdData {

  /** The five anatomical part kinds. */
  datatype Part = Legs | Body | Wing | Tail | Head

  /** The object key under which data.js stores a part. */
  function PartKey(p: Part): string
  {
    match p
    case Legs => "legs"
    case Body => "body"
    case Wing => "wing"
    case Tail => "tail"
    case Head => "head"
  }

  /** The fixed part order; quiz step i asks about PART_ORDER[i]. */
  const PART_ORDER: seq<Part> := [Legs, Body, Wing, Tail, Head]

  const PART_LABEL: map<Part, string> := map[
    Legs := "腳",
    Body := "身體",
    Wing := "翅膀",
    Tail := "尾巴",
    Head := "頭/記號"
  ]

  /**
    `partLabel`: the label of a part, or its key when the label is missing or
    empty. Every part has a non-empty label, so the key is never used.
   */
  function PartLabel(p: Part): (r: string)
    ensures p in PART_LABEL && PART_LABEL[p] != "" && r == PART_LABEL[p]
  {
    if p in PART_LABEL && PART_LABEL[p] != "" then PART_LABEL[p] else PartKey(p)
  }

  /** One quiz option: a key, a title, a sub-title and an icon id. */
  datatype Choice = Choice(key: string, title: string, sub: string, icon: string)

  const OPTION_POOLS: map<Part, seq<Choice>> := map[
    Legs := [
      Choice("pink_short", "粉紅腳", "偏粉紅、短腿", "legs_pink"),
      Choice("brown_short", "褐色腳", "偏褐、短而細", "legs_brown"),
      Choice("black_grip", "黑色腳", "偏黑、抓枝穩", "legs_black"),
      Choice("long_legs", "長腿", "腿明顯較長", "legs_long")
    ],
    Body := [
      Choice("brown_round", "褐圓身", "背偏褐、身形圓", "body_brown"),
      Choice("olive_belly", "橄欖＋白腹", "背橄欖、腹偏白", "body_olive"),
      Choice("spotted_neck", "頸側斑點", "褐灰、頸側有斑", "body_spotted"),
      Choice("black_sleek", "黑色俐落", "整體偏黑、線條俐落", "body_black")
    ],
    Wing := [
      Choice("short_band", "短圓翼帶", "短圓、常見淡色翼帶", "wing_band"),
      Choice("broad_dark", "寬黑翼", "寬大、偏深色", "wing_dark"),
      Choice("small_green", "小巧綠翼", "小、偏黃綠", "wing_green"),
      Choice("long_pointed", "長尖翼", "較長、翼端較尖", "wing_long")
    ],
    Tail := [
      Choice("short_plain", "短尾", "短、顏色較單純", "tail_short"),
      Choice("forked", "叉狀尾", "尾端有分叉", "tail_fork"),
      Choice("rounded_long", "長圓尾", "較長、尾端圓", "tail_round"),
      Choice("yellow_edge", "淡黃尾緣", "尾緣帶淡色", "tail_yellow")
    ],
    Head := [
      Choice("white_head", "白頭", "頭部有明顯白色", "head_white"),
      Choice("white_eye_ring", "白眼圈", "眼周有白色眼圈", "head_ring"),
      Choice("plain_brown", "素色頭", "偏褐、記號不明顯", "head_plain"),
      Choice("sharp_beak", "尖喙", "喙較尖、線條俐落", "head_beak")
    ]
  ]

  /** The five species; the key of each is the value of the species selector. */
  datatype Species = Sparrow | Bulbul | Dove | Drongo | WhiteEye

  /** The object key under which data.js stores a species. */
  function SpeciesKey(s: Species): string
  {
    match s
    case Sparrow => "sparrow"
    case Bulbul => "bulbul"
    case Dove => "dove"
    case Drongo => "drongo"
    case WhiteEye => "whiteeye"
  }

  /**
    The BIRDS table, one accessor per field: `BIRDS[key].name` is
    BirdName(key), and `BIRDS[key].parts[part]` holds Token(key, part),
    Clue(key, part) and CorrectIndex(key, part).
   */
  function BirdName(s: Species): string
  {
    match s
    case Sparrow => "麻雀"
    case Bulbul => "白頭翁"
    case Dove => "珠頸斑鳩"
    case Drongo => "大卷尾"
    case WhiteEye => "綠繡眼"
  }

  /** The token printed on the clue card of a part. */
  function Token(s: Species, p: Part): string
  {
    match s
    case Sparrow =>
      match p {
        case Legs => "sparrow_legs"
        case Body => "sparrow_body"
        case Wing => "sparrow_wing"
        case Tail => "sparrow_tail"
        case Head => "sparrow_head"
      }
    case Bulbul =>
      match p {
        case Legs => "bulbul_legs"
        case Body => "bulbul_body"
        case Wing => "bulbul_wing"
        case Tail => "bulbul_tail"
        case Head => "bulbul_head"
      }
    case Dove =>
      match p {
        case Legs => "dove_legs"
        case Body => "dove_body"
        case Wing => "dove_wing"
        case Tail => "dove_tail"
        case Head => "dove_head"
      }
    case Drongo =>
      match p {
        case Legs => "drongo_legs"
        case Body => "drongo_body"
        case Wing => "drongo_wing"
        case Tail => "drongo_tail"
        case Head => "drongo_head"
      }
    case WhiteEye =>
      match p {
        case Legs => "whiteeye_legs"
        case Body => "whiteeye_body"
        case Wing => "whiteeye_wing"
        case Tail => "whiteeye_tail"
        case Head => "whiteeye_head"
      }
  }

  /** The clue text of a part, quoted by hints and by the wrong-card guidance. */
  function Clue(s: Species, p: Part): string
  {
    match s
    case Sparrow =>
      match p {
        case Legs => "腳短短、偏褐色，走跳很靈活。"
        case Body => "背偏褐、身形圓；常見淡色翼帶的整體印象。"
        case Wing => "翅膀短圓，常見淡色翼帶。"
        case Tail => "尾羽顏色較單純，尾型不誇張。"
        case Head => "頭部記號不明顯，整體偏褐。"
      }
    case Bulbul =>
      match p {
        case Legs => "腳偏黑，抓枝站立很穩。"
        case Body => "背橄欖褐、腹偏白，輪廓圓潤。"
        case Wing => "翅膀寬一些、偏深色，沒有明顯翼帶。"
        case Tail => "尾端較長、尾型偏圓。"
        case Head => "頭部有明顯淺色（白頭）區域。"
      }
    case Dove =>
      match p {
        case Legs => "腳偏粉紅，腿不長。"
        case Body => "褐灰身體，頸側有斑點感。"
        case Wing => "翅膀較長、翼端較尖。"
        case Tail => "尾端偏圓、整體較長。"
        case Head => "頭部多為素色，喙不特別尖。"
      }
    case Drongo =>
      match p {
        case Legs => "腳偏黑，抓枝穩。"
        case Body => "整體偏黑、線條俐落。"
        case Wing => "翅膀寬大、偏深色。"
        case Tail => "尾端有明顯分叉（叉狀尾）。"
        case Head => "喙較尖、線條俐落。"
      }
    case WhiteEye =>
      match p {
        case Legs => "腳細、小巧，偏褐或灰褐。"
        case Body => "身體小巧，偏黃綠色調。"
        case Wing => "翅膀小巧，偏黃綠。"
        case Tail => "尾緣帶淡色、比例不長。"
        case Head => "眼周有明顯白色眼圈。"
      }
  }

  /** The index, in the part's option pool, of the correct quiz option. */
  function CorrectIndex(s: Species, p: Part): int
  {
    match s
    case Sparrow =>
      match p {
        case Legs => 1
        case Body => 0
        case Wing => 0
        case Tail => 0
        case Head => 2
      }
    case Bulbul =>
      match p {
        case Legs => 2
        case Body => 1
        case Wing => 1
        case Tail => 2
        case Head => 0
      }
    case Dove =>
      match p {
        case Legs => 0
        case Body => 2
        case Wing => 3
        case Tail => 2
        case Head => 2
      }
    case Drongo =>
      match p {
        case Legs => 2
        case Body => 3
        case Wing => 1
        case Tail => 1
        case Head => 3
      }
    case WhiteEye =>
      match p {
        case Legs => 1
        case Body => 1
        case Wing => 2
        case Tail => 3
        case Head => 1
      }
  }

  /** The three deterministic hint templates, each taking (birdName, partLabel, clue). */
  const AI_HINT_TEMPLATES: seq<(string, string, string) -> string> := [
    (birdName: string, partLabel: string, clue: string) =>
      "我會先把注意力集中在「" + partLabel + "」的關鍵線索：" + clue
      + "。\n\n接著在四個選項中，只挑「最符合這句描述」的那個，不要被其他可愛細節分心。",
    (birdName: string, partLabel: string, clue: string) =>
      "先讀線索，再找對應特徵：\n「" + clue
      + "」\n\n你可以先排除與這句話明顯相反的選項（例如：長短、顏色、形狀）。",
    (birdName: string, partLabel: string, clue: string) =>
      "如果你卡住，建議分兩步：\n1) 先判斷 " + partLabel
      + " 的「形狀/比例」。\n2) 再確認「顏色/記號」。\n\n你的線索是：" + clue
  ]

  // ---------- Properties of the data ----------

  /** The quiz step at which a part is asked: the position of the part in PART_ORDER. */
  function StepOf(p: Part): (i: nat)
    ensures i < |PART_ORDER| && PART_ORDER[i] == p
  {
    match p
    case Legs => 0
    case Body => 1
    case Wing => 2
    case Tail => 3
    case Head => 4
  }

  /** PART_ORDER lists exactly the five parts, each once, legs first and head last. */
  lemma PartOrderIsPermutationOfParts()
    ensures |PART_ORDER| == 5
    ensures forall i, j :: 0 <= i < j < |PART_ORDER| ==> PART_ORDER[i] != PART_ORDER[j]
    ensures forall p: Part :: p in PART_ORDER
    ensures PART_ORDER[0] == Legs && PART_ORDER[4] == Head
  {
    forall p: Part ensures p in PART_ORDER {
      assert PART_ORDER[StepOf(p)] == p;
    }
  }

  /** Every part has exactly four quiz options. */
  lemma OptionPoolHasFour(p: Part)
    ensures p in OPTION_POOLS && |OPTION_POOLS[p]| == 4
  {
  }

  /** Every correct index lies in 0..3 and so indexes into the part's option pool. */
  lemma CorrectIndexInPool(s: Species, p: Part)
    ensures p in OPTION_POOLS && 0 <= CorrectIndex(s, p) < |OPTION_POOLS[p]| == 4
  {
    OptionPoolHasFour(p);
  }

  /** Every token is the species key, an underscore and the part key. */
  lemma TokenShape(s: Species, p: Part)
    ensures Token(s, p) == SpeciesKey(s) + "_" + PartKey(p)
  {
    match s
    case Sparrow => TokenShapeSparrow(p);
    case Bulbul => TokenShapeBulbul(p);
    case Dove => TokenShapeDove(p);
    case Drongo => TokenShapeDrongo(p);
    case WhiteEye => TokenShapeWhiteEye(p);
  }

  lemma TokenShapeSparrow(p: Part)
    ensures Token(Sparrow, p) == "sparrow_" + PartKey(p)
  {
    match p
    case Legs => assert Token(Sparrow, Legs) == "sparrow_legs";
    case Body => assert Token(Sparrow, Body) == "sparrow_body";
    case Wing => assert Token(Sparrow, Wing) == "sparrow_wing";
    case Tail => assert Token(Sparrow, Tail) == "sparrow_tail";
    case Head => assert Token(Sparrow, Head) == "sparrow_head";
  }

  lemma TokenShapeBulbul(p: Part)
    ensures Token(Bulbul, p) == "bulbul_" + PartKey(p)
  {
    match p
    case Legs => assert Token(Bulbul, Legs) == "bulbul_legs";
    case Body => assert Token(Bulbul, Body) == "bulbul_body";
    case Wing => assert Token(Bulbul, Wing) == "bulbul_wing";
    case Tail => assert Token(Bulbul, Tail) == "bulbul_tail";
    case Head => assert Token(Bulbul, Head) == "bulbul_head";
  }

  lemma TokenShapeDove(p: Part)
    ensures Token(Dove, p) == "dove_" + PartKey(p)
  {
    match p
    case Legs => assert Token(Dove, Legs) == "dove_legs";
    case Body => assert Token(Dove, Body) == "dove_body";
    case Wing => assert Token(Dove, Wing) == "dove_wing";
    case Tail => assert Token(Dove, Tail) == "dove_tail";
    case Head => assert Token(Dove, Head) == "dove_head";
  }

  lemma TokenShapeDrongo(p: Part)
    ensures Token(Drongo, p) == "drongo_" + PartKey(p)
  {
    match p
    case Legs => assert Token(Drongo, Legs) == "drongo_legs";
    case Body => assert Token(Drongo, Body) == "drongo_body";
    case Wing => assert Token(Drongo, Wing) == "drongo_wing";
    case Tail => assert Token(Drongo, Tail) == "drongo_tail";
    case Head => assert Token(Drongo, Head) == "drongo_head";
  }

  lemma TokenShapeWhiteEye(p: Part)
    ensures Token(WhiteEye, p) == "whiteeye_" + PartKey(p)
  {
    match p
    case Legs => assert Token(WhiteEye, Legs) == "whiteeye_legs";
    case Body => assert Token(WhiteEye, Body) == "whiteeye_body";
    case Wing => assert Token(WhiteEye, Wing) == "whiteeye_wing";
    case Tail => assert Token(WhiteEye, Tail) == "whiteeye_tail";
    case Head => assert Token(WhiteEye, Head) == "whiteeye_head";
  }

  /** Neither species keys nor part keys contain an underscore. */
  lemma KeysHaveNoUnderscore(s: Species, p: Part)
    ensures '_' !in SpeciesKey(s) && '_' !in PartKey(p)
  {
  }

  /** Species keys begin, and part keys end, with a lower-case letter. */
  lemma KeysBorderedByLetters(s: Species, p: Part)
    ensures |SpeciesKey(s)| > 0 && 'a' <= SpeciesKey(s)[0] <= 'z'
    ensures |PartKey(p)| > 0 && 'a' <= PartKey(p)[|PartKey(p)| - 1] <= 'z'
  {
  }

  /** Distinct species have distinct keys, and so do distinct parts. */
  lemma KeysInjective(s1: Species, s2: Species, p1: Part, p2: Part)
    ensures SpeciesKey(s1) == SpeciesKey(s2) ==> s1 == s2
    ensures PartKey(p1) == PartKey(p2) ==> p1 == p2
  {
  }

  /** The index of the first occurrence of `ch` in `s`, or |s| when there is none. */
  function IndexOf(s: string, ch: char): (i: nat)
    ensures i <= |s|
    ensures i < |s| ==> s[i] == ch
    ensures forall j :: 0 <= j < i ==> s[j] != ch
  {
    if s == [] then 0
    else if s[0] == ch then 0
    else 1 + IndexOf(s[1..], ch)
  }

  /** Joining two underscore-free heads with "_" determines both halves. */
  lemma JoinInjective(a: string, b: string, c: string, d: string)
    requires '_' !in a && '_' !in c
    requires a + "_" + b == c + "_" + d
    ensures a == c && b == d
  {
    var s := a + "_" + b;
    assert s[|a|] == '_' && s[|c|] == '_';
    assert forall j :: 0 <= j < |a| ==> s[j] == a[j];
    assert forall j :: 0 <= j < |c| ==> s[j] == c[j];
    assert IndexOf(s, '_') == |a| == |c|;
    assert a == s[..|a|] == c;
    assert b == s[|a| + 1..] == d;
  }

  /** Tokens are pairwise distinct: a payload matches at most one (species, part). */
  lemma TokensDistinct(s1: Species, p1: Part, s2: Species, p2: Part)
    requires Token(s1, p1) == Token(s2, p2)
    ensures s1 == s2 && p1 == p2
  {
    TokenShape(s1, p1);
    TokenShape(s2, p2);
    KeysHaveNoUnderscore(s1, p1);
    KeysHaveNoUnderscore(s2, p2);
    JoinInjective(SpeciesKey(s1), PartKey(p1), SpeciesKey(s2), PartKey(p2));
    KeysInjective(s1, s2, p1, p2);
  }

  /** `t` occurs in `s` starting at index `k`. */
  ghost predicate OccursAt(s: string, t: string, k: int)
  {
    0 <= k && k + |t| <= |s| && s[k..k + |t|] == t
  }

  ghost predicate Contains(s: string, t: string)
  {
    exists k :: OccursAt(s, t, k)
  }

  lemma ContainsMiddle(a: string, t: string, b: string)
    ensures Contains(a + t + b, t)
  {
    var s := a + t + b;
    assert s[|a|..|a| + |t|] == t;
    assert OccursAt(s, t, |a|);
  }

  /**
    There are three templates; each output contains the clue and none depends
    on the bird name.
   */
  lemma HintTemplatesMentionClue(name: string, partLabel: string, clue: string, otherName: string)
    ensures |AI_HINT_TEMPLATES| == 3
    ensures forall i | 0 <= i < |AI_HINT_TEMPLATES| :: Contains(AI_HINT_TEMPLATES[i](name, partLabel, clue), clue)
    ensures forall i | 0 <= i < |AI_HINT_TEMPLATES| ::
              AI_HINT_TEMPLATES[i](name, partLabel, clue) == AI_HINT_TEMPLATES[i](otherName, partLabel, clue)
  {
    ContainsMiddle("我會先把注意力集中在「" + partLabel + "」的關鍵線索：", clue,
                   "。\n\n接著在四個選項中，只挑「最符合這句描述」的那個，不要被其他可愛細節分心。");
    ContainsMiddle("先讀線索，再找對應特徵：\n「", clue,
                   "」\n\n你可以先排除與這句話明顯相反的選項（例如：長短、顏色、形狀）。");
    ContainsMiddle("如果你卡住，建議分兩步：\n1) 先判斷 " + partLabel + " 的「形狀/比例」。\n2) 再確認「顏色/記號」。\n\n你的線索是：",
                   clue, "");
    assert "如果你卡住，建議分兩步：\n1) 先判斷 " + partLabel + " 的「形狀/比例」。\n2) 再確認「顏色/記號」。\n\n你的線索是：" + clue + ""
        == AI_HINT_TEMPLATES[2](name, partLabel, clue);
  }
}
