/**
 * The plan builder: the 27-slot skeleton with placeholders, and the live
 * plan in which each position's placeholder pair is replaced by the two
 * potential questions of the sphere chosen there (or dropped while no
 * sphere has been chosen).
 */
module Planner {
  import opened Catalog

  /** A stored answer; an absent key reads as "", which Python treats as falsy like `None`. */
  function Lookup(answers: map<QuestionId, string>, k: QuestionId): string {
    if k in answers then answers[k] else ""
  }

  /** Which of the two placeholders of a position (`p{pos}_potA` or `p{pos}_potB`). */
  datatype Half = PotA | PotB

  /** A skeleton entry: a concrete question, or a placeholder for a potential question. */
  datatype Slot = Ask(q: Question) | Placeholder(position: Position, column: Column, half: Half)

  /** The four skeleton slots of a position, starting at index 4 * pos - 1. */
  ghost predicate SkeletonBlock(plan: seq<Slot>, pos: Position)
    requires 4 * pos + 3 <= |plan|
  {
    var col := PosColumn(pos);
    && plan[4 * pos - 1] == Ask(SphereQuestion(pos, col, 1, FirstSpherePrompt(pos)))
    && plan[4 * pos] == Ask(SphereQuestion(pos, col, 2, SecondSpherePrompt))
    && plan[4 * pos + 1] == Placeholder(pos, col, PotA)
    && plan[4 * pos + 2] == Placeholder(pos, col, PotB)
  }

  /** The skeleton: the intake questions, then four slots for each position 1..6. */
  ghost predicate IsSkeleton(plan: seq<Slot>) {
    && |plan| == 27
    && (forall i :: 0 <= i < 3 ==> plan[i] == Ask(IntakeQuestions[i]))
    && forall pos: Position :: SkeletonBlock(plan, pos)
  }

  /** `build_dynamic_plan`. */
  method BuildDynamicPlan() returns (plan: seq<Slot>)
    ensures IsSkeleton(plan)
  {
    plan := [Ask(IntakeQuestions[0]), Ask(IntakeQuestions[1]), Ask(IntakeQuestions[2])];
    for pos := 1 to 7
      invariant |plan| == 4 * pos - 1
      invariant forall i :: 0 <= i < 3 ==> plan[i] == Ask(IntakeQuestions[i])
      invariant forall p: Position :: p < pos ==> SkeletonBlock(plan, p)
    {
      ghost var prev := plan;
      var col := PosColumn(pos);
      plan := plan + [Ask(SphereQuestion(pos, col, 1, FirstSpherePrompt(pos))),
                      Ask(SphereQuestion(pos, col, 2, SecondSpherePrompt))];
      plan := plan + [Placeholder(pos, col, PotA), Placeholder(pos, col, PotB)];
      forall p: Position | p < pos + 1
        ensures SkeletonBlock(plan, p)
      {
        if p < pos {
          assert SkeletonBlock(prev, p);
          assert forall i :: 0 <= i < |prev| ==> plan[i] == prev[i];
        }
      }
    }
  }

  /**
   * The sphere chosen at a position: the answer to `p{pos}_s1` when it is
   * non-empty, otherwise the answer to `p{pos}_s2`; "" when neither is given.
   */
  function Chosen(answers: map<QuestionId, string>, pos: Position): string {
    var s1 := Lookup(answers, SphereId(pos, 1));
    var s2 := Lookup(answers, SphereId(pos, 2));
    var chosen := if s1 != "" then s1 else s2;
    if s1 != "" && s2 != "" && s1 != s2 then s1 else chosen
  }

  /** The questions one skeleton slot contributes to the live plan. */
  ghost function SlotQuestions(slot: Slot, answers: map<QuestionId, string>): seq<Question> {
    match slot
    case Ask(q) => [q]
    case Placeholder(pos, _, half) =>
      var chosen := Chosen(answers, pos);
      if chosen == "" then []
      else
        var qs := ResolvePotQuestions(pos, chosen, PosColumn(pos));
        if half == PotA then [qs.0] else [qs.1]
  }

  /** The questions a run of skeleton slots contributes, in order. */
  ghost function Expanded(slots: seq<Slot>, answers: map<QuestionId, string>): seq<Question> {
    if slots == [] then []
    else Expanded(slots[..|slots| - 1], answers) + SlotQuestions(slots[|slots| - 1], answers)
  }

  /** The identifiers of the intake questions, in plan order. */
  const IntakeIds: seq<QuestionId> := [IntakeId(NameField), IntakeId(RequestField), IntakeId(ContactField)]

  /** The potential pair a position contributes: none until a sphere is chosen there. */
  function PotPairIds(answers: map<QuestionId, string>, pos: Position): seq<QuestionId> {
    var chosen := Chosen(answers, pos);
    if chosen == "" then []
    else
      var s := ResolvedSphere(chosen);
      [PotId(pos, 1, s), PotId(pos, 2, s)]
  }

  /** Everything a position contributes: its two sphere questions, then its potential pair. */
  function BlockIds(answers: map<QuestionId, string>, pos: Position): seq<QuestionId> {
    [SphereId(pos, 1), SphereId(pos, 2)] + PotPairIds(answers, pos)
  }

  /** The blocks of positions 1..n, in increasing order. */
  function BlocksIds(answers: map<QuestionId, string>, n: nat): seq<QuestionId>
    requires n <= 6
  {
    if n == 0 then [] else BlocksIds(answers, n - 1) + BlockIds(answers, n)
  }

  /** The identifiers of the live plan: the intake questions, then the six blocks. */
  function PlanIds(answers: map<QuestionId, string>): seq<QuestionId> {
    IntakeIds + BlocksIds(answers, 6)
  }

  /** The questions a sequence of identifiers stands for. */
  function Questions(ids: seq<QuestionId>): seq<Question> {
    seq(|ids|, i requires 0 <= i < |ids| => QuestionOf(ids[i]))
  }

  /** The live plan: the reference `DynamicQuestionPlan` is proved against. */
  function Plan(answers: map<QuestionId, string>): seq<Question> {
    Questions(PlanIds(answers))
  }

  /** `dynamic_question_plan`: walks the skeleton, replacing or dropping each placeholder. */
  method DynamicQuestionPlan(answers: map<QuestionId, string>) returns (out: seq<Question>)
    ensures out == Plan(answers)
  {
    var base := BuildDynamicPlan();
    out := [];
    for i := 0 to |base|
      invariant out == Expanded(base[..i], answers)
    {
      assert base[..i + 1][..i] == base[..i];
      ExpandedLast(base[..i + 1], answers);
      match base[i]
      case Ask(q) =>
        out := out + [q];
      case Placeholder(pos, _, half) =>
        var chosen := Chosen(answers, pos);
        if chosen != "" {
          var qs := ResolvePotQuestions(pos, chosen, PosColumn(pos));
          out := out + if half == PotA then [qs.0] else [qs.1];
        }
    }
    assert base[..|base|] == base;
    SkeletonExpandsToPlan(base, answers);
  }

  lemma {:induction false} ExpandedAppend(s: seq<Slot>, t: seq<Slot>, answers: map<QuestionId, string>)
    ensures Expanded(s + t, answers) == Expanded(s, answers) + Expanded(t, answers)
    decreases |t|
  {
    if t == [] {
      assert s + t == s;
    } else {
      var u, init, last := s + t, t[..|t| - 1], t[|t| - 1];
      assert u[|u| - 1] == last;
      assert u[..|u| - 1] == s + init;
      ExpandedAppend(s, init, answers);
      ExpandedLast(u, answers);
      ExpandedLast(t, answers);
      ConcatAssoc(Expanded(s, answers), Expanded(init, answers), SlotQuestions(last, answers));
    }
  }

  lemma ExpandedLast(u: seq<Slot>, answers: map<QuestionId, string>)
    requires u != []
    ensures Expanded(u, answers) == Expanded(u[..|u| - 1], answers) + SlotQuestions(u[|u| - 1], answers)
  {
  }

  lemma {:induction false} ExpandedSingle(x: Slot, answers: map<QuestionId, string>)
    ensures Expanded([x], answers) == SlotQuestions(x, answers)
  {
    assert [x][..0] == [];
  }

  lemma QuestionsAppend(a: seq<QuestionId>, b: seq<QuestionId>)
    ensures Questions(a + b) == Questions(a) + Questions(b)
  {
  }

  /** The four slots of a position expand to the questions of that position's block. */
  lemma {:induction false} ExpandedSkeletonBlock(base: seq<Slot>, answers: map<QuestionId, string>, pos: Position)
    requires 4 * pos + 3 <= |base| && SkeletonBlock(base, pos)
    ensures Expanded(base[4 * pos - 1..4 * pos + 3], answers) == Questions(BlockIds(answers, pos))
  {
    var lo := 4 * pos - 1;
    var col := PosColumn(pos);
    ExpandedFour(base[lo..lo + 4], answers);
    SphereSlotsExpand(pos, answers);
    PlaceholdersExpand(pos, answers);
    QuestionsAppend([SphereId(pos, 1), SphereId(pos, 2)], PotPairIds(answers, pos));
  }

  lemma {:induction false} ExpandedFour(slots: seq<Slot>, answers: map<QuestionId, string>)
    requires |slots| == 4
    ensures Expanded(slots, answers)
         == (SlotQuestions(slots[0], answers) + SlotQuestions(slots[1], answers))
          + (SlotQuestions(slots[2], answers) + SlotQuestions(slots[3], answers))
  {
    var a, b, c, d := slots[0], slots[1], slots[2], slots[3];
    assert slots == [a] + [b] + [c] + [d];
    ExpandedAppend([a] + [b] + [c], [d], answers);
    ExpandedAppend([a] + [b], [c], answers);
    ExpandedAppend([a], [b], answers);
    ExpandedSingle(a, answers);
    ExpandedSingle(b, answers);
    ExpandedSingle(c, answers);
    ExpandedSingle(d, answers);
    ConcatAssoc(SlotQuestions(a, answers) + SlotQuestions(b, answers), SlotQuestions(c, answers), SlotQuestions(d, answers));
  }

  lemma SphereSlotsExpand(pos: Position, answers: map<QuestionId, string>)
    ensures var col := PosColumn(pos);
            SlotQuestions(Ask(SphereQuestion(pos, col, 1, FirstSpherePrompt(pos))), answers)
              + SlotQuestions(Ask(SphereQuestion(pos, col, 2, SecondSpherePrompt)), answers)
            == Questions([SphereId(pos, 1), SphereId(pos, 2)])
  {
  }

  lemma PlaceholdersExpand(pos: Position, answers: map<QuestionId, string>)
    ensures var col := PosColumn(pos);
            SlotQuestions(Placeholder(pos, col, PotA), answers) + SlotQuestions(Placeholder(pos, col, PotB), answers)
            == Questions(PotPairIds(answers, pos))
  {
    ResolvePotQuestionsById(pos, Chosen(answers, pos));
  }

  lemma {:induction false} ExpandedIntake(slots: seq<Slot>, answers: map<QuestionId, string>)
    requires |slots| == 3 && forall i :: 0 <= i < 3 ==> slots[i] == Ask(IntakeQuestions[i])
    ensures Expanded(slots, answers) == Questions(IntakeIds)
  {
    ExpandedThree(slots, answers);
    IntakeQuestionsById();
    assert Expanded(slots, answers) == IntakeQuestions;
  }

  lemma {:induction false} ExpandedThree(slots: seq<Slot>, answers: map<QuestionId, string>)
    requires |slots| == 3
    ensures Expanded(slots, answers)
         == SlotQuestions(slots[0], answers) + SlotQuestions(slots[1], answers) + SlotQuestions(slots[2], answers)
  {
    assert slots == [slots[0]] + [slots[1]] + [slots[2]];
    ExpandedAppend([slots[0]] + [slots[1]], [slots[2]], answers);
    ExpandedAppend([slots[0]], [slots[1]], answers);
    ExpandedSingle(slots[0], answers);
    ExpandedSingle(slots[1], answers);
    ExpandedSingle(slots[2], answers);
  }

  lemma IntakeQuestionsById()
    ensures Questions(IntakeIds) == IntakeQuestions
  {
    var qs := Questions(IntakeIds);
    assert qs[0] == QuestionOf(IntakeId(NameField)) == IntakeQuestions[0];
    assert qs[1] == QuestionOf(IntakeId(RequestField)) == IntakeQuestions[1];
    assert qs[2] == QuestionOf(IntakeId(ContactField)) == IntakeQuestions[2];
  }

  lemma {:induction false} ExpandedSkeletonStep(base: seq<Slot>, answers: map<QuestionId, string>, k: Position)
    requires |base| == 27
    requires Expanded(base[4 * k - 1..4 * k + 3], answers) == Questions(BlockIds(answers, k))
    requires Expanded(base[..4 * k - 1], answers) == Questions(IntakeIds + BlocksIds(answers, k - 1))
    ensures Expanded(base[..4 * k + 3], answers) == Questions(IntakeIds + BlocksIds(answers, k))
  {
    var lo := 4 * k - 1;
    var head, blk := base[..lo], base[lo..lo + 4];
    assert base[..lo + 4] == head + blk;
    ExpandedAppend(head, blk, answers);
    QuestionsAppend(IntakeIds + BlocksIds(answers, k - 1), BlockIds(answers, k));
    ConcatAssoc(IntakeIds, BlocksIds(answers, k - 1), BlockIds(answers, k));
  }

  lemma ExpandedSkeletonStart(base: seq<Slot>, answers: map<QuestionId, string>)
    requires |base| == 27 && forall i :: 0 <= i < 3 ==> base[i] == Ask(IntakeQuestions[i])
    ensures Expanded(base[..3], answers) == Questions(IntakeIds + BlocksIds(answers, 0))
  {
    ExpandedIntake(base[..3], answers);
    assert IntakeIds + BlocksIds(answers, 0) == IntakeIds;
  }

  /** One more position of the skeleton expands to one more block of the plan. */
  lemma SkeletonPosition(base: seq<Slot>, answers: map<QuestionId, string>, k: Position)
    requires |base| == 27 && SkeletonBlock(base, k)
    requires Expanded(base[..4 * k - 1], answers) == Questions(IntakeIds + BlocksIds(answers, k - 1))
    ensures Expanded(base[..4 * k + 3], answers) == Questions(IntakeIds + BlocksIds(answers, k))
  {
    ExpandedSkeletonBlock(base, answers, k);
    ExpandedSkeletonStep(base, answers, k);
  }

  lemma SkeletonThroughThree(base: seq<Slot>, answers: map<QuestionId, string>)
    requires |base| == 27 && forall i :: 0 <= i < 3 ==> base[i] == Ask(IntakeQuestions[i])
    requires SkeletonBlock(base, 1) && SkeletonBlock(base, 2) && SkeletonBlock(base, 3)
    ensures Expanded(base[..15], answers) == Questions(IntakeIds + BlocksIds(answers, 3))
  {
    ExpandedSkeletonStart(base, answers);
    SkeletonPosition(base, answers, 1);
    SkeletonPosition(base, answers, 2);
    SkeletonPosition(base, answers, 3);
  }

  lemma SkeletonFourToSix(base: seq<Slot>, answers: map<QuestionId, string>)
    requires |base| == 27 && SkeletonBlock(base, 4) && SkeletonBlock(base, 5) && SkeletonBlock(base, 6)
    requires Expanded(base[..15], answers) == Questions(IntakeIds + BlocksIds(answers, 3))
    ensures Expanded(base, answers) == Questions(IntakeIds + BlocksIds(answers, 6))
  {
    SkeletonPosition(base, answers, 4);
    SkeletonPosition(base, answers, 5);
    SkeletonPosition(base, answers, 6);
    assert base[..27] == base;
  }

  /** Expanding the skeleton yields the position-by-position plan. */
  lemma SkeletonExpandsToPlan(base: seq<Slot>, answers: map<QuestionId, string>)
    requires IsSkeleton(base)
    ensures Expanded(base, answers) == Plan(answers)
  {
    assert SkeletonBlock(base, 1) && SkeletonBlock(base, 2) && SkeletonBlock(base, 3);
    SkeletonThroughThree(base, answers);
    assert SkeletonBlock(base, 4) && SkeletonBlock(base, 5) && SkeletonBlock(base, 6);
    SkeletonFourToSix(base, answers);
  }

  /** Whether either sphere question of a position has a non-empty answer. */
  predicate SphereAnswered(answers: map<QuestionId, string>, pos: Position) {
    Lookup(answers, SphereId(pos, 1)) != "" || Lookup(answers, SphereId(pos, 2)) != ""
  }

  /** The positions among 1..n with a non-empty sphere answer. */
  function AnsweredPositions(answers: map<QuestionId, string>, n: nat): set<nat>
    requires n <= 6
  {
    set pos: nat | 1 <= pos <= n && SphereAnswered(answers, pos)
  }

  /** Index in the plan of the first sphere question of a position. */
  function BlockStart(answers: map<QuestionId, string>, pos: Position): nat {
    |IntakeIds| + |BlocksIds(answers, pos - 1)|
  }

  /** The tie-break: the first sphere answer wins whenever it is non-empty. */
  lemma ChosenIsFirstNonEmpty(answers: map<QuestionId, string>, pos: Position)
    ensures var s1, s2 := Lookup(answers, SphereId(pos, 1)), Lookup(answers, SphereId(pos, 2));
            Chosen(answers, pos) == if s1 != "" then s1 else s2
  {
  }

  lemma {:induction false} BlocksLength(answers: map<QuestionId, string>, n: nat)
    requires n <= 6
    ensures |BlocksIds(answers, n)| == 2 * n + 2 * |AnsweredPositions(answers, n)|
    ensures |AnsweredPositions(answers, n)| <= n
  {
    if n > 0 {
      BlocksLength(answers, n - 1);
      AnsweredStep(answers, n);
    }
  }

  lemma AnsweredStep(answers: map<QuestionId, string>, n: nat)
    requires 0 < n <= 6
    ensures |BlockIds(answers, n)| == if SphereAnswered(answers, n) then 4 else 2
    ensures AnsweredPositions(answers, n)
         == AnsweredPositions(answers, n - 1) + if SphereAnswered(answers, n) then {n} else {}
    ensures n !in AnsweredPositions(answers, n - 1)
  {
  }

  /**
   * The plan opens with the three intake questions and has 15 entries plus
   * two for every position with a non-empty sphere answer: between 15 and 27.
   */
  lemma PlanLength(answers: map<QuestionId, string>)
    ensures |Plan(answers)| == |PlanIds(answers)|
    ensures PlanIds(answers)[..3] == IntakeIds
    ensures |PlanIds(answers)| == 15 + 2 * |AnsweredPositions(answers, 6)|
    ensures 15 <= |PlanIds(answers)| <= 27
  {
    BlocksLength(answers, 6);
  }

  lemma {:induction false} BlocksPrefix(answers: map<QuestionId, string>, m: nat, n: nat)
    requires m <= n <= 6
    ensures |BlocksIds(answers, m)| <= |BlocksIds(answers, n)|
    ensures BlocksIds(answers, n)[..|BlocksIds(answers, m)|] == BlocksIds(answers, m)
    decreases n
  {
    if m < n {
      BlocksPrefix(answers, m, n - 1);
      assert BlocksIds(answers, n)[..|BlocksIds(answers, n - 1)|] == BlocksIds(answers, n - 1);
    }
  }

  /** A position's block sits in the plan at `BlockStart`, right after the earlier blocks. */
  lemma {:induction false} BlockInPlan(answers: map<QuestionId, string>, pos: Position)
    ensures var plan, st, b := PlanIds(answers), BlockStart(answers, pos), BlockIds(answers, pos);
            && st + |b| <= |plan|
            && plan[..st] == IntakeIds + BlocksIds(answers, pos - 1)
            && plan[st..st + |b|] == b
            && (pos < 6 ==> BlockStart(answers, pos + 1) == st + |b|)
            && (pos == 6 ==> |plan| == st + |b|)
  {
    var plan, st, b := PlanIds(answers), BlockStart(answers, pos), BlockIds(answers, pos);
    BlocksPrefix(answers, pos, 6);
    var bs := BlocksIds(answers, pos);
    var rest := BlocksIds(answers, 6)[|bs|..];
    assert BlocksIds(answers, 6) == bs + rest;
    ConcatAssoc(IntakeIds, bs, rest);
    ConcatAssoc(IntakeIds, BlocksIds(answers, pos - 1), b);
    assert plan[..st + |b|] == IntakeIds + bs;
    assert plan[..st] == plan[..st + |b|][..st];
    assert plan[st..st + |b|] == plan[..st + |b|][st..];
  }

  /**
   * Where a position's questions sit in the plan: `p{pos}_s1` and
   * `p{pos}_s2` at `BlockStart`, then, immediately after `p{pos}_s2`, the
   * pair of the sphere named by the first sphere answer when that is
   * non-empty, else by the second; no pair when both are empty. The next
   * position starts right after, so positions come in increasing order.
   */
  lemma PlanAtPosition(answers: map<QuestionId, string>, pos: Position)
    ensures var plan, st := PlanIds(answers), BlockStart(answers, pos);
            var s1, s2 := Lookup(answers, SphereId(pos, 1)), Lookup(answers, SphereId(pos, 2));
            var end := st + if s1 != "" || s2 != "" then 4 else 2;
            && end <= |plan|
            && plan[st] == SphereId(pos, 1)
            && plan[st + 1] == SphereId(pos, 2)
            && (s1 != "" ==>
                  plan[st + 2] == PotId(pos, 1, ResolvedSphere(s1)) && plan[st + 3] == PotId(pos, 2, ResolvedSphere(s1)))
            && (s1 == "" && s2 != "" ==>
                  plan[st + 2] == PotId(pos, 1, ResolvedSphere(s2)) && plan[st + 3] == PotId(pos, 2, ResolvedSphere(s2)))
            && (pos < 6 ==> BlockStart(answers, pos + 1) == end)
            && (pos == 6 ==> |plan| == end)
  {
    var plan, st, b := PlanIds(answers), BlockStart(answers, pos), BlockIds(answers, pos);
    BlockInPlan(answers, pos);
    BlockShape(answers, pos);
    SliceIndex(plan, st, b);
  }

  lemma BlockShape(answers: map<QuestionId, string>, pos: Position)
    ensures var b := BlockIds(answers, pos);
            var s1, s2 := Lookup(answers, SphereId(pos, 1)), Lookup(answers, SphereId(pos, 2));
            && |b| == (if s1 != "" || s2 != "" then 4 else 2)
            && b[0] == SphereId(pos, 1) && b[1] == SphereId(pos, 2)
            && (s1 != "" ==> b[2] == PotId(pos, 1, ResolvedSphere(s1)) && b[3] == PotId(pos, 2, ResolvedSphere(s1)))
            && (s1 == "" && s2 != "" ==> b[2] == PotId(pos, 1, ResolvedSphere(s2)) && b[3] == PotId(pos, 2, ResolvedSphere(s2)))
  {
    ChosenIsFirstNonEmpty(answers, pos);
  }

  lemma SliceIndex<T>(s: seq<T>, st: nat, b: seq<T>)
    requires st + |b| <= |s| && s[st..st + |b|] == b
    ensures forall j :: 0 <= j < |b| ==> s[st + j] == b[j]
  {
    forall j | 0 <= j < |b| ensures s[st + j] == b[j] {
      assert s[st + j] == s[st..st + |b|][j];
    }
  }

  /** Each block ends where the next one starts; the last one ends the plan. */
  lemma BlockEnd(answers: map<QuestionId, string>, pos: Position)
    ensures pos == 1 ==> BlockStart(answers, pos) == 3
    ensures pos < 6 ==> BlockStart(answers, pos + 1) == BlockStart(answers, pos) + |BlockIds(answers, pos)|
    ensures pos == 6 ==> |PlanIds(answers)| == BlockStart(answers, pos) + |BlockIds(answers, pos)|
  {
    assert BlocksIds(answers, pos) == BlocksIds(answers, pos - 1) + BlockIds(answers, pos);
  }

  /** The position, from `pos` on, whose block holds plan index `i`. */
  ghost function BlockHolding(answers: map<QuestionId, string>, i: nat, pos: Position): Position
    decreases 6 - pos
  {
    if pos == 6 || i < BlockStart(answers, pos + 1) then pos else BlockHolding(answers, i, pos + 1)
  }

  lemma {:induction false} BlockHoldingHolds(answers: map<QuestionId, string>, i: nat, pos: Position)
    requires BlockStart(answers, pos) <= i < |PlanIds(answers)|
    ensures var b := BlockHolding(answers, i, pos);
            BlockStart(answers, b) <= i < BlockStart(answers, b) + |BlockIds(answers, b)|
    decreases 6 - pos
  {
    BlockEnd(answers, pos);
    if pos < 6 && BlockStart(answers, pos + 1) <= i {
      BlockHoldingHolds(answers, i, pos + 1);
    }
  }

  /** Every plan entry after the intake ones lies in its own position's block. */
  lemma PlanMember(answers: map<QuestionId, string>, i: nat)
    requires 3 <= i < |PlanIds(answers)|
    ensures var id := PlanIds(answers)[i];
            && !id.IntakeId?
            && BlockStart(answers, id.pos) <= i < BlockStart(answers, id.pos) + |BlockIds(answers, id.pos)|
            && id == BlockIds(answers, id.pos)[i - BlockStart(answers, id.pos)]
  {
    BlockEnd(answers, 1);
    BlockHoldingHolds(answers, i, 1);
    BlockEntry(answers, BlockHolding(answers, i, 1), i);
  }

  lemma BlockEntry(answers: map<QuestionId, string>, pos: Position, i: nat)
    requires BlockStart(answers, pos) <= i < BlockStart(answers, pos) + |BlockIds(answers, pos)|
    ensures i < |PlanIds(answers)|
    ensures var id := PlanIds(answers)[i];
            && !id.IntakeId? && id.pos == pos
            && id == BlockIds(answers, pos)[i - BlockStart(answers, pos)]
  {
    var b, k := BlockIds(answers, pos), i - BlockStart(answers, pos);
    BlockIndex(answers, pos, k);
    BlockFacts(answers, pos);
    assert b[k] in b;
  }

  /** Entry `j` of a position's block is plan entry `BlockStart + j`. */
  lemma BlockIndex(answers: map<QuestionId, string>, pos: Position, j: nat)
    requires j < |BlockIds(answers, pos)|
    ensures BlockStart(answers, pos) + j < |PlanIds(answers)|
    ensures PlanIds(answers)[BlockStart(answers, pos) + j] == BlockIds(answers, pos)[j]
  {
    var plan, st, b := PlanIds(answers), BlockStart(answers, pos), BlockIds(answers, pos);
    BlockSlice(answers, pos);
    assert plan[st + j] == plan[st..st + |b|][j];
  }

  lemma BlockSlice(answers: map<QuestionId, string>, pos: Position)
    ensures var plan, st, b := PlanIds(answers), BlockStart(answers, pos), BlockIds(answers, pos);
            st + |b| <= |plan| && plan[st..st + |b|] == b
  {
    BlockInPlan(answers, pos);
  }

  /**
   * Which identifiers the plan holds: every intake and sphere identifier,
   * and the potential identifiers of exactly the sphere chosen at each
   * position where one has been chosen.
   */
  lemma PlanMembership(answers: map<QuestionId, string>, id: QuestionId)
    ensures id in PlanIds(answers) <==> InPlanByDesign(answers, id)
  {
    if id in PlanIds(answers) {
      PlanHoldsOnlyDesigned(answers, id);
    } else if InPlanByDesign(answers, id) {
      PlanHoldsDesigned(answers, id);
    }
  }

  /** Whether the plan for these answers is meant to hold an identifier. */
  predicate InPlanByDesign(answers: map<QuestionId, string>, id: QuestionId) {
    match id
    case IntakeId(_) => true
    case SphereId(_, _) => true
    case PotId(pos, _, s) => Chosen(answers, pos) != "" && s == ResolvedSphere(Chosen(answers, pos))
  }

  lemma PlanHoldsOnlyDesigned(answers: map<QuestionId, string>, id: QuestionId)
    requires id in PlanIds(answers)
    ensures InPlanByDesign(answers, id)
  {
    var plan := PlanIds(answers);
    var i :| 0 <= i < |plan| && plan[i] == id;
    if 3 <= i {
      PlanMember(answers, i);
      var b := BlockIds(answers, id.pos);
      assert id == b[i - BlockStart(answers, id.pos)];
      BlockHoldsOnlyDesigned(answers, id.pos, id);
    }
  }

  lemma BlockHoldsOnlyDesigned(answers: map<QuestionId, string>, pos: Position, id: QuestionId)
    requires id in BlockIds(answers, pos)
    ensures InPlanByDesign(answers, id)
  {
  }

  lemma PlanHoldsDesigned(answers: map<QuestionId, string>, id: QuestionId)
    requires InPlanByDesign(answers, id)
    ensures id in PlanIds(answers)
  {
    match id
    case IntakeId(f) =>
      IntakeInPlan(answers, f);
    case SphereId(pos, n) =>
      BlockEntryInPlan(answers, pos, n - 1);
    case PotId(pos, n, s) =>
      BlockEntryInPlan(answers, pos, n + 1);
  }

  lemma IntakeInPlan(answers: map<QuestionId, string>, f: IntakeField)
    ensures IntakeId(f) in PlanIds(answers)
  {
    PlanLength(answers);
    var k := if f == NameField then 0 else if f == RequestField then 1 else 2;
    assert PlanIds(answers)[k] == PlanIds(answers)[..3][k] == IntakeIds[k];
  }

  lemma BlockEntryInPlan(answers: map<QuestionId, string>, pos: Position, j: nat)
    requires j < |BlockIds(answers, pos)|
    ensures BlockIds(answers, pos)[j] in PlanIds(answers)
  {
    BlockIndex(answers, pos, j);
  }

  lemma {:induction false} BlocksAgree(a: map<QuestionId, string>, b: map<QuestionId, string>, n: nat)
    requires n <= 6
    requires forall j: Position :: j <= n ==> Chosen(a, j) == Chosen(b, j)
    ensures BlocksIds(a, n) == BlocksIds(b, n)
  {
    if n > 0 {
      BlocksAgree(a, b, n - 1);
      assert BlockIds(a, n) == BlockIds(b, n);
    }
  }

  /** Two answer maps that agree on the sphere answers of positions below `pos` choose alike there. */
  lemma ChoicesAgree(a: map<QuestionId, string>, b: map<QuestionId, string>, pos: nat)
    requires forall j: Position, m: Ordinal :: j < pos ==> Lookup(a, SphereId(j, m)) == Lookup(b, SphereId(j, m))
    ensures forall j: Position :: j < pos ==> Chosen(a, j) == Chosen(b, j)
  {
    forall j: Position | j < pos ensures Chosen(a, j) == Chosen(b, j) {
      assert Lookup(a, SphereId(j, 1)) == Lookup(b, SphereId(j, 1));
      assert Lookup(a, SphereId(j, 2)) == Lookup(b, SphereId(j, 2));
    }
  }

  /** The plan up to `p{pos}_s2`: intake, the earlier blocks, then the position's sphere questions. */
  lemma PlanThroughSphereQuestions(answers: map<QuestionId, string>, pos: Position)
    ensures BlockStart(answers, pos) + 2 <= |PlanIds(answers)|
    ensures PlanIds(answers)[..BlockStart(answers, pos) + 2]
         == IntakeIds + BlocksIds(answers, pos - 1) + [SphereId(pos, 1), SphereId(pos, 2)]
  {
    var plan, st, b := PlanIds(answers), BlockStart(answers, pos), BlockIds(answers, pos);
    BlockInPlan(answers, pos);
    BlockStartsWithSpheres(answers, pos);
    TakeThroughSlice(plan, st, b, 2);
  }

  lemma BlockStartsWithSpheres(answers: map<QuestionId, string>, pos: Position)
    ensures 2 <= |BlockIds(answers, pos)| && BlockIds(answers, pos)[..2] == [SphereId(pos, 1), SphereId(pos, 2)]
  {
  }

  lemma TakeThroughSlice<T>(x: seq<T>, st: nat, b: seq<T>, len: nat)
    requires st + |b| <= |x| && x[st..st + |b|] == b && len <= |b|
    ensures x[..st + len] == x[..st] + b[..len]
  {
    assert x[..st + len] == x[..st] + x[st..st + len];
  }

  /**
   * The plan up to and including `p{pos}_s2` depends only on the sphere
   * answers of earlier positions.
   */
  lemma PrefixDependsOnlyOnEarlierPositions(a: map<QuestionId, string>, b: map<QuestionId, string>, pos: Position)
    requires forall j: Position, m: Ordinal :: j < pos ==> Lookup(a, SphereId(j, m)) == Lookup(b, SphereId(j, m))
    ensures BlockStart(a, pos) == BlockStart(b, pos)
    ensures BlockStart(a, pos) + 2 <= |PlanIds(a)| && BlockStart(b, pos) + 2 <= |PlanIds(b)|
    ensures PlanIds(a)[..BlockStart(a, pos) + 2] == PlanIds(b)[..BlockStart(b, pos) + 2]
  {
    ChoicesAgree(a, b, pos);
    BlocksAgree(a, b, pos - 1);
    PlanThroughSphereQuestions(a, pos);
    PlanThroughSphereQuestions(b, pos);
  }

  /** The plan depends on the answers only through the sphere answers. */
  lemma PlanDependsOnlyOnSphereAnswers(a: map<QuestionId, string>, b: map<QuestionId, string>)
    requires forall j: Position, m: Ordinal :: Lookup(a, SphereId(j, m)) == Lookup(b, SphereId(j, m))
    ensures PlanIds(a) == PlanIds(b)
  {
    ChoicesAgree(a, b, 7);
    BlocksAgree(a, b, 6);
  }

  /**
   * Recording any answer to the plan entry at index i leaves every entry up
   * to and including index i where it was, so a cursor that has moved past
   * i still points into the same prefix once the plan is rebuilt.
   */
  lemma AnsweringKeepsEarlierIds(answers: map<QuestionId, string>, i: nat, v: string)
    requires i < |PlanIds(answers)|
    ensures var after := answers[PlanIds(answers)[i] := v];
            i < |PlanIds(after)| && PlanIds(after)[..i + 1] == PlanIds(answers)[..i + 1]
  {
    if PlanIds(answers)[i].SphereId? {
      SphereAnswerKeepsEarlierIds(answers, i, v);
    } else {
      OtherAnswerKeepsIds(answers, i, v);
    }
  }

  /** A sphere question sits among the first two entries of its position's block. */
  lemma SphereEntryPlace(answers: map<QuestionId, string>, i: nat)
    requires i < |PlanIds(answers)| && PlanIds(answers)[i].SphereId?
    ensures i + 1 <= BlockStart(answers, PlanIds(answers)[i].pos) + 2
  {
    PlanLength(answers);
    PlanMember(answers, i);
  }

  lemma SphereAnswerKeepsEarlierIds(answers: map<QuestionId, string>, i: nat, v: string)
    requires i < |PlanIds(answers)| && PlanIds(answers)[i].SphereId?
    ensures var after := answers[PlanIds(answers)[i] := v];
            i < |PlanIds(after)| && PlanIds(after)[..i + 1] == PlanIds(answers)[..i + 1]
  {
    var plan := PlanIds(answers);
    var id := plan[i];
    var after := answers[id := v];
    SphereEntryPlace(answers, i);
    SphereAnswerKeepsThroughIt(answers, id.pos, id.n, v);
    PrefixOfPrefix(plan, PlanIds(after), BlockStart(answers, id.pos) + 2, i + 1);
  }

  /** Answering a sphere question leaves the plan up to that position's sphere questions as it was. */
  lemma SphereAnswerKeepsThroughIt(answers: map<QuestionId, string>, pos: Position, n: Ordinal, v: string)
    ensures var after, st := answers[SphereId(pos, n) := v], BlockStart(answers, pos);
            && st + 2 <= |PlanIds(answers)| && st + 2 <= |PlanIds(after)|
            && PlanIds(after)[..st + 2] == PlanIds(answers)[..st + 2]
  {
    var after := answers[SphereId(pos, n) := v];
    assert forall j: Position, m: Ordinal :: j < pos ==> Lookup(answers, SphereId(j, m)) == Lookup(after, SphereId(j, m));
    PrefixDependsOnlyOnEarlierPositions(answers, after, pos);
  }

  lemma OtherAnswerKeepsIds(answers: map<QuestionId, string>, i: nat, v: string)
    requires i < |PlanIds(answers)| && !PlanIds(answers)[i].SphereId?
    ensures PlanIds(answers[PlanIds(answers)[i] := v]) == PlanIds(answers)
  {
    PlanDependsOnlyOnSphereAnswers(answers, answers[PlanIds(answers)[i] := v]);
  }

  /** The same for the questions of the plan. */
  lemma AnsweringKeepsEarlierEntries(answers: map<QuestionId, string>, i: nat, v: string)
    requires i < |Plan(answers)|
    ensures var after := answers[Plan(answers)[i].id := v];
            i < |Plan(after)| && Plan(after)[..i + 1] == Plan(answers)[..i + 1]
  {
    var after := answers[PlanIds(answers)[i] := v];
    AnsweringKeepsEarlierIds(answers, i, v);
    QuestionsPrefix(PlanIds(after), i + 1);
    QuestionsPrefix(PlanIds(answers), i + 1);
  }

  lemma QuestionsPrefix(ids: seq<QuestionId>, n: nat)
    requires n <= |ids|
    ensures Questions(ids)[..n] == Questions(ids[..n])
  {
  }

  lemma PrefixOfPrefix<T>(x: seq<T>, y: seq<T>, n: nat, m: nat)
    requires m <= n <= |x| && n <= |y| && x[..n] == y[..n]
    ensures x[..m] == y[..m]
  {
    assert x[..m] == x[..n][..m];
    assert y[..m] == y[..n][..m];
  }

  /** A non-empty answer never removes a position's chosen sphere, so the plan never shrinks. */
  lemma NonEmptyAnswerNeverShrinksPlan(answers: map<QuestionId, string>, k: QuestionId, v: string)
    requires v != ""
    ensures |PlanIds(answers)| <= |PlanIds(answers[k := v])|
  {
    var after := answers[k := v];
    SubsetCardinality(AnsweredPositions(answers, 6), AnsweredPositions(after, 6));
    PlanLength(answers);
    PlanLength(after);
  }

  /**
   * Extending the answers keeps every plan entry, in the same order,
   * provided no first sphere answer is added that overrides a different
   * second one already given.
   */
  lemma ExtensionKeepsEntries(a: map<QuestionId, string>, b: map<QuestionId, string>)
    requires forall k :: k in a ==> k in b && b[k] == a[k]
    requires forall pos: Position ::
               Lookup(a, SphereId(pos, 1)) == "" && Lookup(a, SphereId(pos, 2)) != "" ==>
                 Lookup(b, SphereId(pos, 1)) in {"", Lookup(a, SphereId(pos, 2))}
    ensures |PlanIds(a)| <= |PlanIds(b)|
    ensures forall id :: id in PlanIds(a) ==> id in PlanIds(b)
    ensures IsSubsequence(PlanIds(a), PlanIds(b))
  {
    forall pos: Position ensures Chosen(a, pos) != "" ==> Chosen(b, pos) == Chosen(a, pos) {
      ChosenIsFirstNonEmpty(a, pos);
      ChosenIsFirstNonEmpty(b, pos);
    }
    SubsetCardinality(AnsweredPositions(a, 6), AnsweredPositions(b, 6));
    PlanLength(a);
    PlanLength(b);
    forall id | id in PlanIds(a) ensures id in PlanIds(b) {
      PlanMembership(a, id);
      PlanMembership(b, id);
    }
    PlanInSkeletonOrder(a);
    PlanInSkeletonOrder(b);
    OrderedInclusionIsSubsequence(PlanIds(a), PlanIds(b));
  }

  /**
   * Without that proviso the plan is not monotone: a first sphere answer
   * that differs from the second replaces the pair already inserted.
   */
  lemma AddingFirstSphereAnswerCanDropEntries()
    ensures var a := map[SphereId(1, 2) := "matter"];
            var b := a[SphereId(1, 1) := "emotions"];
            PotId(1, 1, Matter) in PlanIds(a) && PotId(1, 1, Matter) !in PlanIds(b)
  {
    var a := map[SphereId(1, 2) := "matter"];
    var b := a[SphereId(1, 1) := "emotions"];
    assert Chosen(a, 1) == "matter";
    assert Chosen(b, 1) == "emotions";
    PlanMembership(a, PotId(1, 1, Matter));
    PlanMembership(b, PotId(1, 1, Matter));
  }

  /**
   * The client flow never meets that case. It answers questions in plan
   * order, so every answered question lies before the cursor. The entry at
   * the cursor is then a question not answered yet, and recording an answer
   * to it keeps every plan entry, in order: a second sphere question already answered
   * lies before the cursor, and so does the first one, which comes just
   * before it.
   */
  lemma AnsweringAtCursorKeepsEntries(answers: map<QuestionId, string>, i: nat, v: string)
    requires i < |PlanIds(answers)|
    requires forall k :: k in answers ==> k in PlanIds(answers)[..i]
    ensures PlanIds(answers)[i] !in answers
    ensures var after := answers[PlanIds(answers)[i] := v];
            && |PlanIds(answers)| <= |PlanIds(after)|
            && (forall id :: id in PlanIds(answers) ==> id in PlanIds(after))
            && IsSubsequence(PlanIds(answers), PlanIds(after))
  {
    var plan := PlanIds(answers);
    var id := plan[i];
    var after := answers[id := v];
    PlanDistinct(answers);
    forall j | 0 <= j < i ensures plan[..i][j] != id {
      assert plan[j] != plan[i];
    }
    assert id !in answers;
    forall pos: Position | Lookup(answers, SphereId(pos, 1)) == "" && Lookup(answers, SphereId(pos, 2)) != ""
      ensures Lookup(after, SphereId(pos, 1)) in {"", Lookup(answers, SphereId(pos, 2))}
    {
      PlanAtPosition(answers, pos);
      var st := BlockStart(answers, pos);
      var j :| 0 <= j < i && plan[..i][j] == SphereId(pos, 2);
      assert plan[j] == plan[st + 1];
      assert st < i;
      assert plan[st] != plan[i];
      assert Lookup(after, SphereId(pos, 1)) == "";
    }
    ExtensionKeepsEntries(answers, after);
  }

  /**
   * After the answer at the cursor is recorded and the cursor moves on by
   * one, every answered question still lies before the cursor.
   */
  lemma AnsweredStayBeforeCursor(answers: map<QuestionId, string>, i: nat, v: string)
    requires i < |PlanIds(answers)|
    requires forall k :: k in answers ==> k in PlanIds(answers)[..i]
    ensures var after := answers[PlanIds(answers)[i] := v];
            i < |PlanIds(after)| && forall k :: k in after ==> k in PlanIds(after)[..i + 1]
  {
    var before := PlanIds(answers);
    var after := answers[before[i] := v];
    AnsweringKeepsEarlierIds(answers, i, v);
    assert PlanIds(after)[..i + 1] == before[..i + 1];
    forall k | k in after ensures k in before[..i + 1] {
      if k != before[i] {
        var j :| 0 <= j < i && before[..i][j] == k;
        assert before[..i + 1][j] == k;
      } else {
        assert before[..i + 1][i] == k;
      }
    }
  }

  /** Whether no element occurs twice. */
  predicate Distinct<T(==)>(s: seq<T>) {
    forall i, j :: 0 <= i < j < |s| ==> s[i] != s[j]
  }

  lemma {:induction false} BlocksPositions(answers: map<QuestionId, string>, n: nat)
    requires n <= 6
    ensures forall id :: id in BlocksIds(answers, n) ==> !id.IntakeId? && id.pos <= n
  {
    if n > 0 {
      BlocksPositions(answers, n - 1);
    }
  }

  lemma {:induction false} BlocksDistinct(answers: map<QuestionId, string>, n: nat)
    requires n <= 6
    ensures Distinct(BlocksIds(answers, n))
  {
    if n > 0 {
      BlocksDistinct(answers, n - 1);
      BlocksPositions(answers, n - 1);
      BlockFacts(answers, n);
      DistinctConcat(BlocksIds(answers, n - 1), BlockIds(answers, n));
    }
  }

  lemma BlockFacts(answers: map<QuestionId, string>, pos: Position)
    ensures Distinct(BlockIds(answers, pos))
    ensures forall id :: id in BlockIds(answers, pos) ==> !id.IntakeId? && id.pos == pos
  {
  }

  lemma DistinctConcat<T>(a: seq<T>, b: seq<T>)
    requires Distinct(a) && Distinct(b)
    requires forall x :: x in a ==> x !in b
    ensures Distinct(a + b)
  {
    var all := a + b;
    forall i, j | 0 <= i < j < |all| ensures all[i] != all[j] {
      if i < |a| <= j {
        assert all[i] in a;
        assert all[j] == b[j - |a|];
      }
    }
  }

  /** No identifier occurs twice in the plan. */
  lemma PlanDistinct(answers: map<QuestionId, string>)
    ensures Distinct(PlanIds(answers))
  {
    BlocksDistinct(answers, 6);
    BlocksPositions(answers, 6);
    var blocks := BlocksIds(answers, 6);
    forall i, j | 0 <= i < j < |PlanIds(answers)| ensures PlanIds(answers)[i] != PlanIds(answers)[j] {
      if j >= 3 {
        assert PlanIds(answers)[j] == blocks[j - 3];
        if i >= 3 {
          assert PlanIds(answers)[i] == blocks[i - 3];
        }
      }
    }
  }

  /**
   * The index of the skeleton slot an identifier comes from: the intake
   * questions at 0..2, then four slots per position, its two sphere
   * questions and the two placeholders its potential pair replaces.
   */
  function SkeletonIndex(id: QuestionId): nat {
    match id
    case IntakeId(f) => (match f case NameField => 0 case RequestField => 1 case ContactField => 2)
    case SphereId(pos, n) => 4 * pos + n - 2
    case PotId(pos, n, _) => 4 * pos + n
  }

  /** Whether the identifiers come from strictly later skeleton slots as the sequence goes on. */
  predicate InSkeletonOrder(ids: seq<QuestionId>) {
    forall i, j :: 0 <= i < j < |ids| ==> SkeletonIndex(ids[i]) < SkeletonIndex(ids[j])
  }

  lemma InSkeletonOrderConcat(a: seq<QuestionId>, b: seq<QuestionId>)
    requires InSkeletonOrder(a) && InSkeletonOrder(b)
    requires forall x, y :: x in a && y in b ==> SkeletonIndex(x) < SkeletonIndex(y)
    ensures InSkeletonOrder(a + b)
  {
    var all := a + b;
    forall i, j | 0 <= i < j < |all| ensures SkeletonIndex(all[i]) < SkeletonIndex(all[j]) {
      if i < |a| <= j {
        assert all[i] in a;
        assert all[j] == b[j - |a|];
      }
    }
  }

  lemma {:induction false} BlocksInSkeletonOrder(answers: map<QuestionId, string>, n: nat)
    requires n <= 6
    ensures InSkeletonOrder(BlocksIds(answers, n))
    ensures forall id :: id in BlocksIds(answers, n) ==> 3 <= SkeletonIndex(id) < 4 * n + 3
  {
    if n > 0 {
      BlocksInSkeletonOrder(answers, n - 1);
      BlockInSkeletonOrder(answers, n);
      InSkeletonOrderConcat(BlocksIds(answers, n - 1), BlockIds(answers, n));
    }
  }

  /** A position's block takes the skeleton slots 4 * pos - 1 .. 4 * pos + 2, in order. */
  lemma BlockInSkeletonOrder(answers: map<QuestionId, string>, pos: Position)
    ensures InSkeletonOrder(BlockIds(answers, pos))
    ensures forall id :: id in BlockIds(answers, pos) ==> 4 * pos - 1 <= SkeletonIndex(id) < 4 * pos + 3
  {
    var pair := PotPairIds(answers, pos);
    assert |pair| == 0 || |pair| == 2;
    assert forall id :: id in pair ==> id.PotId? && id.pos == pos;
  }

  /**
   * The live plan keeps the skeleton's order: `dynamic_question_plan`
   * walks the skeleton once and emits each slot's question in place.
   */
  lemma PlanInSkeletonOrder(answers: map<QuestionId, string>)
    ensures InSkeletonOrder(PlanIds(answers))
  {
    BlocksInSkeletonOrder(answers, 6);
    InSkeletonOrderConcat(IntakeIds, BlocksIds(answers, 6));
  }

  /** Whether `s` is left once some entries of `t` are deleted and the rest keep their order. */
  predicate IsSubsequence(s: seq<QuestionId>, t: seq<QuestionId>)
    decreases |t|
  {
    if s == [] then true
    else if t == [] then false
    else if s[0] == t[0] then IsSubsequence(s[1..], t[1..])
    else IsSubsequence(s, t[1..])
  }

  /**
   * Two sequences in skeleton order, the first holding only entries of the
   * second: the first is a subsequence of the second, so whatever entries
   * two plans share, they share in the same order.
   */
  lemma {:induction false} OrderedInclusionIsSubsequence(s: seq<QuestionId>, t: seq<QuestionId>)
    requires InSkeletonOrder(s) && InSkeletonOrder(t)
    requires forall id :: id in s ==> id in t
    ensures IsSubsequence(s, t)
    decreases |t|
  {
    if s != [] {
      assert s[0] in t;
      if s[0] == t[0] {
        forall id | id in s[1..] ensures id in t[1..] {
          var j :| 0 <= j < |s| - 1 && s[1..][j] == id;
          assert SkeletonIndex(s[0]) < SkeletonIndex(s[j + 1]);
          InTail(t, id);
        }
        OrderedInclusionIsSubsequence(s[1..], t[1..]);
      } else {
        var m :| 0 <= m < |t| && t[m] == s[0];
        forall id | id in s ensures id in t[1..] {
          var j :| 0 <= j < |s| && s[j] == id;
          if j > 0 {
            assert SkeletonIndex(s[0]) < SkeletonIndex(s[j]);
            assert SkeletonIndex(t[0]) < SkeletonIndex(t[m]);
          }
          InTail(t, id);
        }
        OrderedInclusionIsSubsequence(s, t[1..]);
      }
    }
  }

  lemma InTail<T>(t: seq<T>, x: T)
    requires x in t && x != t[0]
    ensures x in t[1..]
  {
    var k :| 0 <= k < |t| && t[k] == x;
    assert t[1..][k - 1] == x;
  }

  lemma DisjointUnionCardinality<T>(a: set<T>, b: set<T>)
    requires a !! b
    ensures |a + b| == |a| + |b|
  {
  }

  lemma {:induction false} SubsetCardinality<T>(a: set<T>, b: set<T>)
    requires a <= b
    ensures |a| <= |b|
  {
    if a != {} {
      var x :| x in a;
      SubsetCardinality(a - {x}, b - {x});
    }
  }

  lemma ConcatAssoc<T>(a: seq<T>, b: seq<T>, c: seq<T>)
    ensures (a + b) + c == a + (b + c)
  {
  }
}
