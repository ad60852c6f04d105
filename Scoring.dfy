/**
 * The scorer: every stored answer to a potential question of the live plan
 * whose value names a potential adds one point to that potential globally,
 * in the question's position and in the question's column.
 */
module Scoring {
  import opened Wrappers
  import opened Catalog
  import opened Planner

  /** One count per potential. */
  type Table = map<Potential, nat>

  /** The three score tables `score_all` returns, besides its always-empty evidence map. */
  datatype Scores = Scores(
    global: Table,
    byColumn: map<Column, Table>,
    byPosition: map<Position, Table>)

  /** A cell of the score tables. */
  datatype Cell =
    | Global(pot: Potential)
    | AtPosition(pos: Position, pot: Potential)
    | InColumn(col: Column, pot: Potential)

  /**
   * The potential a stored answer scores for, if any: the answered question
   * must be a potential question of the plan rebuilt from the same answers
   * (stated through `InPlanByDesign`, which `PlanMembership` shows is plan
   * membership), and the answer must name a potential.
   */
  function Scored(answers: map<QuestionId, string>, k: QuestionId): Option<Potential>
    requires k in answers
  {
    if k.Stage() == PotentialStage && InPlanByDesign(answers, k) then PotentialNamed(answers[k])
    else None
  }

  /** Whether the answer to `k` adds a point to a cell. */
  predicate Falls(answers: map<QuestionId, string>, k: QuestionId, cell: Cell)
    requires k in answers
  {
    var hit := Scored(answers, k);
    && hit == Some(cell.pot)
    && match cell
       case Global(_) => true
       case AtPosition(pos, _) => k.Position() == pos
       case InColumn(col, _) => k.Column() == col
  }

  /** The answers among `keys` that add a point to a cell. */
  function Hits(answers: map<QuestionId, string>, keys: set<QuestionId>, cell: Cell): set<QuestionId>
    requires keys <= answers.Keys
  {
    set k | k in keys && Falls(answers, k, cell)
  }

  /** The score of a cell once the answers among `keys` are counted. */
  function Tally(answers: map<QuestionId, string>, keys: set<QuestionId>, cell: Cell): nat
    requires keys <= answers.Keys
  {
    |Hits(answers, keys, cell)|
  }

  /** The global table holds, for every potential, its tally over `keys`. */
  ghost predicate GlobalMatches(global: Table, answers: map<QuestionId, string>, keys: set<QuestionId>)
    requires keys <= answers.Keys
  {
    forall p: Potential :: p in global && global[p] == Tally(answers, keys, Global(p))
  }

  /** The position tables hold, for every position and potential, its tally over `keys`. */
  ghost predicate PositionsMatch(byPosition: map<Position, Table>, answers: map<QuestionId, string>, keys: set<QuestionId>)
    requires keys <= answers.Keys
  {
    forall i: Position :: i in byPosition && forall p: Potential ::
      p in byPosition[i] && byPosition[i][p] == Tally(answers, keys, AtPosition(i, p))
  }

  /** The column tables hold, for every column and potential, its tally over `keys`. */
  ghost predicate ColumnsMatch(byColumn: map<Column, Table>, answers: map<QuestionId, string>, keys: set<QuestionId>)
    requires keys <= answers.Keys
  {
    forall c: Column :: c in byColumn && forall p: Potential ::
      p in byColumn[c] && byColumn[c][p] == Tally(answers, keys, InColumn(c, p))
  }

  /** The scores of a set of answers: every cell holds the number of answers that fall in it. */
  ghost predicate ScoresOf(s: Scores, answers: map<QuestionId, string>) {
    && GlobalMatches(s.global, answers, answers.Keys)
    && PositionsMatch(s.byPosition, answers, answers.Keys)
    && ColumnsMatch(s.byColumn, answers, answers.Keys)
  }

  /** A table with every potential at zero. */
  function ZeroTable(): Table {
    map[Amber := 0, Shungite := 0, Citrine := 0, Emerald := 0, Ruby := 0, Garnet := 0,
        Sapphire := 0, Heliodor := 0, Amethyst := 0]
  }

  /** The position tables before any answer is counted. */
  function ZeroPositions(): map<Position, Table> {
    map[1 := ZeroTable(), 2 := ZeroTable(), 3 := ZeroTable(), 4 := ZeroTable(), 5 := ZeroTable(), 6 := ZeroTable()]
  }

  /** The column tables before any answer is counted. */
  function ZeroColumns(): map<Column, Table> {
    map[Perception := ZeroTable(), Motivation := ZeroTable(), Instrument := ZeroTable()]
  }

  /** Before any answer is counted, every table holds every cell at zero. */
  lemma ZeroTablesMatch(answers: map<QuestionId, string>)
    ensures GlobalMatches(ZeroTable(), answers, {})
    ensures PositionsMatch(ZeroPositions(), answers, {})
    ensures ColumnsMatch(ZeroColumns(), answers, {})
  {
    ZeroTableIsZero();
    TalliesStartAtZero(answers);
    forall i: Position ensures i in ZeroPositions() && ZeroPositions()[i] == ZeroTable() {
    }
    forall c: Column ensures c in ZeroColumns() && ZeroColumns()[c] == ZeroTable() {
      match c
      case Perception =>
      case Motivation =>
      case Instrument =>
    }
  }

  lemma ZeroTableIsZero()
    ensures forall p: Potential :: p in ZeroTable() && ZeroTable()[p] == 0
  {
    forall p: Potential ensures p in ZeroTable() && ZeroTable()[p] == 0 {
      match p
      case Amber =>
      case Shungite =>
      case Citrine =>
      case Emerald =>
      case Ruby =>
      case Garnet =>
      case Sapphire =>
      case Heliodor =>
      case Amethyst =>
    }
  }

  /** One more point for a potential. */
  function Bump(t: Table, p: Potential): (r: Table)
    requires p in t
    ensures r.Keys == t.Keys && r[p] == t[p] + 1
    ensures forall x :: x in t && x != p ==> r[x] == t[x]
  {
    t[p := t[p] + 1]
  }

  /** `idx`: each plan question under its identifier. */
  method IndexById(plan: seq<Question>) returns (idx: map<QuestionId, Question>)
    ensures forall k :: k in idx <==> exists i :: 0 <= i < |plan| && plan[i].id == k
    ensures forall k :: k in idx ==> idx[k] in plan && idx[k].id == k
  {
    idx := map[];
    for i := 0 to |plan|
      invariant forall k :: k in idx <==> exists j :: 0 <= j < i && plan[j].id == k
      invariant forall k :: k in idx ==> idx[k] in plan[..i] && idx[k].id == k
    {
      idx := idx[plan[i].id := plan[i]];
    }
  }

  /** The plan rebuilt from the answers, indexed by identifier. */
  method PlanIndex(answers: map<QuestionId, string>) returns (idx: map<QuestionId, Question>)
    ensures forall k :: k in idx <==> k in PlanIds(answers)
    ensures forall k :: k in idx ==> idx[k] == QuestionOf(k)
  {
    var plan := DynamicQuestionPlan(answers);
    idx := IndexById(plan);
    IndexIsQuestionOf(answers, plan, idx);
  }

  /** `score_all`. */
  method ScoreAll(answers: map<QuestionId, string>) returns (s: Scores)
    ensures ScoresOf(s, answers)
  {
    var global: Table, byPosition: map<Position, Table>, byColumn: map<Column, Table>
      := ZeroTable(), ZeroPositions(), ZeroColumns();
    ZeroTablesMatch(answers);
    var idx := PlanIndex(answers);
    var remaining := answers.Keys;
    ghost var done: set<QuestionId> := {};
    while remaining != {}
      invariant remaining + done == answers.Keys && remaining * done == {}
      invariant GlobalMatches(global, answers, done)
      invariant PositionsMatch(byPosition, answers, done)
      invariant ColumnsMatch(byColumn, answers, done)
      decreases |remaining|
    {
      var k :| k in remaining;
      global, byColumn, byPosition := CountAnswer(global, byColumn, byPosition, idx, answers, k, done);
      remaining := remaining - {k};
      done := done + {k};
    }
    s := Scores(global, byColumn, byPosition);
  }

  /**
   * The body of the loop of `score_all` for one stored answer: skip it unless
   * its identifier is in the index, its question is a potential question and
   * its value names a potential; otherwise add one to that potential's cell
   * in the global table, in the question's position and in its column.
   */
  method CountAnswer(global: Table, byColumn: map<Column, Table>, byPosition: map<Position, Table>,
                     idx: map<QuestionId, Question>, answers: map<QuestionId, string>, k: QuestionId,
                     ghost done: set<QuestionId>)
    returns (global': Table, byColumn': map<Column, Table>, byPosition': map<Position, Table>)
    requires forall k :: k in idx <==> k in PlanIds(answers)
    requires forall k :: k in idx ==> idx[k] == QuestionOf(k)
    requires done <= answers.Keys && k in answers && k !in done
    requires GlobalMatches(global, answers, done)
    requires PositionsMatch(byPosition, answers, done)
    requires ColumnsMatch(byColumn, answers, done)
    ensures GlobalMatches(global', answers, done + {k})
    ensures PositionsMatch(byPosition', answers, done + {k})
    ensures ColumnsMatch(byColumn', answers, done + {k})
  {
    global', byColumn', byPosition' := global, byColumn, byPosition;
    IndexedScore(answers, idx, k);
    if k !in idx || idx[k].stage != PotentialStage || PotentialNamed(answers[k]).None? {
      MissStep(global, byColumn, byPosition, answers, done, k);
      return;
    }
    var q := idx[k];
    var pot := PotentialNamed(answers[k]).value;
    GlobalHit(global, answers, done, k, pot);
    global' := Bump(global, pot);
    HitPosition(answers, k);
    if 1 <= q.position <= 6 {
      var pos: Position := q.position;
      PositionHit(byPosition, answers, done, k, pot, pos);
      byPosition' := byPosition[pos := Bump(byPosition[pos], pot)];
    }
    if q.column in Columns {
      ColumnHit(byColumn, answers, done, k, pot);
      byColumn' := byColumn[q.column := Bump(byColumn[q.column], pot)];
    }
  }

  /** An answer that scores for nothing leaves every table matching. */
  lemma MissStep(global: Table, byColumn: map<Column, Table>, byPosition: map<Position, Table>,
                 answers: map<QuestionId, string>, done: set<QuestionId>, k: QuestionId)
    requires done <= answers.Keys && k in answers && k !in done && Scored(answers, k).None?
    requires GlobalMatches(global, answers, done)
    requires PositionsMatch(byPosition, answers, done)
    requires ColumnsMatch(byColumn, answers, done)
    ensures GlobalMatches(global, answers, done + {k})
    ensures PositionsMatch(byPosition, answers, done + {k})
    ensures ColumnsMatch(byColumn, answers, done + {k})
  {
    TallyStep(answers, done, k);
  }

  /** An answer that scores for `pot` adds one to the global cell of `pot`. */
  lemma GlobalHit(global: Table, answers: map<QuestionId, string>, done: set<QuestionId>, k: QuestionId,
                  pot: Potential)
    requires done <= answers.Keys && k in answers && k !in done && Scored(answers, k) == Some(pot)
    requires GlobalMatches(global, answers, done)
    ensures GlobalMatches(Bump(global, pot), answers, done + {k})
  {
    TallyStep(answers, done, k);
  }

  /** An answer that scores for `pot` adds one to the cell of `pot` at its position. */
  lemma PositionHit(byPosition: map<Position, Table>, answers: map<QuestionId, string>, done: set<QuestionId>,
                    k: QuestionId, pot: Potential, pos: Position)
    requires done <= answers.Keys && k in answers && k !in done && Scored(answers, k) == Some(pot)
    requires pos == k.Position()
    requires PositionsMatch(byPosition, answers, done)
    ensures PositionsMatch(byPosition[pos := Bump(byPosition[pos], pot)], answers, done + {k})
  {
    TallyStep(answers, done, k);
  }

  /** An answer that scores for `pot` adds one to the cell of `pot` in its column. */
  lemma ColumnHit(byColumn: map<Column, Table>, answers: map<QuestionId, string>, done: set<QuestionId>,
                  k: QuestionId, pot: Potential)
    requires done <= answers.Keys && k in answers && k !in done && Scored(answers, k) == Some(pot)
    requires ColumnsMatch(byColumn, answers, done)
    ensures ColumnsMatch(byColumn[k.Column() := Bump(byColumn[k.Column()], pot)], answers, done + {k})
  {
    TallyStep(answers, done, k);
  }

  /** A scoring answer belongs to a potential question at one of the six positions. */
  lemma HitPosition(answers: map<QuestionId, string>, k: QuestionId)
    requires k in answers && Scored(answers, k).Some?
    ensures 1 <= k.Position() <= 6
  {
  }

  /** What the loop of `score_all` reads from the index agrees with `Scored`. */
  lemma IndexedScore(answers: map<QuestionId, string>, idx: map<QuestionId, Question>, k: QuestionId)
    requires k in answers
    requires forall k :: k in idx <==> k in PlanIds(answers)
    requires forall k :: k in idx ==> idx[k] == QuestionOf(k)
    ensures Scored(answers, k)
         == if k in idx && idx[k].stage == PotentialStage then PotentialNamed(answers[k]) else None
    ensures k in idx ==> idx[k].position == k.Position() && idx[k].column == k.Column()
  {
    PlanMembership(answers, k);
  }

  /** The index built from the plan holds exactly the plan's identifiers, each with its question. */
  lemma IndexIsQuestionOf(answers: map<QuestionId, string>, plan: seq<Question>, idx: map<QuestionId, Question>)
    requires plan == Plan(answers)
    requires forall k :: k in idx <==> exists i :: 0 <= i < |plan| && plan[i].id == k
    requires forall k :: k in idx ==> idx[k] in plan && idx[k].id == k
    ensures forall k :: k in idx <==> k in PlanIds(answers)
    ensures forall k :: k in idx ==> idx[k] == QuestionOf(k)
  {
    var ids := PlanIds(answers);
    forall k ensures k in idx <==> k in ids {
      if k in ids {
        var i :| 0 <= i < |ids| && ids[i] == k;
        assert plan[i].id == k;
      }
    }
  }

  lemma TalliesStartAtZero(answers: map<QuestionId, string>)
    ensures forall cell :: Tally(answers, {}, cell) == 0
  {
    forall cell ensures Tally(answers, {}, cell) == 0 {
      assert Hits(answers, {}, cell) == {};
    }
  }

  /** Counting one more answer adds one to exactly the cells it falls in. */
  lemma TallyStep(answers: map<QuestionId, string>, keys: set<QuestionId>, k: QuestionId)
    requires keys <= answers.Keys && k in answers && k !in keys
    ensures forall cell :: Tally(answers, keys + {k}, cell)
                        == Tally(answers, keys, cell) + if Falls(answers, k, cell) then 1 else 0
  {
    forall cell ensures Tally(answers, keys + {k}, cell)
                     == Tally(answers, keys, cell) + if Falls(answers, k, cell) then 1 else 0
    {
      if Falls(answers, k, cell) {
        assert Hits(answers, keys + {k}, cell) == Hits(answers, keys, cell) + {k};
      } else {
        assert Hits(answers, keys + {k}, cell) == Hits(answers, keys, cell);
      }
    }
  }

  /**
   * An answer scores exactly when its identifier is in the plan rebuilt from
   * the same answers, its question is a potential question and its value
   * names a potential; equivalently, when it answers one of the two
   * questions of the sphere chosen at its position. It scores for the
   * potential its value names.
   */
  lemma ScoredCharacterization(answers: map<QuestionId, string>, k: QuestionId)
    requires k in answers
    ensures Scored(answers, k).Some? <==>
              k in PlanIds(answers) && QuestionOf(k).stage == PotentialStage && PotentialNamed(answers[k]).Some?
    ensures Scored(answers, k).Some? <==>
              && k.PotId?
              && Chosen(answers, k.pos) != ""
              && k.sphere == ResolvedSphere(Chosen(answers, k.pos))
              && PotentialNamed(answers[k]).Some?
    ensures Scored(answers, k).Some? ==> Scored(answers, k).value.Name() == answers[k]
  {
    PlanMembership(answers, k);
  }

  /** The answers that score at a position. */
  function ScoredAt(answers: map<QuestionId, string>, pos: nat): set<QuestionId> {
    set k | k in answers && Scored(answers, k).Some? && k.Position() == pos
  }

  /** At most the two questions of the chosen sphere score at a position. */
  lemma {:induction false} ScoredAtMostTwoAt(answers: map<QuestionId, string>, pos: Position)
    ensures |ScoredAt(answers, pos)| <= 2
    ensures Chosen(answers, pos) == "" ==> ScoredAt(answers, pos) == {}
  {
    var s := ResolvedSphere(Chosen(answers, pos));
    var pair := {PotId(pos, 1, s), PotId(pos, 2, s)};
    forall k | k in ScoredAt(answers, pos) ensures k in pair {
      ScoredCharacterization(answers, k);
    }
    SubsetCardinality(ScoredAt(answers, pos), pair);
  }

  /** Sum over positions 1..n of the tally of a potential at each position. */
  function PositionSum(answers: map<QuestionId, string>, p: Potential, n: nat): nat
    requires n <= 6
  {
    if n == 0 then 0 else PositionSum(answers, p, n - 1) + Tally(answers, answers.Keys, AtPosition(n, p))
  }

  /** Every scoring answer sits at one of the positions 1..6. */
  lemma NothingScoresBeforePositionOne(answers: map<QuestionId, string>)
    ensures ScoredUpTo(answers, 0) == {}
  {
    forall k | k in ScoredUpTo(answers, 0) ensures false {
      ScoredCharacterization(answers, k);
    }
  }

  /** The answers scoring for `p` at positions 1..n. */
  function HitsUpTo(answers: map<QuestionId, string>, p: Potential, n: nat): set<QuestionId> {
    set k | k in answers && Scored(answers, k) == Some(p) && k.Position() <= n
  }

  lemma {:induction false} HitsUpToCount(answers: map<QuestionId, string>, p: Potential, n: nat)
    requires n <= 6
    ensures |HitsUpTo(answers, p, n)| == PositionSum(answers, p, n)
  {
    if n == 0 {
      NothingScoresBeforePositionOne(answers);
      assert HitsUpTo(answers, p, 0) <= ScoredUpTo(answers, 0);
    } else {
      HitsUpToCount(answers, p, n - 1);
      HitsUpToStep(answers, p, n);
      DisjointUnionCardinality(HitsUpTo(answers, p, n - 1), Hits(answers, answers.Keys, AtPosition(n, p)));
    }
  }

  lemma HitsUpToStep(answers: map<QuestionId, string>, p: Potential, n: Position)
    ensures HitsUpTo(answers, p, n) == HitsUpTo(answers, p, n - 1) + Hits(answers, answers.Keys, AtPosition(n, p))
    ensures HitsUpTo(answers, p, n - 1) !! Hits(answers, answers.Keys, AtPosition(n, p))
  {
  }

  /** `pot_scores[p]` is the sum of `pos_scores[i][p]` over the six positions. */
  lemma GlobalIsSumOverPositions(answers: map<QuestionId, string>, p: Potential)
    ensures Tally(answers, answers.Keys, Global(p)) == PositionSum(answers, p, 6)
  {
    HitsUpToCount(answers, p, 6);
    forall k | k in Hits(answers, answers.Keys, Global(p)) ensures k in HitsUpTo(answers, p, 6) {
      ScoredCharacterization(answers, k);
    }
    assert HitsUpTo(answers, p, 6) == Hits(answers, answers.Keys, Global(p));
  }

  /** `col_scores[c][p]` is the sum of `pos_scores[i][p]` and `pos_scores[i + 3][p]` for the column's positions. */
  lemma ColumnIsTwoPositions(answers: map<QuestionId, string>, i: Position, p: Potential)
    requires i <= 3
    ensures Tally(answers, answers.Keys, InColumn(PosColumn(i), p))
         == Tally(answers, answers.Keys, AtPosition(i, p)) + Tally(answers, answers.Keys, AtPosition(i + 3, p))
  {
    var col, keys := PosColumn(i), answers.Keys;
    forall k | k in Hits(answers, keys, InColumn(col, p))
      ensures k in Hits(answers, keys, AtPosition(i, p)) + Hits(answers, keys, AtPosition(i + 3, p))
    {
      ScoredCharacterization(answers, k);
    }
    assert Hits(answers, keys, InColumn(col, p))
        == Hits(answers, keys, AtPosition(i, p)) + Hits(answers, keys, AtPosition(i + 3, p));
    assert Hits(answers, keys, AtPosition(i, p)) * Hits(answers, keys, AtPosition(i + 3, p)) == {};
  }

  /** `pot_scores[p]` is also the sum of `col_scores[c][p]` over the three columns. */
  lemma GlobalIsSumOverColumns(answers: map<QuestionId, string>, p: Potential)
    ensures Tally(answers, answers.Keys, Global(p))
         == Tally(answers, answers.Keys, InColumn(Perception, p))
          + Tally(answers, answers.Keys, InColumn(Motivation, p))
          + Tally(answers, answers.Keys, InColumn(Instrument, p))
  {
    GlobalIsSumOverPositions(answers, p);
    assert PositionSum(answers, p, 1) == Tally(answers, answers.Keys, AtPosition(1, p));
    assert PositionSum(answers, p, 2) == PositionSum(answers, p, 1) + Tally(answers, answers.Keys, AtPosition(2, p));
    assert PositionSum(answers, p, 3) == PositionSum(answers, p, 2) + Tally(answers, answers.Keys, AtPosition(3, p));
    assert PositionSum(answers, p, 4) == PositionSum(answers, p, 3) + Tally(answers, answers.Keys, AtPosition(4, p));
    assert PositionSum(answers, p, 5) == PositionSum(answers, p, 4) + Tally(answers, answers.Keys, AtPosition(5, p));
    assert PositionSum(answers, p, 6) == PositionSum(answers, p, 5) + Tally(answers, answers.Keys, AtPosition(6, p));
    assert PositionSum(answers, p, 6)
        == Tally(answers, answers.Keys, AtPosition(1, p)) + Tally(answers, answers.Keys, AtPosition(2, p))
         + Tally(answers, answers.Keys, AtPosition(3, p)) + Tally(answers, answers.Keys, AtPosition(4, p))
         + Tally(answers, answers.Keys, AtPosition(5, p)) + Tally(answers, answers.Keys, AtPosition(6, p));
    assert PosColumn(1) == Perception && PosColumn(2) == Motivation && PosColumn(3) == Instrument;
    ColumnIsTwoPositions(answers, 1, p);
    ColumnIsTwoPositions(answers, 2, p);
    ColumnIsTwoPositions(answers, 3, p);
  }

  /** A position where no sphere is chosen scores nothing for any potential. */
  lemma UnchosenPositionScoresZero(answers: map<QuestionId, string>, pos: Position, p: Potential)
    requires Chosen(answers, pos) == ""
    ensures Tally(answers, answers.Keys, AtPosition(pos, p)) == 0
  {
    ScoredAtMostTwoAt(answers, pos);
    assert Hits(answers, answers.Keys, AtPosition(pos, p)) <= ScoredAt(answers, pos);
  }

  /** Sum of the tallies at a position over a list of potentials. */
  function PositionTotal(answers: map<QuestionId, string>, pos: Position, ps: seq<Potential>): nat {
    if ps == [] then 0
    else PositionTotal(answers, pos, ps[..|ps| - 1]) + Tally(answers, answers.Keys, AtPosition(pos, ps[|ps| - 1]))
  }

  /** The answers scoring at a position for one of the listed potentials. */
  function ScoredAtFor(answers: map<QuestionId, string>, pos: Position, ps: seq<Potential>): set<QuestionId> {
    set k | k in answers && Scored(answers, k).Some? && Scored(answers, k).value in ps && k.Position() == pos
  }

  lemma {:induction false} PositionTotalCounts(answers: map<QuestionId, string>, pos: Position, ps: seq<Potential>)
    requires Distinct(ps)
    ensures PositionTotal(answers, pos, ps) == |ScoredAtFor(answers, pos, ps)|
  {
    if ps == [] {
      assert ScoredAtFor(answers, pos, ps) == {};
    } else {
      var init, last := ps[..|ps| - 1], ps[|ps| - 1];
      assert Distinct(init);
      PositionTotalCounts(answers, pos, init);
      ScoredAtForStep(answers, pos, ps);
      DisjointUnionCardinality(ScoredAtFor(answers, pos, init), Hits(answers, answers.Keys, AtPosition(pos, last)));
    }
  }

  lemma ScoredAtForStep(answers: map<QuestionId, string>, pos: Position, ps: seq<Potential>)
    requires ps != [] && Distinct(ps)
    ensures var init, last := ps[..|ps| - 1], ps[|ps| - 1];
            && ScoredAtFor(answers, pos, ps) == ScoredAtFor(answers, pos, init) + Hits(answers, answers.Keys, AtPosition(pos, last))
            && ScoredAtFor(answers, pos, init) !! Hits(answers, answers.Keys, AtPosition(pos, last))
  {
    var init, last := ps[..|ps| - 1], ps[|ps| - 1];
    assert last !in init;
    assert ps == init + [last];
  }

  /** Every position contributes at most two points in all: one per question of its pair. */
  lemma PositionTotalAtMostTwo(answers: map<QuestionId, string>, pos: Position)
    ensures PositionTotal(answers, pos, Pots) <= 2
  {
    PositionTotalCounts(answers, pos, Pots);
    ScoredAtMostTwoAt(answers, pos);
    forall k | k in ScoredAtFor(answers, pos, Pots) ensures k in ScoredAt(answers, pos) {
    }
    SubsetCardinality(ScoredAtFor(answers, pos, Pots), ScoredAt(answers, pos));
  }

  /** Sum of the global tallies over a list of potentials. */
  function GlobalTotal(answers: map<QuestionId, string>, ps: seq<Potential>): nat {
    if ps == [] then 0
    else GlobalTotal(answers, ps[..|ps| - 1]) + Tally(answers, answers.Keys, Global(ps[|ps| - 1]))
  }

  /** The answers scoring for one of the listed potentials. */
  function ScoredFor(answers: map<QuestionId, string>, ps: seq<Potential>): set<QuestionId> {
    set k | k in answers && Scored(answers, k).Some? && Scored(answers, k).value in ps
  }

  lemma {:induction false} GlobalTotalCounts(answers: map<QuestionId, string>, ps: seq<Potential>)
    requires Distinct(ps)
    ensures GlobalTotal(answers, ps) == |ScoredFor(answers, ps)|
  {
    if ps == [] {
      assert ScoredFor(answers, ps) == {};
    } else {
      var init, last := ps[..|ps| - 1], ps[|ps| - 1];
      assert Distinct(init);
      GlobalTotalCounts(answers, init);
      ScoredForStep(answers, ps);
      DisjointUnionCardinality(ScoredFor(answers, init), Hits(answers, answers.Keys, Global(last)));
    }
  }

  lemma ScoredForStep(answers: map<QuestionId, string>, ps: seq<Potential>)
    requires ps != [] && Distinct(ps)
    ensures var init, last := ps[..|ps| - 1], ps[|ps| - 1];
            && ScoredFor(answers, ps) == ScoredFor(answers, init) + Hits(answers, answers.Keys, Global(last))
            && ScoredFor(answers, init) !! Hits(answers, answers.Keys, Global(last))
  {
    var init, last := ps[..|ps| - 1], ps[|ps| - 1];
    assert last !in init;
    assert ps == init + [last];
  }

  /** The answers scoring at positions 1..n. */
  function ScoredUpTo(answers: map<QuestionId, string>, n: nat): set<QuestionId> {
    set k | k in answers && Scored(answers, k).Some? && k.Position() <= n
  }

  lemma {:induction false} ScoredUpToBound(answers: map<QuestionId, string>, n: nat)
    requires n <= 6
    ensures |ScoredUpTo(answers, n)| <= 2 * n
  {
    if n == 0 {
      NothingScoresBeforePositionOne(answers);
    } else {
      ScoredUpToBound(answers, n - 1);
      ScoredAtMostTwoAt(answers, n);
      ScoredUpToStep(answers, n);
      DisjointUnionCardinality(ScoredUpTo(answers, n - 1), ScoredAt(answers, n));
    }
  }

  lemma ScoredUpToStep(answers: map<QuestionId, string>, n: Position)
    ensures ScoredUpTo(answers, n) == ScoredUpTo(answers, n - 1) + ScoredAt(answers, n)
    ensures ScoredUpTo(answers, n - 1) !! ScoredAt(answers, n)
  {
  }

  /** All nine global scores add up to at most 12: two questions at each of six positions. */
  lemma GrandTotalAtMostTwelve(answers: map<QuestionId, string>)
    ensures GlobalTotal(answers, Pots) <= 12
  {
    GlobalTotalCounts(answers, Pots);
    ScoredUpToBound(answers, 6);
    forall k | k in ScoredFor(answers, Pots) ensures k in ScoredUpTo(answers, 6) {
      ScoredCharacterization(answers, k);
    }
    SubsetCardinality(ScoredFor(answers, Pots), ScoredUpTo(answers, 6));
  }

  /**
   * Choosing emotions first at position 3 and then Ruby in its first
   * question scores one point for Ruby globally, at position 3 and in the
   * instrument column, and nothing in any other cell of the three tables.
   */
  lemma RubyAtPositionThree()
    ensures var answers := map[SphereId(3, 1) := "emotions", PotId(3, 1, Emotions) := "Рубин"];
            && Tally(answers, answers.Keys, Global(Ruby)) == 1
            && Tally(answers, answers.Keys, AtPosition(3, Ruby)) == 1
            && Tally(answers, answers.Keys, InColumn(Instrument, Ruby)) == 1
            && (forall p: Potential :: p != Ruby ==> Tally(answers, answers.Keys, Global(p)) == 0)
            && (forall i: Position, p: Potential :: i != 3 || p != Ruby ==> Tally(answers, answers.Keys, AtPosition(i, p)) == 0)
            && (forall c: Column, p: Potential :: c != Instrument || p != Ruby ==> Tally(answers, answers.Keys, InColumn(c, p)) == 0)
  {
    var answers := map[SphereId(3, 1) := "emotions", PotId(3, 1, Emotions) := "Рубин"];
    var k := PotId(3, 1, Emotions);
    PotentialNameRoundTrip(Ruby);
    assert Chosen(answers, 3) == "emotions";
    assert Scored(answers, SphereId(3, 1)).None?;
    assert Scored(answers, k) == Some(Ruby);
    assert Hits(answers, answers.Keys, Global(Ruby)) == {k};
    assert Hits(answers, answers.Keys, AtPosition(3, Ruby)) == {k};
    assert Hits(answers, answers.Keys, InColumn(Instrument, Ruby)) == {k};
    forall p: Potential | p != Ruby ensures Tally(answers, answers.Keys, Global(p)) == 0 {
      assert Hits(answers, answers.Keys, Global(p)) == {};
    }
    forall i: Position, p: Potential | i != 3 || p != Ruby ensures Tally(answers, answers.Keys, AtPosition(i, p)) == 0 {
      assert Hits(answers, answers.Keys, AtPosition(i, p)) == {};
    }
    forall c: Column, p: Potential | c != Instrument || p != Ruby ensures Tally(answers, answers.Keys, InColumn(c, p)) == 0 {
      assert Hits(answers, answers.Keys, InColumn(c, p)) == {};
    }
  }

  /**
   * An answer left over from a sphere that is no longer chosen does not
   * score: Citrine was picked for the matter pair of position 1, then a
   * first sphere answer of emotions replaced that pair.
   */
  lemma StaleAnswerIsIgnored()
    ensures var answers := map[SphereId(1, 2) := "matter", PotId(1, 1, Matter) := "Цитрин", SphereId(1, 1) := "emotions"];
            forall p: Potential :: Tally(answers, answers.Keys, Global(p)) == 0
  {
    var answers := map[SphereId(1, 2) := "matter", PotId(1, 1, Matter) := "Цитрин", SphereId(1, 1) := "emotions"];
    assert Chosen(answers, 1) == "emotions";
    forall p: Potential ensures Tally(answers, answers.Keys, Global(p)) == 0 {
      assert Hits(answers, answers.Keys, Global(p)) == {};
    }
  }
}
