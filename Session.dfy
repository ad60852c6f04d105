/**
 * The respondent's session: the answer checks of the "Далее" button, the
 * name/request/contact header, the saved payload, and the session state
 * (answers, event log, cursor) that the client flow updates in place.
 */
module Sessions {
  import opened Catalog
  import opened Planner
  import opened Scoring
  import opened Ranking

  // ---------------------------------------------------------------------
  // Text answers: Python's str.strip()
  // ---------------------------------------------------------------------

  /** The characters Python's `str.isspace` accepts, which `str.strip()` removes from both ends. */
  const Whitespace: set<char> := {' ', '\t', '\n', '\r', '\U{000B}', '\U{000C}', '\U{001C}', '\U{001D}', '\U{001E}', '\U{001F}',
          '\U{0085}', '\U{00A0}', '\U{1680}', '\U{2000}', '\U{2001}', '\U{2002}', '\U{2003}', '\U{2004}',
          '\U{2005}', '\U{2006}', '\U{2007}', '\U{2008}', '\U{2009}', '\U{200A}', '\U{2028}', '\U{2029}',
          '\U{202F}', '\U{205F}', '\U{3000}'}

  predicate IsSpace(c: char) {
    c in Whitespace
  }

  /** `s` with its leading whitespace removed. */
  function TrimStart(s: string): string {
    if s != [] && IsSpace(s[0]) then TrimStart(s[1..]) else s
  }

  /** `s` with its trailing whitespace removed. */
  function TrimEnd(s: string): string {
    if s != [] && IsSpace(s[|s| - 1]) then TrimEnd(s[..|s| - 1]) else s
  }

  /** `TrimStart` removes a run of whitespace from the front and stops at the first non-space. */
  lemma {:induction false} TrimStartDropsLeadingSpace(s: string)
    ensures var r := TrimStart(s);
            && |r| <= |s| && r == s[|s| - |r|..]
            && (forall k :: 0 <= k < |s| - |r| ==> IsSpace(s[k]))
            && (r == [] || !IsSpace(r[0]))
  {
    if s != [] && IsSpace(s[0]) {
      TrimStartDropsLeadingSpace(s[1..]);
      var r := TrimStart(s);
      forall k | 0 < k < |s| - |r| ensures IsSpace(s[k]) {
        assert s[k] == s[1..][k - 1];
      }
    }
  }

  /** `TrimEnd` removes a run of whitespace from the back and stops at the last non-space. */
  lemma {:induction false} TrimEndDropsTrailingSpace(s: string)
    ensures var r := TrimEnd(s);
            && |r| <= |s| && r == s[..|r|]
            && (forall k :: |r| <= k < |s| ==> IsSpace(s[k]))
            && (r == [] || !IsSpace(r[|r| - 1]))
  {
    if s != [] && IsSpace(s[|s| - 1]) {
      var init := s[..|s| - 1];
      TrimEndDropsTrailingSpace(init);
      var r := TrimEnd(s);
      assert r == init[..|r|];
      forall k | |r| <= k < |s| - 1 ensures IsSpace(s[k]) {
        assert s[k] == init[k];
      }
    }
  }

  /** `str.strip()`. */
  function Strip(s: string): string {
    TrimEnd(TrimStart(s))
  }

  /**
   * `strip` keeps the one stretch of `s` that starts and ends with a
   * non-space character and drops only whitespace around it; it leaves
   * nothing exactly when `s` is all whitespace.
   */
  lemma StripKeepsTheCore(s: string)
    ensures var r := Strip(s);
            && (exists lo :: 0 <= lo <= lo + |r| <= |s| && r == s[lo..][..|r|]
                  && (forall k :: 0 <= k < lo ==> IsSpace(s[k]))
                  && (forall k :: lo + |r| <= k < |s| ==> IsSpace(s[k])))
            && (r == [] || (!IsSpace(r[0]) && !IsSpace(r[|r| - 1])))
            && (r == [] <==> forall k :: 0 <= k < |s| ==> IsSpace(s[k]))
  {
    var t := TrimStart(s);
    var r := Strip(s);
    TrimStartDropsLeadingSpace(s);
    TrimEndDropsTrailingSpace(t);
    var lo := |s| - |t|;
    assert r == t[..|r|];
    assert r == s[lo..][..|r|];
    forall k | lo + |r| <= k < |s| ensures IsSpace(s[k]) {
      assert s[k] == t[k - lo];
    }
    assert forall k :: 0 <= k < lo ==> IsSpace(s[k]);
    if r != [] {
      assert r[0] == t[0] == s[lo];
      assert !IsSpace(s[lo]);
    }
  }

  /** Every character is whitespace. */
  predicate Blank(s: string) {
    forall k :: 0 <= k < |s| ==> IsSpace(s[k])
  }

  /** Neither starts nor ends with whitespace. */
  predicate Trimmed(s: string) {
    s == [] || (!IsSpace(s[0]) && !IsSpace(s[|s| - 1]))
  }

  /** What is left after `strip` is empty exactly for an all-whitespace string, and otherwise starts and ends with a non-space. */
  lemma StripBlank(s: string)
    ensures Strip(s) == [] <==> Blank(s)
    ensures Trimmed(Strip(s))
  {
    StripKeepsTheCore(s);
  }

  /** `is_nonempty`: a text answer needs a non-space character, a choice only needs to be made. */
  predicate IsNonEmpty(kind: AnswerType, ans: string) {
    match kind
    case TextAnswer => Strip(ans) != []
    case SingleChoice => ans != []
  }

  lemma {:induction false} AcceptedAnswerIsNonEmpty(kind: AnswerType, ans: string)
    ensures IsNonEmpty(kind, ans) <==>
              match kind
              case TextAnswer => exists k :: 0 <= k < |ans| && !IsSpace(ans[k])
              case SingleChoice => ans != []
    ensures IsNonEmpty(kind, ans) ==> ans != []
  {
    StripBlank(ans);
  }

  // ---------------------------------------------------------------------
  // The header: current_meta
  // ---------------------------------------------------------------------

  /** The respondent's name, request and contact, as `current_meta` reads them. */
  datatype Header = Header(name: string, request: string, contact: string) {
    function Field(f: IntakeField): string {
      match f
      case NameField => name
      case RequestField => request
      case ContactField => contact
    }
  }

  function CurrentMeta(answers: map<QuestionId, string>): Header {
    Header(
      Strip(Lookup(answers, IntakeId(NameField))),
      Strip(Lookup(answers, IntakeId(RequestField))),
      Strip(Lookup(answers, IntakeId(ContactField))))
  }

  /**
   * Each header field is the intake answer without surrounding whitespace:
   * empty when the intake question is unanswered or blank, and otherwise
   * neither starting nor ending with a space.
   */
  lemma CurrentMetaFields(answers: map<QuestionId, string>, f: IntakeField)
    ensures var field, v := CurrentMeta(answers).Field(f), Lookup(answers, IntakeId(f));
            && field == Strip(v)
            && (IntakeId(f) !in answers ==> field == "")
            && (field == "" <==> Blank(v))
            && Trimmed(field)
  {
    var v := Lookup(answers, IntakeId(f));
    assert CurrentMeta(answers).Field(f) == Strip(v) by {
      match f
      case NameField =>
      case RequestField =>
      case ContactField =>
    }
    StripBlank(v);
  }

  // ---------------------------------------------------------------------
  // The event log and the payload
  // ---------------------------------------------------------------------

  /** One accepted answer, as the event log records it. */
  datatype Event = Event(timestamp: string, questionId: QuestionId, questionText: Prompt, answerType: AnswerType, answer: string)

  /** The answers a log leaves behind when its entries are written in order: the last write of each question wins. */
  function Replay(log: seq<Event>): map<QuestionId, string> {
    if log == [] then map[]
    else Replay(log[..|log| - 1])[log[|log| - 1].questionId := log[|log| - 1].answer]
  }

  /**
   * A question has an answer after the replay exactly when the log holds an
   * entry for it, and the answer is that of its last entry.
   */
  lemma {:induction false} ReplayIsLastWrite(log: seq<Event>, k: QuestionId)
    ensures k in Replay(log) <==> exists i :: 0 <= i < |log| && log[i].questionId == k
    ensures k in Replay(log) ==>
              exists i :: 0 <= i < |log| && log[i].questionId == k && Replay(log)[k] == log[i].answer
                && forall j :: i < j < |log| ==> log[j].questionId != k
  {
    if log != [] {
      var n := |log| - 1;
      var init := log[..n];
      ReplayIsLastWrite(init, k);
      if log[n].questionId != k && k in Replay(log) {
        var i :| 0 <= i < |init| && init[i].questionId == k && Replay(init)[k] == init[i].answer
                 && forall j :: i < j < |init| ==> init[j].questionId != k;
        assert log[i] == init[i];
        forall j | i < j < |log| ensures log[j].questionId != k {
          if j < n {
            assert log[j] == init[j];
          }
        }
      }
      if log[n].questionId != k {
        forall i | 0 <= i < |log| && log[i].questionId == k ensures k in Replay(init) {
          assert i < n;
          assert init[i] == log[i];
        }
      }
    }
  }

  const Schema := "ai-neo.session.v8"
  const AppVersion := "mvp-8.0-positions-24"

  /** The `meta` block of a saved session. */
  datatype PayloadMeta = PayloadMeta(
    schema: string,
    appVersion: string,
    timestamp: string,
    sessionId: string,
    header: Header,
    questionCount: nat,
    answeredCount: nat)

  /** A saved session: its meta block, the answers, the score tables, the two top lists and the log. */
  datatype Payload = Payload(
    meta: PayloadMeta,
    answers: map<QuestionId, string>,
    scores: Scores,
    top3: seq<Entry>,
    top6: seq<Entry>,
    eventLog: seq<Event>)

  lemma ScoredTablesAreComplete(s: Scores, answers: map<QuestionId, string>)
    requires ScoresOf(s, answers)
    ensures Complete(s.global)
  {
  }

  /** What `build_payload` makes of a session's answers and log. */
  ghost predicate PayloadOf(p: Payload, answers: map<QuestionId, string>, log: seq<Event>, sessionId: string, timestamp: string) {
    && p.meta == PayloadMeta(Schema, AppVersion, timestamp, sessionId, CurrentMeta(answers), |Plan(answers)|, |log|)
    && p.answers == answers
    && p.eventLog == log
    && ScoresOf(p.scores, answers)
    && Complete(p.scores.global)
    && p.top3 == TopList(p.scores.global, 3)
    && p.top6 == TopList(p.scores.global, 6)
  }

  /**
   * `build_payload`: score the answers, read the header, rank the global
   * table, and count the plan's questions and the log's entries. The
   * timestamp is the caller's clock reading.
   */
  method BuildPayload(answers: map<QuestionId, string>, log: seq<Event>, sessionId: string, timestamp: string)
    returns (p: Payload)
    ensures PayloadOf(p, answers, log, sessionId, timestamp)
    ensures |p.top3| == 3 && |p.top6| == 6 && p.top3 == p.top6[..3]
    ensures p.meta.questionCount == |PlanIds(answers)| && 15 <= p.meta.questionCount <= 27
  {
    var scores := ScoreAll(answers);
    ScoredTablesAreComplete(scores, answers);
    var top3, top6 := TopList(scores.global, 3), TopList(scores.global, 6);
    TopListsNest(scores.global, 3, 6);
    var plan := DynamicQuestionPlan(answers);
    PlanLength(answers);
    var meta := PayloadMeta(Schema, AppVersion, timestamp, sessionId, CurrentMeta(answers), |plan|, |log|);
    p := Payload(meta, answers, scores, top3, top6, log);
  }

  // ---------------------------------------------------------------------
  // The session state and the client flow
  // ---------------------------------------------------------------------

  /**
   * The state of the client flow hangs together: the answers are what the
   * log leaves behind, every logged answer passed the emptiness check, the
   * cursor never runs past the plan, and every answered question lies
   * before the cursor.
   */
  ghost predicate Consistent(answers: map<QuestionId, string>, log: seq<Event>, qIndex: nat) {
    && answers == Replay(log)
    && (forall i :: 0 <= i < |log| ==> IsNonEmpty(log[i].answerType, log[i].answer))
    && qIndex <= |PlanIds(answers)|
    && forall k :: k in answers ==> k in PlanIds(answers)[..qIndex]
  }

  /**
   * Accepting an answer to the question at the cursor, logging it and
   * moving the cursor on keeps the state consistent. The rebuilt plan keeps
   * every entry up to the cursor in place and only ever grows: it keeps
   * every entry it had, in the same order.
   */
  lemma AcceptKeepsConsistent(answers: map<QuestionId, string>, log: seq<Event>, i: nat, e: Event)
    requires Consistent(answers, log, i) && i < |PlanIds(answers)|
    requires e.questionId == PlanIds(answers)[i] && IsNonEmpty(e.answerType, e.answer)
    ensures var after := answers[e.questionId := e.answer];
            && Consistent(after, log + [e], i + 1)
            && PlanIds(after)[..i + 1] == PlanIds(answers)[..i + 1]
            && |PlanIds(answers)| <= |PlanIds(after)|
            && (forall id :: id in PlanIds(answers) ==> id in PlanIds(after))
            && IsSubsequence(PlanIds(answers), PlanIds(after))
  {
    assert (log + [e])[..|log|] == log;
    AnsweringKeepsEarlierIds(answers, i, e.answer);
    AnsweringAtCursorKeepsEntries(answers, i, e.answer);
    AnsweredStayBeforeCursor(answers, i, e.answer);
  }

  /**
   * The per-respondent state the client flow keeps: the session id, the
   * cursor into the plan, the answers by question, and the event log.
   */
  class Session {
    var sessionId: string
    var qIndex: nat
    var answers: map<QuestionId, string>
    var eventLog: seq<Event>

    ghost predicate Valid()
      reads this
    {
      Consistent(answers, eventLog, qIndex)
    }

    /** Every question of the plan has been passed. */
    ghost predicate Done()
      reads this
    {
      qIndex >= |PlanIds(answers)|
    }

    /** `init_state`, with the fresh session id given by the caller. */
    constructor (id: string)
      ensures Valid() && !Done()
      ensures sessionId == id && qIndex == 0 && answers == map[] && eventLog == []
    {
      sessionId := id;
      qIndex := 0;
      answers := map[];
      eventLog := [];
      PlanLength(map[]);
    }

    /** `reset_diagnostic`: forget every answer and start again under a new session id. */
    method Reset(id: string)
      modifies this
      ensures Valid() && !Done()
      ensures sessionId == id && qIndex == 0 && answers == map[] && eventLog == []
    {
      sessionId := id;
      qIndex := 0;
      answers := map[];
      eventLog := [];
      PlanLength(map[]);
    }

    /**
     * "Далее": the answer to the current question is checked; a rejected
     * answer changes nothing, an accepted one is stored under the question's
     * id, logged once with the caller's timestamp, and moves the cursor on
     * by one. The plan is then recomputed from the new answers: the entries
     * up to the one just answered stay where they were, so the cursor still
     * lies within the plan, and the plan only ever grows: it keeps every
     * entry it had, in the same order.
     */
    method Next(ans: string, timestamp: string) returns (accepted: bool)
      requires Valid() && !Done()
      modifies this
      ensures Valid() && sessionId == old(sessionId)
      ensures var q := QuestionOf(PlanIds(old(answers))[old(qIndex)]);
              && accepted == IsNonEmpty(q.kind, ans)
              && (accepted ==>
                    && answers == old(answers)[q.id := ans]
                    && eventLog == old(eventLog) + [Event(timestamp, q.id, q.text, q.kind, ans)]
                    && qIndex == old(qIndex) + 1)
              && (!accepted ==> answers == old(answers) && eventLog == old(eventLog) && qIndex == old(qIndex))
      ensures PlanIds(answers)[..old(qIndex) + 1] == PlanIds(old(answers))[..old(qIndex) + 1]
      ensures |PlanIds(old(answers))| <= |PlanIds(answers)|
      ensures forall id :: id in PlanIds(old(answers)) ==> id in PlanIds(answers)
      ensures IsSubsequence(PlanIds(old(answers)), PlanIds(answers))
    {
      var plan := DynamicQuestionPlan(answers);
      var q := plan[qIndex];
      accepted := IsNonEmpty(q.kind, ans);
      if accepted {
        Accept(Event(timestamp, q.id, q.text, q.kind, ans));
      } else {
        PlanInSkeletonOrder(answers);
        OrderedInclusionIsSubsequence(PlanIds(answers), PlanIds(answers));
      }
    }

    /**
     * Stores an accepted answer to the question at the cursor under its id,
     * appends its event to the log and moves the cursor on by one.
     */
    method Accept(e: Event)
      requires Valid() && qIndex < |PlanIds(answers)|
      requires e.questionId == PlanIds(answers)[qIndex] && IsNonEmpty(e.answerType, e.answer)
      modifies this
      ensures Valid() && sessionId == old(sessionId)
      ensures answers == old(answers)[e.questionId := e.answer]
      ensures eventLog == old(eventLog) + [e] && qIndex == old(qIndex) + 1
      ensures PlanIds(answers)[..qIndex] == PlanIds(old(answers))[..qIndex]
      ensures |PlanIds(old(answers))| <= |PlanIds(answers)|
      ensures forall id :: id in PlanIds(old(answers)) ==> id in PlanIds(answers)
      ensures IsSubsequence(PlanIds(old(answers)), PlanIds(answers))
    {
      AcceptKeepsConsistent(answers, eventLog, qIndex, e);
      answers := answers[e.questionId := e.answer];
      eventLog := eventLog + [e];
      qIndex := qIndex + 1;
    }

    /** Moves the cursor past the last question of the current plan. */
    method MoveToEnd()
      requires Valid()
      modifies this`qIndex
      ensures Valid() && Done() && qIndex == |PlanIds(answers)|
    {
      var plan := DynamicQuestionPlan(answers);
      assert |plan| == |PlanIds(answers)|;
      ghost var before := qIndex;
      qIndex := |plan|;
      forall k | k in answers ensures k in PlanIds(answers)[..qIndex] {
        var j :| 0 <= j < before && PlanIds(answers)[..before][j] == k;
        assert PlanIds(answers)[..qIndex][j] == k;
      }
    }

    /**
     * "Завершить сейчас": save the payload built from the current state and
     * move the cursor to the end of the plan; the answers and the log stay.
     */
    method FinishNow(timestamp: string) returns (p: Payload)
      requires Valid() && !Done()
      modifies this
      ensures Valid() && Done() && qIndex == |PlanIds(answers)|
      ensures sessionId == old(sessionId) && answers == old(answers) && eventLog == old(eventLog)
      ensures PayloadOf(p, old(answers), old(eventLog), old(sessionId), timestamp)
    {
      p := BuildPayload(answers, eventLog, sessionId, timestamp);
      MoveToEnd();
    }
  }

  /**
   * Accepted answers never drop questions: once a question has been
   * answered with a non-empty value, the plan is at least as long as
   * before, and no longer than the 27 entries of the full skeleton.
   */
  lemma {:induction false} ReplayedPlanGrows(log: seq<Event>, e: Event)
    requires e.answer != ""
    ensures |PlanIds(Replay(log))| <= |PlanIds(Replay(log + [e]))| <= 27
  {
    assert (log + [e])[..|log|] == log;
    NonEmptyAnswerNeverShrinksPlan(Replay(log), e.questionId, e.answer);
    PlanLength(Replay(log + [e]));
  }
}
