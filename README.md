# Neo2 questionnaire engine and scoring model, in Dafny

This project models the core of the Neo2 diagnostic questionnaire (`app.py`). The core is the adaptive question plan and the scoring of the answers.

- **Catalogue.** A respondent is asked three intake questions, then six positions. Each position has two sphere questions ("emotions", "matter" or "meanings"), then two questions that pick one of the three potentials of the chosen sphere. There are nine potentials (`POTS`), grouped three per sphere (`SPHERE_MAP`). Positions 1..6 fall in the columns perception, motivation, instrument, perception, motivation, instrument.
- **Plan.** `build_dynamic_plan` lays out a 27-slot skeleton: the intake questions, then for every position its two sphere questions and two placeholders. `dynamic_question_plan` walks the skeleton.
  - It keeps every concrete question.
  - It replaces each placeholder by the first or second question of the chosen sphere's pair.
  - The chosen sphere is the first sphere answer when it is non-empty, else the second.
  - It drops the placeholders of a position where no sphere has been chosen yet.
  - Any chosen value other than "meanings" or "emotions" gives the matter pair.
- **Scoring.** `score_all` rebuilds the plan from the answers. Every stored answer adds one point to the potential it names, in three places: the global table, its position's table and its column's table. An answer counts only if it belongs to a potential question of that plan and its value is one of the nine potential names. `CountAnswer` keeps the position and column guards of `score_all` (app.py:470-473). Both always pass for an answer that counts: `HitPosition` proves that its position lies in 1..6, and its column is one of `COLUMNS` by type.
- **Ranking.** `top_list` and `build_payload` sort the global table by score, highest first, with a stable sort. Equal scores therefore keep the order of `POTS`. The sorted list is then cut to three or six entries.
- **Session.** The client flow keeps a session id, a cursor into the plan, the answers and an event log.
  - "Далее" checks the answer with `is_nonempty`. It stores and logs an accepted answer and moves the cursor.
  - "Завершить сейчас" builds the payload and jumps to the end of the plan.
  - "Сбросить" clears everything.

## Layout

- `Catalog.dfy` — module `Catalog` (plus a small `Wrappers` module with `Option`). It holds:
  - the potentials, spheres, columns and positions;
  - question identifiers and their rendering;
  - the question constructors `_sphere_q` and `_pot_q`;
  - `resolve_pot_questions_for_position`.

  Question and option texts are a symbolic `Prompt` datatype. `Wording` gives each prompt's Russian text.
- `Plan.dfy` — module `Planner`:
  - `BuildDynamicPlan`, the skeleton method;
  - `DynamicQuestionPlan`, the method that walks the skeleton;
  - the reference function `Plan`, built position by position, which `DynamicQuestionPlan` is proved equal to;
  - the lemmas on the plan's shape, length and stability.
- `Scoring.dfy` — module `Scoring`:
  - `ScoreAll`, a loop over the answers;
  - its specification through `Tally`, the number of answers that fall in a cell of the score tables;
  - the consistency and bound lemmas.
- `Ranking.dfy` — module `Ranking`:
  - the stable descending sort as insertion sort (`Ranked`);
  - `TopList`, with rank order, permutation, uniqueness and nesting lemmas.
- `Session.dfy` — module `Sessions`:
  - `str.strip`, `is_nonempty` and `current_meta`;
  - the event log and the payload;
  - the class `Session`, whose methods update the session state in place.

The plan is not monotone in the answers in one case, which `dynamic_question_plan` allows. Suppose the second sphere question of a position is answered first. The pair of that sphere is then inserted. A later, different answer to the first sphere question replaces that pair. So adding an answer can remove plan entries (`AddingFirstSphereAnswerCanDropEntries`). The model follows the code. `ExtensionKeepsEntries` proves that the plan only gains entries when this case does not occur. The client flow never meets it. The cursor only moves forward, `p{pos}_s1` always comes right before `p{pos}_s2`, and only the question at the cursor is ever answered. So every answered question lies before the cursor, which the session invariant `Consistent` records. Under that invariant, the question at the cursor is not yet answered, and answering it keeps every plan entry in its order: the old plan is a subsequence of the new one (`AnsweringAtCursorKeepsEntries`). Order is never at risk: the plan follows the skeleton's order (`PlanInSkeletonOrder`), so any two plans share their common entries in the same order. `AnsweringKeepsEarlierIds` adds that the entries up to and including the cursor stay in place.

## Model

| member | source | states |
|---|---|---|
| Catalog.CatalogIndex | app.py:84 | every potential has a place in the fixed `POTS` order, which decides ties in the ranking |
| Catalog.PotentialNamed | app.py:463 | the `pot in POTS` test: the result is the potential with that exact name, or there is none |
| Catalog.PotentialNameRoundTrip | app.py:84 | looking up a potential's own name gives that potential back |
| Catalog.SpheresPartitionPotentials | app.py:87-91 | each potential belongs to the list of exactly one sphere |
| Catalog.PosColumn | app.py:312 | position i lies in column `COLUMNS[(i - 1) % 3]`: positions i and i + 3 share a column |
| Catalog.SphereQuestion | app.py:116-129 | a sphere question has id `p{pos}_s{n}`, the given position and column, stage sphere, single choice, and the three sphere options |
| Catalog.PotQuestion | app.py:131-142 | a potential question has id `p{pos}_p{n}_{sphere}`, stage potential, its sphere, single choice, and one option per listed potential, in order, whose id is the potential's name |
| Catalog.ResolvePotQuestions | app.py:333-398 | returns the first and second potential questions of the resolved sphere, at the given position and column |
| Catalog.ResolvedSphere | app.py:337-380 | "meanings" and "emotions" select their own sphere; every other value selects matter |
| Catalog.QuestionOf | app.py:314-328 | the question behind each identifier: its id, stage, position (0 for intake) and column, and for potential ids the question `_pot_q` builds |
| Catalog.ResolvePotQuestionsById | app.py:430 | the pair `resolve_pot_questions_for_position` returns for a position is the question of `p{pos}_p1_{s}` and `p{pos}_p2_{s}` |
| Catalog.RenderInjective | app.py:118 | distinct identifiers render to distinct id strings, so keying answers by identifier loses nothing |
| Planner.BuildDynamicPlan | app.py:303-330 | the skeleton: 27 slots, the three intake questions, then for each position its two sphere questions and its two placeholders, with the position's column |
| Planner.DynamicQuestionPlan | app.py:401-438 | the walk over the skeleton returns exactly the reference plan `Plan(answers)` |
| Planner.SkeletonExpandsToPlan | app.py:409-436 | expanding every slot of a skeleton in order gives the reference plan |
| Planner.ChosenIsFirstNonEmpty | app.py:417-421 | `Chosen` models `s1 or s2` with its tie-break: the chosen sphere is the first sphere answer when non-empty, else the second; the first wins a disagreement |
| Planner.PlanLength | app.py:423-427 | the plan opens with the intake questions and has 15 entries plus 2 for each position with a sphere answer: 15 to 27 |
| Planner.PlanAtPosition | app.py:409-436 | each position's sphere questions sit at its block start; the pair of the chosen sphere follows right after `p{pos}_s2`; positions come in order and the last block ends the plan |
| Planner.PlanMembership | app.py:409-436 | an id is in the plan if and only if it is an intake or sphere id, or a potential id of the sphere chosen at its position |
| Planner.PlanDistinct | app.py:453 | no id occurs twice in the plan, so the id index loses no question |
| Planner.PlanDependsOnlyOnSphereAnswers | app.py:416-419 | two answer maps that agree on every sphere answer have the same plan |
| Planner.AnsweringKeepsEarlierIds | app.py:602-613 | recording any answer to plan entry i keeps every entry up to and including i in place after the plan is rebuilt |
| Planner.AnsweringKeepsEarlierEntries | app.py:602-613 | the same for the plan's questions |
| Planner.NonEmptyAnswerNeverShrinksPlan | app.py:419-427 | storing one non-empty answer never makes the plan shorter |
| Planner.ExtensionKeepsEntries | app.py:419-427 | extending the answers keeps every plan entry and the old plan is a subsequence of the new one, its order kept, unless a first sphere answer is added that overrides a different second one |
| Planner.AddingFirstSphereAnswerCanDropEntries | app.py:419-421 | with `p1_s2 = "matter"`, adding `p1_s1 = "emotions"` removes `p1_p1_matter` from the plan |
| Planner.AnsweringAtCursorKeepsEntries | app.py:598-613 | when every answered question lies before the cursor, the question at the cursor is unanswered, and answering it keeps every plan entry in its order (the old plan is a subsequence of the new one) and never shortens the plan |
| Planner.AnsweredStayBeforeCursor | app.py:598-613 | after the question at the cursor is answered and the cursor moves on by one, every answered question still lies before the cursor |
| Planner.PrefixDependsOnlyOnEarlierPositions | app.py:409-436 | two answer maps that agree on the sphere answers of every position before `pos` give `pos` the same block start, and the same plan up to and including `p{pos}_s2` |
| Planner.PlanInSkeletonOrder | app.py:409-436 | the plan walks the skeleton once: its ids come from strictly later skeleton slots as it goes on, so two plans share their common entries in the same order |
| Planner.OrderedInclusionIsSubsequence | app.py:409-436 | two id sequences in skeleton order, the first holding only entries of the second: the first is a subsequence of the second |
| Scoring.IndexById | app.py:453 | the index holds exactly the ids of the plan, each mapped to a question of the plan with that id |
| Scoring.PlanIndex | app.py:450-453 | the index of the rebuilt plan has exactly the plan's ids as keys, each mapped to its question |
| Scoring.ScoreAll | app.py:444-475 | every cell of the global, position and column tables holds the number of answers that fall in it; all 9, 6×9 and 3×9 cells exist |
| Scoring.CountAnswer | app.py:455-473 | counting one more answer keeps every table equal to the tally over the answers counted so far |
| Scoring.Bump | app.py:469 | adding a point raises the chosen potential by one and leaves every other entry as it was |
| Scoring.ZeroTablesMatch | app.py:445-447 | the zero tables are the tallies of no answers |
| Scoring.ScoredCharacterization | app.py:455-464 | `Scored` models the guards of the scoring loop: an answer scores if and only if its question is a potential question of the rebuilt plan and its value names a potential, that is, if and only if it answers the chosen sphere's pair at its position; it scores for the named potential |
| Scoring.ScoredAtMostTwoAt | app.py:455-471 | at most two answers score at a position, and none where no sphere is chosen |
| Scoring.GlobalIsSumOverPositions | app.py:469-471 | each global score is the sum of that potential's six position scores |
| Scoring.ColumnIsTwoPositions | app.py:471-473 | a column score is the sum of the two positions i and i + 3 of that column |
| Scoring.GlobalIsSumOverColumns | app.py:469-473 | each global score is the sum of that potential's three column scores |
| Scoring.UnchosenPositionScoresZero | app.py:455-471 | a position with no chosen sphere scores zero for every potential |
| Scoring.PositionTotalAtMostTwo | app.py:471 | the nine scores of a position add up to at most 2 |
| Scoring.GrandTotalAtMostTwelve | app.py:469 | the nine global scores add up to at most 12 |
| Scoring.RubyAtPositionThree | app.py:444-475 | choosing emotions at position 3 and Ruby in its first question gives Ruby one point globally, at position 3 and in the instrument column, and every other cell of the global, position and column tables 0 |
| Scoring.StaleAnswerIsIgnored | app.py:455-460 | an answer to the pair of a sphere that is no longer chosen scores nothing |
| Ranking.Items | app.py:479 | the score table's items: one per potential with its score, in `POTS` order |
| Ranking.ItemsHoldEveryPotential | app.py:479 | every potential appears among the items with its own score |
| Ranking.InsertPermutes | app.py:479 | `Insert` is one step of the stable sort: it adds the entry and loses nothing |
| Ranking.RankedPermutes | app.py:479 | `Ranked` models `sorted(..., reverse=True)`: the sorted list is a permutation of the items |
| Ranking.RankedInRankOrder | app.py:479 | the sorted list is in descending score, equal scores in `POTS` order |
| Ranking.RankOrderIsUnique | app.py:479 | two lists in that order with the same entries are equal, so any stable descending sort gives this one |
| Ranking.RankingOfTable | app.py:487 | the ranking of a complete table is in rank order, is a permutation of its items, and is the only such list |
| Ranking.TopList | app.py:478-480 | `top_list(scores, n)` has min(n, 9) entries |
| Ranking.TopListIsBestFirst | app.py:478-480 | a top list is in rank order, carries each potential's own score, and no potential left off it outranks an entry on it |
| Ranking.TopListsNest | app.py:487-489 | a shorter top list is a prefix of a longer one: `top3` is the head of `top6` |
| Sessions.TrimStartDropsLeadingSpace | app.py:286 | trimming the front removes only whitespace and stops at the first non-space |
| Sessions.TrimEndDropsTrailingSpace | app.py:286 | trimming the back removes only whitespace and stops at the last non-space |
| Sessions.StripKeepsTheCore | app.py:286 | `Strip` models `.strip()`: it keeps one stretch of the input, surrounded only by whitespace, that starts and ends with a non-space; it is empty exactly for all-whitespace input |
| Sessions.StripBlank | app.py:286 | stripping gives "" exactly for an all-whitespace string, and never leaves whitespace at either end |
| Sessions.AcceptedAnswerIsNonEmpty | app.py:284-287 | `IsNonEmpty` models `is_nonempty`: a text answer is accepted if and only if it has a non-space character; a choice is accepted if and only if it is non-empty |
| Sessions.CurrentMetaFields | app.py:290-295 | `CurrentMeta` models `current_meta`: each header field is the stripped intake answer, "" when the question is unanswered or blank, otherwise free of surrounding whitespace |
| Sessions.ReplayIsLastWrite | app.py:602-609 | the answers a log leaves hold a question exactly when it was logged, with the answer of its last entry |
| Sessions.BuildPayload | app.py:483-513 | the payload carries schema, version, timestamp, session id, stripped header, plan length (15 to 27) and log length, the answers, the score tables of `ScoreAll`, the top 3 and top 6 lists of the global table (lengths 3 and 6, top 3 a prefix of top 6) and the log |
| Sessions.Session.constructor | app.py:244-248 | a new session has the given id, cursor 0, no answers and an empty log |
| Sessions.Session.Reset | app.py:251-258 | reset clears the answers and the log, sets the cursor to 0 and takes a new id |
| Sessions.Session.Next | app.py:598-613 | a rejected answer changes nothing; an accepted one is stored under the current question's id (last write wins), logged once, and moves the cursor by one; the rebuilt plan keeps every entry up to the answered one in place, keeps every entry it had in the same order (the old plan is a subsequence of the new one) and is no shorter; the session stays `Consistent`, so every answered question lies before the cursor |
| Sessions.Session.Accept | app.py:602-609 | the accepted answer is stored under the cursor question's id, its event is appended and the cursor moves on by one; the session stays `Consistent` and the old plan is a subsequence of the new one |
| Sessions.Session.MoveToEnd | app.py:619 | the cursor moves to the end of the current plan; nothing else changes |
| Sessions.Session.FinishNow | app.py:616-620 | the payload is the one built from the current answers and log; the answers, log and id stay, and the cursor is at the end |
| Sessions.ReplayedPlanGrows | app.py:602-613 | every accepted answer leaves the plan at least as long as before and at most 27 entries long |
| Sessions.AcceptKeepsConsistent | app.py:598-613 | accepting an answer to the question at the cursor keeps the log, answers and cursor consistent, keeps the entries up to the cursor in place, and keeps every plan entry in its order: the live plan only ever grows, never shrinks or reorders |

## Left out

- Page rendering, the button layout, the progress caption and `render_question` are not modelled. The model receives the answer the widget returned as a parameter.
- Sessions.Session.Next accepts any non-empty string as a single-choice answer. The radio widget only ever returns one of the question's option ids.
- The master panel, the password gate, `build_insight_table`, the calls to the text-generation service and `safe_model_name` are not modelled. They are outside the questionnaire engine and the scoring.
- `save_session` and the payload save on the completed screen are not modelled. They are file input/output; `FinishNow` returns the payload it would save.
- Sessions.Session.FinishNow always moves the cursor to the end. In the source `save_session` (app.py:618) runs outside any `try` and before the cursor moves (app.py:619), so a failed save raises and leaves the cursor where it was.
- `uuid.uuid4()` and `utcnow_iso()` become parameters: the session id of `Reset` and the constructor, and the timestamps of `Next` and `BuildPayload`.
- The unused 24-question bank `question_plan` (app.py:144-238) is not modelled, because nothing calls it.
- Sessions.BuildPayload leaves out the empty `evidence` map and the two empty report fields, `ai_client_report` and `ai_master_report`, because they carry no information.
- Scores are natural numbers, not floats. Every increment is exactly 1.0, so the float values equal these counts.
- Position tables are keyed by the position number, not its string `str(i)`. Answers are keyed by question identifier, not the rendered id string; `RenderInjective` shows that distinct identifiers give distinct keys. The source's string-keyed dict could also hold keys that name no question; `dynamic_question_plan` and `score_all` would ignore them (app.py:417-418, 453-460). A `map<QuestionId, string>` cannot represent such keys, and they never arise in the client flow, which stores answers only under `q["id"]` (app.py:602).
- Question texts are compared symbolically. `Wording` gives the exact text, but the proofs never depend on it.
