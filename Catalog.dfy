/** The optional value used across the model. */
module Wrappers {

  datatype Option<+T> = None | Some(value: T)
}

/**
 * The fixed catalogue of the questionnaire: the nine potentials, the three
 * spheres that partition them, the three columns, the six positions and the
 * constructors of the sphere-selection and potential-selection questions.
 */
module Catalog {
  import opened Wrappers

  /** The nine potentials, declared in the catalogue order of `POTS`. */
  datatype Potential =
    | Amber | Shungite | Citrine | Emerald | Ruby | Garnet | Sapphire | Heliodor | Amethyst
  {
    /** The potential's name as it appears in answers and score tables. */
    function Name(): string {
      match this
      case Amber => "Янтарь"
      case Shungite => "Шунгит"
      case Citrine => "Цитрин"
      case Emerald => "Изумруд"
      case Ruby => "Рубин"
      case Garnet => "Гранат"
      case Sapphire => "Сапфир"
      case Heliodor => "Гелиодор"
      case Amethyst => "Аметист"
    }
  }

  /** `POTS`: every potential once, in declaration order. */
  const Pots: seq<Potential> :=
    [Amber, Shungite, Citrine, Emerald, Ruby, Garnet, Sapphire, Heliodor, Amethyst]

  /** Position of a potential in `Pots`; ties in every ranking are broken by it. */
  function CatalogIndex(p: Potential): (i: nat)
    ensures i < |Pots| && Pots[i] == p
  {
    match p
    case Amber => 0
    case Shungite => 1
    case Citrine => 2
    case Emerald => 3
    case Ruby => 4
    case Garnet => 5
    case Sapphire => 6
    case Heliodor => 7
    case Amethyst => 8
  }

  /** The membership test `value in POTS` on an answer value. */
  function PotentialNamed(s: string): (r: Option<Potential>)
    ensures r.Some? ==> r.value.Name() == s
    ensures r.None? ==> forall p: Potential :: p.Name() != s
  {
    if s == "Янтарь" then Some(Amber)
    else if s == "Шунгит" then Some(Shungite)
    else if s == "Цитрин" then Some(Citrine)
    else if s == "Изумруд" then Some(Emerald)
    else if s == "Рубин" then Some(Ruby)
    else if s == "Гранат" then Some(Garnet)
    else if s == "Сапфир" then Some(Sapphire)
    else if s == "Гелиодор" then Some(Heliodor)
    else if s == "Аметист" then Some(Amethyst)
    else None
  }

  /** Every potential is recognised by its own name. */
  lemma PotentialNameRoundTrip(p: Potential)
    ensures PotentialNamed(p.Name()) == Some(p)
  {
    match p
    case Amber =>
    case Shungite =>
    case Citrine =>
    case Emerald =>
    case Ruby =>
    case Garnet =>
    case Sapphire =>
    case Heliodor =>
    case Amethyst =>
  }

  /** The three spheres (`SPHERE_MAP` keys). */
  datatype Sphere = Emotions | Matter | Meanings {
    function Name(): string {
      match this
      case Emotions => "emotions"
      case Matter => "matter"
      case Meanings => "meanings"
    }
  }

  /** `SPHERE_MAP`: the three potentials each sphere owns, in the listed order. */
  function SphereMembers(s: Sphere): (ps: seq<Potential>)
    ensures |ps| == 3
  {
    match s
    case Emotions => [Emerald, Garnet, Ruby]
    case Matter => [Amber, Shungite, Citrine]
    case Meanings => [Sapphire, Heliodor, Amethyst]
  }

  /** The sphere that owns a potential. */
  function SphereOf(p: Potential): Sphere {
    match p
    case Emerald | Garnet | Ruby => Emotions
    case Amber | Shungite | Citrine => Matter
    case Sapphire | Heliodor | Amethyst => Meanings
  }

  /** `SPHERE_MAP` partitions `POTS`: every potential belongs to exactly one sphere. */
  lemma SpheresPartitionPotentials(p: Potential, s: Sphere)
    ensures p in SphereMembers(s) <==> s == SphereOf(p)
  {
    match s
    case Emotions =>
    case Matter =>
    case Meanings =>
  }

  /** The three columns, in the order of `COLUMNS`. */
  datatype Column = Perception | Motivation | Instrument {
    function Name(): string {
      match this
      case Perception => "perception"
      case Motivation => "motivation"
      case Instrument => "instrument"
    }
  }

  const Columns: seq<Column> := [Perception, Motivation, Instrument]

  /** The six ordinal positions. */
  type Position = i: nat | 1 <= i <= 6 witness 1

  /** Ordinal of a question within its pair (`qn`: 1 or 2). */
  type Ordinal = n: nat | 1 <= n <= 2 witness 1

  /** `pos_col`: positions 1 and 4 perceive, 2 and 5 motivate, 3 and 6 act. */
  function PosColumn(pos: Position): (c: Column)
    ensures c == Columns[(pos - 1) % 3]
  {
    if pos == 1 || pos == 4 then Perception
    else if pos == 2 || pos == 5 then Motivation
    else Instrument
  }

  /** `POS_LABELS`. */
  function PosLabel(pos: Position): string {
    match pos
    case 1 => "Позиция 1 — главный фильтр восприятия"
    case 2 => "Позиция 2 — что включает мотивацию"
    case 3 => "Позиция 3 — главный способ действия"
    case 4 => "Позиция 4 — второй фильтр восприятия"
    case 5 => "Позиция 5 — второй слой мотивации"
    case _ => "Позиция 6 — второй инструмент действия"
  }

  datatype Stage = IntakeStage | SphereStage | PotentialStage
  datatype AnswerType = TextAnswer | SingleChoice

  /**
   * The wording of a question or of an option, kept symbolic so that proofs
   * never unfold the texts; `Wording` gives the text shown to the respondent.
   */
  datatype Prompt =
    | NamePrompt | RequestPrompt | ContactPrompt
    | FirstSpherePrompt(pos: Position) | SecondSpherePrompt
    | SphereOptionLabel(sphere: Sphere)
    | PotPrompt(sphere: Sphere, n: Ordinal)
    | PotOptionLabel(sphere: Sphere, n: Ordinal, pot: Potential)

  /** One option of a single-choice question: the id stored as the answer, and its label. */
  datatype Choice = Choice(id: string, caption: Prompt)

  /**
   * A question of the plan. `position` is 0 for intake questions; `sphere`
   * is present on potential questions only.
   */
  datatype Question = Question(
    id: QuestionId,
    position: nat,
    column: Column,
    stage: Stage,
    kind: AnswerType,
    sphere: Option<Sphere>,
    text: Prompt,
    options: seq<Choice>)

  /** The decimal digit of a number below ten, as f-strings print it. */
  function Digit(d: nat): (c: char)
    requires d < 10
    ensures c as int == '0' as int + d
  {
    ('0' as int + d) as char
  }

  /** The three intake fields. */
  datatype IntakeField = NameField | RequestField | ContactField

  /**
   * A question identifier. The application stores identifiers as strings;
   * `Render` gives that string, and `RenderInjective` shows that no two
   * identifiers share one, so the model keys answers by identifier instead.
   */
  datatype QuestionId =
    | IntakeId(field: IntakeField)
    | SphereId(pos: Position, n: Ordinal)
    | PotId(pos: Position, n: Ordinal, sphere: Sphere)
  {
    /** `intake.name`, `p{pos}_s{n}` or `p{pos}_p{n}_{sphere}`. */
    function Render(): string {
      match this
      case IntakeId(NameField) => "intake.name"
      case IntakeId(RequestField) => "intake.request"
      case IntakeId(ContactField) => "intake.contact"
      case SphereId(pos, n) => "p" + [Digit(pos)] + "_s" + [Digit(n)]
      case PotId(pos, n, s) => "p" + [Digit(pos)] + "_p" + [Digit(n)] + "_" + s.Name()
    }

    /** The stage of the question this identifier names. */
    function Stage(): Stage {
      match this
      case IntakeId(_) => IntakeStage
      case SphereId(_, _) => SphereStage
      case PotId(_, _, _) => PotentialStage
    }

    /** The position of the question this identifier names; 0 for intake questions. */
    function Position(): nat {
      match this
      case IntakeId(_) => 0
      case SphereId(pos, _) => pos
      case PotId(pos, _, _) => pos
    }

    /** The column of the question this identifier names. */
    function Column(): Column {
      match this
      case IntakeId(NameField) => Perception
      case IntakeId(RequestField) => Motivation
      case IntakeId(ContactField) => Instrument
      case SphereId(pos, _) => PosColumn(pos)
      case PotId(pos, _, _) => PosColumn(pos)
    }
  }

  /** The three fixed intake questions that open every plan. */
  const IntakeQuestions: seq<Question> := [
    Question(IntakeId(NameField), 0, Perception, IntakeStage, TextAnswer, None, NamePrompt, []),
    Question(IntakeId(RequestField), 0, Motivation, IntakeStage, TextAnswer, None, RequestPrompt, []),
    Question(IntakeId(ContactField), 0, Instrument, IntakeStage, TextAnswer, None, ContactPrompt, [])
  ]

  /** The three sphere options every sphere question offers. */
  const SphereChoices: seq<Choice> := [
    Choice("emotions", SphereOptionLabel(Emotions)),
    Choice("matter", SphereOptionLabel(Matter)),
    Choice("meanings", SphereOptionLabel(Meanings))
  ]

  /** `_sphere_q`: a sphere-selection question. */
  function SphereQuestion(pos: Position, column: Column, n: Ordinal, text: Prompt): (q: Question)
    ensures q.id == SphereId(pos, n) && q.position == pos && q.column == column
    ensures q.stage == SphereStage && q.kind == SingleChoice
    ensures q.options == SphereChoices
  {
    Question(SphereId(pos, n), pos, column, SphereStage, SingleChoice, None, text, SphereChoices)
  }

  /** `_pot_q`: a potential-selection question over the given (potential, label) options. */
  function PotQuestion(pos: Position, column: Column, n: Ordinal, s: Sphere, text: Prompt,
                       options: seq<(Potential, Prompt)>): (q: Question)
    ensures q.id == PotId(pos, n, s) && q.position == pos && q.column == column
    ensures q.stage == PotentialStage && q.kind == SingleChoice && q.sphere == Some(s)
    ensures |q.options| == |options|
    ensures forall j :: 0 <= j < |options| ==> q.options[j] == Choice(options[j].0.Name(), options[j].1)
  {
    Question(PotId(pos, n, s), pos, column, PotentialStage, SingleChoice, Some(s), text,
             seq(|options|, j requires 0 <= j < |options| => Choice(options[j].0.Name(), options[j].1)))
  }

  /** What the plan requires of an inserted potential question. */
  ghost predicate IsPotQuestion(q: Question, pos: Position, column: Column, n: Ordinal, s: Sphere) {
    && q.id == PotId(pos, n, s)
    && q.position == pos
    && q.column == column
    && q.stage == PotentialStage
    && q.kind == SingleChoice
    && q.sphere == Some(s)
    && |q.options| == 3
    && forall j :: 0 <= j < 3 ==> q.options[j].id == SphereMembers(s)[j].Name()
  }

  /**
   * `resolve_pot_questions_for_position`: the two potential questions for the
   * sphere chosen at a position. A choice naming "meanings" or "emotions"
   * selects that sphere; any other choice selects the matter pair.
   */
  function ResolvePotQuestions(pos: Position, chosen: string, column: Column): (qs: (Question, Question))
    ensures IsPotQuestion(qs.0, pos, column, 1, ResolvedSphere(chosen))
    ensures IsPotQuestion(qs.1, pos, column, 2, ResolvedSphere(chosen))
  {
    if chosen == "meanings" then MeaningsQuestions(pos, column)
    else if chosen == "emotions" then EmotionsQuestions(pos, column)
    else MatterQuestions(pos, column)
  }

  /** The meanings pair of `resolve_pot_questions_for_position`. */
  function MeaningsQuestions(pos: Position, column: Column): (qs: (Question, Question))
    ensures IsPotQuestion(qs.0, pos, column, 1, Meanings) && IsPotQuestion(qs.1, pos, column, 2, Meanings)
  {
    (PotQuestion(pos, column, 1, Meanings, PotPrompt(Meanings, 1), PotOptions(Meanings, 1)),
     PotQuestion(pos, column, 2, Meanings, PotPrompt(Meanings, 2), PotOptions(Meanings, 2)))
  }

  /** The emotions pair of `resolve_pot_questions_for_position`. */
  function EmotionsQuestions(pos: Position, column: Column): (qs: (Question, Question))
    ensures IsPotQuestion(qs.0, pos, column, 1, Emotions) && IsPotQuestion(qs.1, pos, column, 2, Emotions)
  {
    (PotQuestion(pos, column, 1, Emotions, PotPrompt(Emotions, 1), PotOptions(Emotions, 1)),
     PotQuestion(pos, column, 2, Emotions, PotPrompt(Emotions, 2), PotOptions(Emotions, 2)))
  }

  /** The matter pair of `resolve_pot_questions_for_position`, its fallback for any other choice. */
  function MatterQuestions(pos: Position, column: Column): (qs: (Question, Question))
    ensures IsPotQuestion(qs.0, pos, column, 1, Matter) && IsPotQuestion(qs.1, pos, column, 2, Matter)
  {
    (PotQuestion(pos, column, 1, Matter, PotPrompt(Matter, 1), PotOptions(Matter, 1)),
     PotQuestion(pos, column, 2, Matter, PotPrompt(Matter, 2), PotOptions(Matter, 2)))
  }

  /**
   * The question an identifier stands for. Every question of the plan is
   * determined by its identifier: intake questions by their field, sphere
   * questions by position and ordinal, potential questions by position,
   * ordinal and sphere, their column always being the position's column.
   */
  function QuestionOf(id: QuestionId): (q: Question)
    ensures q.id == id
    ensures q.stage == id.Stage() && q.position == id.Position() && q.column == id.Column()
    ensures id.IntakeId? ==> q.position == 0 && q.stage == IntakeStage && q.kind == TextAnswer
    ensures id.SphereId? ==>
              && q.position == id.pos && q.column == PosColumn(id.pos) && q.stage == SphereStage
              && q.kind == SingleChoice && q.options == SphereChoices
    ensures id.PotId? ==> IsPotQuestion(q, id.pos, PosColumn(id.pos), id.n, id.sphere)
  {
    match id
    case IntakeId(NameField) => IntakeQuestions[0]
    case IntakeId(RequestField) => IntakeQuestions[1]
    case IntakeId(ContactField) => IntakeQuestions[2]
    case SphereId(pos, n) =>
      SphereQuestion(pos, PosColumn(pos), n, if n == 1 then FirstSpherePrompt(pos) else SecondSpherePrompt)
    case PotId(pos, n, s) =>
      var pair := match s
        case Meanings => MeaningsQuestions(pos, PosColumn(pos))
        case Emotions => EmotionsQuestions(pos, PosColumn(pos))
        case Matter => MatterQuestions(pos, PosColumn(pos));
      if n == 1 then pair.0 else pair.1
  }

  /**
   * `resolve_pot_questions_for_position` at a position's own column yields
   * the two potential questions of the sphere the choice resolves to.
   */
  lemma ResolvePotQuestionsById(pos: Position, chosen: string)
    ensures var s := ResolvedSphere(chosen);
            ResolvePotQuestions(pos, chosen, PosColumn(pos)) == (QuestionOf(PotId(pos, 1, s)), QuestionOf(PotId(pos, 2, s)))
  {
  }

  /**
   * The option list of a potential question: the potentials written into
   * each question of `resolve_pot_questions_for_position`, in its order.
   */
  function PotOptions(s: Sphere, n: Ordinal): seq<(Potential, Prompt)> {
    match s
    case Meanings =>
      [(Sapphire, PotOptionLabel(s, n, Sapphire)), (Heliodor, PotOptionLabel(s, n, Heliodor)),
       (Amethyst, PotOptionLabel(s, n, Amethyst))]
    case Emotions =>
      [(Emerald, PotOptionLabel(s, n, Emerald)), (Garnet, PotOptionLabel(s, n, Garnet)),
       (Ruby, PotOptionLabel(s, n, Ruby))]
    case Matter =>
      [(Amber, PotOptionLabel(s, n, Amber)), (Shungite, PotOptionLabel(s, n, Shungite)),
       (Citrine, PotOptionLabel(s, n, Citrine))]
  }

  /** The text of every prompt, as the respondent sees it. */
  function Wording(t: Prompt): string {
    match t
    case NamePrompt => "Как тебя зовут? (или как удобно)"
    case RequestPrompt => "С каким запросом ты пришёл(пришла)? (1–2 фразы)"
    case ContactPrompt => "Оставь телефон или email (куда отправить полный разбор)."
    case FirstSpherePrompt(pos) =>
      "(" + PosLabel(pos) + ") Представь: ты в новой ситуации. Что у тебя включается ПЕРВЫМ?"
    case SecondSpherePrompt => "Когда ты понимаешь, что это «твоё» — что решает?"
    case SphereOptionLabel(Emotions) => "Эмоции / атмосфера / красота / отношения"
    case SphereOptionLabel(Matter) => "Действия / деньги / польза / результат"
    case SphereOptionLabel(Meanings) => "Смысл / идея / понимание / почему так"
    case PotPrompt(Meanings, n) =>
      if n == 1 then "С идеями ты чаще:" else "Чтобы понять решение, тебе проще:"
    case PotPrompt(Emotions, n) =>
      if n == 1 then "Про людей и атмосферу ты чаще:" else "Когда тебе нравится идея/проект, это ощущается как:"
    case PotPrompt(Matter, n) =>
      if n == 1 then "В делах/работе ты чаще:" else "Как ты быстрее понимаешь «моё/не моё» по делу?"
    case PotOptionLabel(_, n, p) => PotOptionWording(n, p)
  }

  /** The label of a potential's option in the first or second question of its sphere. */
  function PotOptionWording(n: Ordinal, p: Potential): string {
    match p
    case Sapphire =>
      if n == 1 then "Слышу/чувствую «работает/не работает», люблю тишину и смысл"
      else "Остановиться и осмыслить в тишине"
    case Heliodor =>
      if n == 1 then "Начинаю говорить/объяснять, понимаю что «зайдёт» людям"
      else "Проговорить/обсудить вслух"
    case Amethyst =>
      if n == 1 then "Вижу сценарии и стратегию: к чему это приведёт"
      else "Поймать ощущение «я знаю» / предчувствие"
    case Emerald =>
      if n == 1 then "Замечаю красоту/детали/картинку и чувствую гармонию"
      else "«красиво и правильно внутри»"
    case Garnet =>
      if n == 1 then "Читаю мимику/эмоции, люблю контакт и «движуху людей»"
      else "хочется делиться, играть эмоцией, выступать"
    case Ruby =>
      if n == 1 then "Ловлю драйв/химию/внутренний всплеск"
      else "включается адреналин/страсть/желание"
    case Amber =>
      if n == 1 then "вижу, что не работает в системе/механизме, чиню и навожу порядок"
      else "по ощущению комфорта/дискомфорта внутри (живот)"
    case Shungite =>
      if n == 1 then "включаюсь через тело/движение/пространство"
      else "по телу: тянет действовать или «не тянет»"
    case Citrine =>
      if n == 1 then "сразу считаю выгоду и эффективность"
      else "по ощущению динамики/мурашкам/приятно–неприятно"
  }

  /** The sphere whose questions `ResolvePotQuestions` inserts for a choice. */
  function ResolvedSphere(chosen: string): (s: Sphere)
    ensures chosen == s.Name() || (s == Matter && forall t: Sphere :: t.Name() != chosen)
  {
    if chosen == "meanings" then Meanings
    else if chosen == "emotions" then Emotions
    else Matter
  }

  /** Identifiers render to pairwise distinct strings. */
  lemma RenderInjective(a: QuestionId, b: QuestionId)
    ensures a.Render() == b.Render() <==> a == b
  {
    RenderParts(a);
    RenderParts(b);
    if a.PotId? && b.PotId? {
      SphereNameInjective(a.sphere, b.sphere);
    }
  }

  /** The characters of a rendered identifier that tell identifiers apart. */
  lemma RenderParts(a: QuestionId)
    ensures var r := a.Render();
            && |r| >= 5
            && (r[0] == 'i' <==> a.IntakeId?)
            && (a.SphereId? ==> |r| == 5 && r[1] == Digit(a.pos) && r[4] == Digit(a.n))
            && (a.PotId? ==> && |r| == 6 + |a.sphere.Name()| && |a.sphere.Name()| >= 5
                             && r[1] == Digit(a.pos) && r[4] == Digit(a.n) && r[6..] == a.sphere.Name())
  {
  }

  lemma SphereNameInjective(s1: Sphere, s2: Sphere)
    ensures s1.Name() == s2.Name() <==> s1 == s2
  {
    if s1 != s2 {
      assert s1.Name()[1] != s2.Name()[1] || |s1.Name()| != |s2.Name()|;
    }
  }
}
