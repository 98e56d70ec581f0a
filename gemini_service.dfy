/**
 * The stand-in for the AI service (backend/.../service/GeminiService.java): a keyword rule that
 * fills the analysis fields of a feedback, and two fixed goal suggestions built around the
 * requested objective. The console logging is left out.
 */
module GeminiService {
  import opened Wrappers
  import Text
  import opened Dto

  const KEYWORD := "difícil"

  const NEGATIVE := "Negativo"
  const TASK_MANAGEMENT := "Gestão de Tarefas"
  const ORGANISATION_GOAL := "Melhorar organização em 20% no próximo mês."
  const PRODUCTIVITY_COURSE := "Curso de Produtividade Avançada"

  const POSITIVE := "Positivo"
  const NO_CATEGORY := "N/A"
  const KEEP_GOING := "Continuar o excelente trabalho!"

  /** The text is present and its lower-case form contains `difícil`. */
  predicate MentionsDifficulty(text: Option<string>) {
    text.Some? && Text.Contains(Text.ToLower(text.value), KEYWORD)
  }

  /**
   * The DTO after the analysis: the negative verdict with a course when the text mentions a
   * difficulty, the positive verdict otherwise (a null text included). Only the four fields named
   * by the branch taken change; the mentor is never set.
   */
  function Analysed(dto: FeedbackDto): (r: FeedbackDto)
    ensures MentionsDifficulty(dto.feedbackTextual) ==>
      r.sentimentoAnalisado == Some(NEGATIVE) && r.categoriaDificuldadeAnalisada == Some(TASK_MANAGEMENT) &&
      r.metaSugeridaIA == Some(ORGANISATION_GOAL) && r.cursoRecomendadoIA == Some(PRODUCTIVITY_COURSE)
    ensures !MentionsDifficulty(dto.feedbackTextual) ==>
      r.sentimentoAnalisado == Some(POSITIVE) && r.categoriaDificuldadeAnalisada == Some(NO_CATEGORY) &&
      r.metaSugeridaIA == Some(KEEP_GOING) && r.cursoRecomendadoIA == dto.cursoRecomendadoIA
    ensures r.(sentimentoAnalisado := dto.sentimentoAnalisado,
               categoriaDificuldadeAnalisada := dto.categoriaDificuldadeAnalisada,
               metaSugeridaIA := dto.metaSugeridaIA,
               cursoRecomendadoIA := dto.cursoRecomendadoIA) == dto
  {
    if MentionsDifficulty(dto.feedbackTextual) then
      dto.(sentimentoAnalisado := Some(NEGATIVE), categoriaDificuldadeAnalisada := Some(TASK_MANAGEMENT),
           metaSugeridaIA := Some(ORGANISATION_GOAL), cursoRecomendadoIA := Some(PRODUCTIVITY_COURSE))
    else
      dto.(sentimentoAnalisado := Some(POSITIVE), categoriaDificuldadeAnalisada := Some(NO_CATEGORY),
           metaSugeridaIA := Some(KEEP_GOING))
  }

  /** `analisarFeedbackComIA`: the setters run one after another on the DTO; `analysed` is the DTO afterwards. */
  method AnalisarFeedbackComIA(dto: FeedbackDto) returns (analysed: FeedbackDto)
    ensures analysed == Analysed(dto)
  {
    analysed := dto;
    var text := dto.feedbackTextual;
    if text.Some? && Text.Contains(Text.ToLower(text.value), KEYWORD) {
      analysed := analysed.(sentimentoAnalisado := Some(NEGATIVE));
      analysed := analysed.(categoriaDificuldadeAnalisada := Some(TASK_MANAGEMENT));
      analysed := analysed.(metaSugeridaIA := Some(ORGANISATION_GOAL));
      analysed := analysed.(cursoRecomendadoIA := Some(PRODUCTIVITY_COURSE));
    } else {
      analysed := analysed.(sentimentoAnalisado := Some(POSITIVE));
      analysed := analysed.(categoriaDificuldadeAnalisada := Some(NO_CATEGORY));
      analysed := analysed.(metaSugeridaIA := Some(KEEP_GOING));
    }
  }

  /** Analysing an analysed feedback again changes nothing: the rule reads only the text, which it never writes. */
  lemma AnalysisIsIdempotent(dto: FeedbackDto)
    ensures Analysed(Analysed(dto)) == Analysed(dto)
  {
    assert Analysed(dto).feedbackTextual == dto.feedbackTextual;
  }

  /** The keyword is found whatever its capitalisation and whatever surrounds it. */
  lemma KeywordFoundInAnyCase(before: string, word: string, after: string)
    requires Text.ToLower(word) == KEYWORD
    ensures MentionsDifficulty(Some(before + word + after))
  {
    var s := before + word + after;
    var lower := Text.ToLower(s);
    Text.ToLowerAppend(before + word, after);
    Text.ToLowerAppend(before, word);
    assert lower == Text.ToLower(before) + KEYWORD + Text.ToLower(after);
    assert lower[|before|..|before| + |KEYWORD|] == KEYWORD;
    assert Text.OccursAt(lower, KEYWORD, |before|);
    Text.ContainsIff(lower, KEYWORD);
  }

  /** The upper-case and capitalised spellings lower-case to the keyword. */
  lemma CapitalisedKeywordsLowerToKeyword()
    ensures Text.ToLower("DIFÍCIL") == KEYWORD
    ensures Text.ToLower("Difícil") == KEYWORD
  {
  }

  /** Java's `+` on a possibly-null `String` writes `null` for it. */
  function JavaString(s: Option<string>): (r: string)
    ensures s.Some? ==> r == s.value
    ensures s.None? ==> r == "null"
  {
    match s
    case Some(v) => v
    case None => "null"
  }

  const FIRST_GOAL_PREFIX := "Concluir curso de "
  const FIRST_GOAL_SUFFIX := " online"
  const FIRST_GOAL_ACTIONS := "Pesquisar cursos, inscrever-se, dedicar 5h/semana"
  const FIRST_GOAL_RESOURCES := "Plataforma de cursos online (ex: Alura, Coursera)"
  const SECOND_GOAL_PREFIX := "Aplicar conhecimentos de "
  const SECOND_GOAL_SUFFIX := " em um projeto prático"
  const SECOND_GOAL_ACTIONS := "Identificar projeto, definir escopo, executar e apresentar resultados"
  const SECOND_GOAL_RESOURCES := "Mentoria de um colega sênior"

  /** The text between a known prefix and suffix, when `s` has both. */
  function Between(s: string, prefix: string, suffix: string): (r: Option<string>)
    ensures r.Some? ==> s == prefix + r.value + suffix
    ensures r.None? ==> forall m :: s != prefix + m + suffix
  {
    if |prefix| + |suffix| <= |s| && s[..|prefix|] == prefix && s[|s| - |suffix|..] == suffix then
      var m := s[|prefix|..|s| - |suffix|];
      assert s == prefix + m + suffix;
      Some(m)
    else
      assert forall m :: |prefix + m + suffix| == |prefix| + |m| + |suffix|;
      None
  }

  /**
   * `sugerirMetasPDIPorIA`: exactly two goals, built with setters and appended in order, each
   * naming the objective (or `null`) between a fixed prefix and suffix. The collaborator id is
   * only logged.
   */
  method SugerirMetasPDIPorIA(colaboradorId: Option<int>, objetivoPrincipal: Option<string>) returns (metas: seq<MetaPdiDto>)
    ensures |metas| == 2
    ensures metas[0].descricaoMeta.Some? &&
      Between(metas[0].descricaoMeta.value, FIRST_GOAL_PREFIX, FIRST_GOAL_SUFFIX) == Some(JavaString(objetivoPrincipal))
    ensures metas[1].descricaoMeta.Some? &&
      Between(metas[1].descricaoMeta.value, SECOND_GOAL_PREFIX, SECOND_GOAL_SUFFIX) == Some(JavaString(objetivoPrincipal))
    ensures metas[0] == EMPTY_META.(descricaoMeta := metas[0].descricaoMeta,
      acoesNecessarias := Some(FIRST_GOAL_ACTIONS), recursosNecessarios := Some(FIRST_GOAL_RESOURCES))
    ensures metas[1] == EMPTY_META.(descricaoMeta := metas[1].descricaoMeta,
      acoesNecessarias := Some(SECOND_GOAL_ACTIONS), recursosNecessarios := Some(SECOND_GOAL_RESOURCES))
  {
    metas := [];
    var objetivo := JavaString(objetivoPrincipal);

    var meta1 := EMPTY_META;
    meta1 := meta1.(descricaoMeta := Some(FIRST_GOAL_PREFIX + objetivo + FIRST_GOAL_SUFFIX));
    meta1 := meta1.(acoesNecessarias := Some(FIRST_GOAL_ACTIONS));
    meta1 := meta1.(recursosNecessarios := Some(FIRST_GOAL_RESOURCES));
    metas := metas + [meta1];

    var meta2 := EMPTY_META;
    meta2 := meta2.(descricaoMeta := Some(SECOND_GOAL_PREFIX + objetivo + SECOND_GOAL_SUFFIX));
    meta2 := meta2.(acoesNecessarias := Some(SECOND_GOAL_ACTIONS));
    meta2 := meta2.(recursosNecessarios := Some(SECOND_GOAL_RESOURCES));
    metas := metas + [meta2];

    BetweenRecovers(FIRST_GOAL_PREFIX, objetivo, FIRST_GOAL_SUFFIX);
    BetweenRecovers(SECOND_GOAL_PREFIX, objetivo, SECOND_GOAL_SUFFIX);
  }

  /** The middle of `prefix + m + suffix` is `m` again. */
  lemma BetweenRecovers(prefix: string, m: string, suffix: string)
    ensures Between(prefix + m + suffix, prefix, suffix) == Some(m)
  {
    var s := prefix + m + suffix;
    assert s[..|prefix|] == prefix && s[|s| - |suffix|..] == suffix;
    assert s[|prefix|..|s| - |suffix|] == m;
  }
}
