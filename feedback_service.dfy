/**
 * The feedback service (backend/.../service/FeedbackService.java): creating a feedback between two
 * stored users, with the analysis fields filled by the keyword rule, and the two listings.
 *
 * `criarFeedback` is specified by a function from the database before the call to the database
 * after it and what the call returned or threw; the class `Service` fills the entity step by step.
 * The `@PrePersist` clock that stamps `dataEnvio` is the parameter `now`.
 */
module FeedbackService {
  import opened Wrappers
  import Sets
  import opened Model
  import opened Store
  import opened Dto
  import FeedbackRepository
  import GeminiService

  const AUTHOR_NOT_FOUND := "Autor não encontrado com ID: "
  const RECIPIENT_NOT_FOUND := "Destinatário não encontrado com ID: "

  /** The name of the user `id`, when it is stored (it always is for a feedback of a valid database). */
  function NomeOf(usuarios: map<int, Usuario>, id: int): (nome: Option<string>)
    ensures nome.Some? <==> id in usuarios
    ensures nome.Some? ==> nome.value == usuarios[id].nome
  {
    if id in usuarios then Some(usuarios[id].nome) else None
  }

  /**
   * `convertToDTO`: every column of the feedback, the ids of its author and recipient, and their
   * names looked up in the users table.
   */
  function ConvertToDto(usuarios: map<int, Usuario>, f: Feedback): (dto: FeedbackDto)
    ensures dto.id == Some(f.id) && dto.dataEnvio == Some(f.dataEnvio)
    ensures dto.autorId == Some(f.autorId) && dto.destinatarioId == Some(f.destinatarioId)
    ensures f.autorId in usuarios ==> dto.autorNome == Some(usuarios[f.autorId].nome)
    ensures f.destinatarioId in usuarios ==> dto.destinatarioNome == Some(usuarios[f.destinatarioId].nome)
    ensures dto.feedbackTextual == f.feedbackTextual && dto.habilidadesUtilizadas == f.habilidadesUtilizadas &&
            dto.dificuldadesEncontradas == f.dificuldadesEncontradas && dto.interessesAprendizado == f.interessesAprendizado
    ensures dto.sentimentoAnalisado == f.sentimentoAnalisado &&
            dto.categoriaDificuldadeAnalisada == f.categoriaDificuldadeAnalisada &&
            dto.metaSugeridaIA == f.metaSugeridaIA && dto.cursoRecomendadoIA == f.cursoRecomendadoIA &&
            dto.mentorIndicadoIA == f.mentorIndicadoIA
  {
    FeedbackDto(Some(f.id), Some(f.autorId), NomeOf(usuarios, f.autorId),
      Some(f.destinatarioId), NomeOf(usuarios, f.destinatarioId),
      f.feedbackTextual, f.habilidadesUtilizadas, f.dificuldadesEncontradas, f.interessesAprendizado,
      Some(f.dataEnvio), f.sentimentoAnalisado, f.categoriaDificuldadeAnalisada,
      f.metaSugeridaIA, f.cursoRecomendadoIA, f.mentorIndicadoIA)
  }

  /** The entity saved for a request whose author and recipient are known, stamped `now`. */
  function NewFeedback(id: int, autorId: int, destinatarioId: int, dto: FeedbackDto, now: int): Feedback {
    var analysed := GeminiService.Analysed(dto);
    Feedback(id, autorId, destinatarioId,
      dto.feedbackTextual, dto.habilidadesUtilizadas, dto.dificuldadesEncontradas, dto.interessesAprendizado,
      now, analysed.sentimentoAnalisado, analysed.categoriaDificuldadeAnalisada,
      analysed.metaSugeridaIA, analysed.cursoRecomendadoIA, analysed.mentorIndicadoIA)
  }

  /** Both ids of the request are given and name stored users. */
  predicate KnownParties(db: Db, dto: FeedbackDto) {
    dto.autorId.Some? && dto.autorId.value in db.usuarios &&
    dto.destinatarioId.Some? && dto.destinatarioId.value in db.usuarios
  }

  /**
   * `criarFeedback`. The author is looked up first, then the recipient: a null id makes `findById`
   * throw, an unknown one the service's own exception naming it, and nothing is saved. Otherwise
   * exactly one feedback is added under the next identity value, from the given author to the
   * given recipient, with the four text fields copied and the analysis fields as the keyword rule
   * left them on the request.
   */
  function AfterCriarFeedback(db: Db, dto: FeedbackDto, now: int): (r: (Db, Result<FeedbackDto, Failure>))
    ensures dto.autorId.None? ==> r == (db, Err(NullId))
    ensures dto.autorId.Some? && dto.autorId.value !in db.usuarios ==>
      r == (db, Err(NotFoundError(AUTHOR_NOT_FOUND, dto.autorId.value)))
    ensures dto.autorId.Some? && dto.autorId.value in db.usuarios && dto.destinatarioId.None? ==>
      r == (db, Err(NullId))
    ensures dto.autorId.Some? && dto.autorId.value in db.usuarios &&
            dto.destinatarioId.Some? && dto.destinatarioId.value !in db.usuarios ==>
      r == (db, Err(NotFoundError(RECIPIENT_NOT_FOUND, dto.destinatarioId.value)))
    ensures r.1.Ok? <==> KnownParties(db, dto)
    ensures r.1.Ok? ==> (KnownParties(db, dto) && db.nextFeedbackId in r.0.feedbacks &&
      var id := db.nextFeedbackId;
      var f := r.0.feedbacks[id];
      var analysed := GeminiService.Analysed(dto);
      r.0 == db.(feedbacks := db.feedbacks[id := f], nextFeedbackId := id + 1) &&
      f.id == id && f.autorId == dto.autorId.value && f.destinatarioId == dto.destinatarioId.value &&
      f.feedbackTextual == dto.feedbackTextual && f.habilidadesUtilizadas == dto.habilidadesUtilizadas &&
      f.dificuldadesEncontradas == dto.dificuldadesEncontradas && f.interessesAprendizado == dto.interessesAprendizado &&
      f.dataEnvio == now &&
      f.sentimentoAnalisado == analysed.sentimentoAnalisado &&
      f.categoriaDificuldadeAnalisada == analysed.categoriaDificuldadeAnalisada &&
      f.metaSugeridaIA == analysed.metaSugeridaIA && f.cursoRecomendadoIA == analysed.cursoRecomendadoIA &&
      f.mentorIndicadoIA == dto.mentorIndicadoIA &&
      r.1.value == ConvertToDto(db.usuarios, f))
  {
    if dto.autorId.None? then (db, Err(NullId))
    else if dto.autorId.value !in db.usuarios then (db, Err(NotFoundError(AUTHOR_NOT_FOUND, dto.autorId.value)))
    else if dto.destinatarioId.None? then (db, Err(NullId))
    else if dto.destinatarioId.value !in db.usuarios then
      (db, Err(NotFoundError(RECIPIENT_NOT_FOUND, dto.destinatarioId.value)))
    else
      var f := NewFeedback(db.nextFeedbackId, dto.autorId.value, dto.destinatarioId.value, dto, now);
      (db.(feedbacks := db.feedbacks[f.id := f], nextFeedbackId := f.id + 1), Ok(ConvertToDto(db.usuarios, f)))
  }

  /** Creating a feedback keeps every schema constraint, and the response names both parties. */
  lemma CriarFeedbackKeepsValid(db: Db, dto: FeedbackDto, now: int)
    requires Valid(db)
    ensures Valid(AfterCriarFeedback(db, dto, now).0)
    ensures var r := AfterCriarFeedback(db, dto, now);
            r.1.Ok? ==> r.1.value.autorNome.Some? && r.1.value.destinatarioNome.Some?
  {
    var r := AfterCriarFeedback(db, dto, now);
    if r.1.Ok? {
      assert db.nextFeedbackId !in db.feedbacks;
    }
  }

  /** A successful create adds exactly one feedback; a failed one adds none. */
  lemma CriarFeedbackAddsExactlyOne(db: Db, dto: FeedbackDto, now: int)
    requires Valid(db)
    ensures var r := AfterCriarFeedback(db, dto, now);
            |r.0.feedbacks| == if r.1.Ok? then |db.feedbacks| + 1 else |db.feedbacks|
  {
    var r := AfterCriarFeedback(db, dto, now);
    if r.1.Ok? {
      assert db.nextFeedbackId !in db.feedbacks;
      assert r.0.feedbacks.Keys == db.feedbacks.Keys + {db.nextFeedbackId};
    }
  }

  /** A feedback whose text mentions a difficulty is stored with the negative verdict and a course. */
  lemma DifficultFeedbackIsStoredNegative(db: Db, dto: FeedbackDto, now: int)
    requires KnownParties(db, dto) && GeminiService.MentionsDifficulty(dto.feedbackTextual)
    ensures var r := AfterCriarFeedback(db, dto, now);
            r.1.Ok? && r.1.value.sentimentoAnalisado == Some(GeminiService.NEGATIVE) &&
            r.1.value.cursoRecomendadoIA == Some(GeminiService.PRODUCTIVITY_COURSE)
  {
  }

  /** `listarFeedbacksPorDestinatario`: an unknown recipient throws; otherwise the DTOs of exactly its feedbacks. */
  function ListarFeedbacksPorDestinatario(db: Db, destinatarioId: int): (r: Result<set<FeedbackDto>, Failure>)
    requires Valid(db)
    ensures destinatarioId !in db.usuarios ==> r == Err(NotFoundError(RECIPIENT_NOT_FOUND, destinatarioId))
    ensures destinatarioId in db.usuarios ==> r.Ok?
    ensures r.Ok? ==> forall d :: d in r.value <==>
      exists f :: f in db.feedbacks.Values && f.destinatarioId == destinatarioId && d == ConvertToDto(db.usuarios, f)
  {
    if destinatarioId !in db.usuarios then Err(NotFoundError(RECIPIENT_NOT_FOUND, destinatarioId))
    else
      var received := FeedbackRepository.FindByDestinatario(db.feedbacks, db.usuarios[destinatarioId]);
      var dtos := Sets.Image(received, f => ConvertToDto(db.usuarios, f));
      assert forall f :: f in received ==> ConvertToDto(db.usuarios, f) in dtos;
      Ok(dtos)
  }

  /** Every feedback listed for a recipient is addressed to that recipient. */
  lemma ListedFeedbacksAreAddressedToTheRecipient(db: Db, destinatarioId: int, d: FeedbackDto)
    requires Valid(db) && destinatarioId in db.usuarios
    requires d in ListarFeedbacksPorDestinatario(db, destinatarioId).value
    ensures d.destinatarioId == Some(destinatarioId)
  {
    var f :| f in db.feedbacks.Values && f.destinatarioId == destinatarioId && d == ConvertToDto(db.usuarios, f);
  }

  /** `listarTodosFeedbacks`: the DTO of every stored feedback (`findAll` fixes no order). */
  function ListarTodosFeedbacks(db: Db): (dtos: set<FeedbackDto>)
    ensures forall f :: f in db.feedbacks.Values ==> ConvertToDto(db.usuarios, f) in dtos
    ensures forall d :: d in dtos ==> exists f :: f in db.feedbacks.Values && d == ConvertToDto(db.usuarios, f)
  {
    Sets.Image(db.feedbacks.Values, f => ConvertToDto(db.usuarios, f))
  }

  function IdOf(f: Feedback): int {
    f.id
  }

  /** One DTO per stored feedback, each naming its author and recipient. */
  lemma ListingHasOneDtoPerFeedback(db: Db)
    requires Valid(db)
    ensures |ListarTodosFeedbacks(db)| == |db.feedbacks|
    ensures forall d :: d in ListarTodosFeedbacks(db) ==> d.autorNome.Some? && d.destinatarioNome.Some?
  {
    var convert := f => ConvertToDto(db.usuarios, f);
    assert forall k :: k in db.feedbacks ==> IdOf(db.feedbacks[k]) == k;
    Sets.KeyedValuesCount(db.feedbacks, IdOf);
    assert Sets.InjectiveOn(db.feedbacks.Values, convert) by {
      forall f, g | f in db.feedbacks.Values && g in db.feedbacks.Values && convert(f) == convert(g)
        ensures f == g
      {
        var kf :| kf in db.feedbacks && db.feedbacks[kf] == f;
        var kg :| kg in db.feedbacks && db.feedbacks[kg] == g;
      }
    }
    Sets.ImageOfInjectiveKeepsSize(db.feedbacks.Values, convert);
    forall d | d in ListarTodosFeedbacks(db)
      ensures d.autorNome.Some? && d.destinatarioNome.Some?
    {
      var f :| f in db.feedbacks.Values && d == ConvertToDto(db.usuarios, f);
      var k :| k in db.feedbacks && db.feedbacks[k] == f;
    }
  }

  /** The service as Spring wires it: the repositories it reads and writes. */
  class Service {
    const repos: Repositories

    constructor (repos: Repositories)
      ensures this.repos == repos
    {
      this.repos := repos;
    }

    /** `criarFeedback`, with `now` the time the entity is persisted. */
    method CriarFeedback(feedbackDto: FeedbackDto, now: int) returns (result: Result<FeedbackDto, Failure>)
      modifies repos
      ensures (repos.State(), result) == AfterCriarFeedback(old(repos.State()), feedbackDto, now)
    {
      if feedbackDto.autorId.None? {
        return Err(NullId);
      }
      if feedbackDto.autorId.value !in repos.usuarios {
        return Err(NotFoundError(AUTHOR_NOT_FOUND, feedbackDto.autorId.value));
      }
      var autorId := feedbackDto.autorId.value;
      if feedbackDto.destinatarioId.None? {
        return Err(NullId);
      }
      if feedbackDto.destinatarioId.value !in repos.usuarios {
        return Err(NotFoundError(RECIPIENT_NOT_FOUND, feedbackDto.destinatarioId.value));
      }
      var destinatarioId := feedbackDto.destinatarioId.value;

      var feedback := Feedback(0, autorId, destinatarioId, None, None, None, None, now, None, None, None, None, None);
      feedback := feedback.(feedbackTextual := feedbackDto.feedbackTextual);
      feedback := feedback.(habilidadesUtilizadas := feedbackDto.habilidadesUtilizadas);
      feedback := feedback.(dificuldadesEncontradas := feedbackDto.dificuldadesEncontradas);
      feedback := feedback.(interessesAprendizado := feedbackDto.interessesAprendizado);

      var analysed := GeminiService.AnalisarFeedbackComIA(feedbackDto);

      feedback := feedback.(sentimentoAnalisado := analysed.sentimentoAnalisado);
      feedback := feedback.(categoriaDificuldadeAnalisada := analysed.categoriaDificuldadeAnalisada);
      feedback := feedback.(metaSugeridaIA := analysed.metaSugeridaIA);
      feedback := feedback.(cursoRecomendadoIA := analysed.cursoRecomendadoIA);
      feedback := feedback.(mentorIndicadoIA := analysed.mentorIndicadoIA);

      feedback := feedback.(id := repos.nextFeedbackId);
      repos.feedbacks := repos.feedbacks[feedback.id := feedback];
      repos.nextFeedbackId := repos.nextFeedbackId + 1;
      result := Ok(ConvertToDto(repos.usuarios, feedback));
    }
  }
}
