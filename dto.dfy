/**
 * The request and response bodies of the backend (backend/.../dto) as the services use them. Every
 * field of a DTO may be `null` in Java; a field the model never sees null stays a plain value.
 *
 * `UsuarioDto.roles` is the set of role names the user service writes; see README for how this
 * differs from the DTO class's declared `role` field.
 */
module Dto {
  import opened Wrappers

  datatype UsuarioDto = UsuarioDto(
    id: Option<int>,
    nome: string,
    email: string,
    senha: Option<string>,
    cargo: Option<string>,
    area: Option<string>,
    roles: set<string>)

  datatype FeedbackDto = FeedbackDto(
    id: Option<int>,
    autorId: Option<int>,
    autorNome: Option<string>,
    destinatarioId: Option<int>,
    destinatarioNome: Option<string>,
    feedbackTextual: Option<string>,
    habilidadesUtilizadas: Option<string>,
    dificuldadesEncontradas: Option<string>,
    interessesAprendizado: Option<string>,
    dataEnvio: Option<int>,
    sentimentoAnalisado: Option<string>,
    categoriaDificuldadeAnalisada: Option<string>,
    metaSugeridaIA: Option<string>,
    cursoRecomendadoIA: Option<string>,
    mentorIndicadoIA: Option<string>)

  datatype MetaPdiDto = MetaPdiDto(
    id: Option<int>,
    descricaoMeta: Option<string>,
    acoesNecessarias: Option<string>,
    prazo: Option<int>,
    concluida: bool,
    recursosNecessarios: Option<string>,
    feedbackMeta: Option<string>)

  /** A fresh `new MetaPDIDTO()`: every reference field null, `concluida` false. */
  const EMPTY_META := MetaPdiDto(None, None, None, None, false, None, None)
}
