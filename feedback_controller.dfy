/**
 * `POST /api/feedbacks` (backend/.../controller/FeedbackController.java): any authenticated caller
 * may create a feedback; the author is the caller unless an administrator names another author.
 * The request body's `autorId` is overwritten in place before the service is called.
 */
module FeedbackController {
  import opened Wrappers
  import opened Model
  import opened Store
  import opened Dto
  import opened Web
  import FeedbackService

  /**
   * `isAdmin`: `anyMatch` over the caller's authorities, in the order Spring hands them over,
   * looking for `ROLE_ADMIN`.
   */
  function IsAdmin(authorities: seq<string>): (b: bool)
    ensures b <==> ROLE_ADMIN in authorities
  {
    if authorities == [] then false
    else authorities[0] == ROLE_ADMIN || IsAdmin(authorities[1..])
  }

  /** The author the request is saved with: the caller, unless an admin supplied an author. */
  function EffectiveAutorId(given: Option<int>, callerId: int, isAdmin: bool): (autorId: int)
    ensures !isAdmin ==> autorId == callerId
    ensures isAdmin && given.None? ==> autorId == callerId
    ensures isAdmin && given.Some? ==> autorId == given.value
  {
    if given.None? || !isAdmin then callerId else given.value
  }

  /**
   * `criarFeedback`: the service's outcome on the request with its author fixed. Success answers
   * `201 Created` with the new feedback; the service's exceptions are not caught here, so they
   * reach the client as a server error.
   */
  function AfterCriarFeedback(db: Db, dto: FeedbackDto, principalId: int, authorities: seq<string>, now: int)
    : (r: (Db, Reply<FeedbackDto>))
    ensures var request := dto.(autorId := Some(EffectiveAutorId(dto.autorId, principalId, IsAdmin(authorities))));
            var served := FeedbackService.AfterCriarFeedback(db, request, now);
            r.0 == served.0 &&
            (served.1.Ok? ==> r.1 == Created(served.1.value)) &&
            (served.1.Err? ==> r.1 == ServerError(served.1.error))
  {
    var request := dto.(autorId := Some(EffectiveAutorId(dto.autorId, principalId, IsAdmin(authorities))));
    var (db', outcome) := FeedbackService.AfterCriarFeedback(db, request, now);
    match outcome
    case Ok(created) => (db', Created(created))
    case Err(e) => (db', ServerError(e))
  }

  /** A caller who is not an administrator always authors the feedback, whatever author the body names. */
  lemma NonAdminAuthorsAsSelf(db: Db, dto: FeedbackDto, principalId: int, authorities: seq<string>, now: int)
    requires ROLE_ADMIN !in authorities
    requires principalId in db.usuarios && dto.destinatarioId.Some? && dto.destinatarioId.value in db.usuarios
    ensures var r := AfterCriarFeedback(db, dto, principalId, authorities, now);
            r.1.Created? && r.1.body.autorId == Some(principalId) && StatusCode(r.1) == 201
  {
    var request := dto.(autorId := Some(principalId));
    assert FeedbackService.KnownParties(db, request);
  }

  /** An administrator who names an author keeps it; one who names none authors the feedback. */
  lemma AdminChoosesTheAutor(db: Db, dto: FeedbackDto, principalId: int, authorities: seq<string>, now: int)
    requires ROLE_ADMIN in authorities
    ensures var r := AfterCriarFeedback(db, dto, principalId, authorities, now);
            var author := if dto.autorId.Some? then dto.autorId.value else principalId;
            r.1.Created? <==>
              author in db.usuarios && dto.destinatarioId.Some? && dto.destinatarioId.value in db.usuarios
    ensures var r := AfterCriarFeedback(db, dto, principalId, authorities, now);
            r.1.Created? ==> r.1.body.autorId == Some(if dto.autorId.Some? then dto.autorId.value else principalId)
  {
  }

  /** The controller as Spring wires it. */
  class Controller {
    const service: FeedbackService.Service

    constructor (service: FeedbackService.Service)
      ensures this.service == service
    {
      this.service := service;
    }

    /** The handler; `now` is when the feedback is persisted. */
    method CriarFeedback(feedbackDto: FeedbackDto, principalId: int, authorities: seq<string>, now: int)
      returns (response: Reply<FeedbackDto>)
      modifies service.repos
      ensures (service.repos.State(), response) ==
              AfterCriarFeedback(old(service.repos.State()), feedbackDto, principalId, authorities, now)
    {
      var request := feedbackDto;
      var isAdmin := IsAdmin(authorities);
      if request.autorId.None? || !isAdmin {
        request := request.(autorId := Some(principalId));
      }
      var novoFeedback := service.CriarFeedback(request, now);
      match novoFeedback
      case Ok(created) => response := Created(created);
      case Err(e) => response := ServerError(e);
    }
  }
}
