# PROGRESS — a Dafny model of the dashboard's core

PROGRESS is a dashboard for individual development plans (PDIs) and for feedback between colleagues.
A Spring backend stores users, roles, PDIs and feedbacks. A Next.js frontend signs users in, shows a
role-dependent sidebar, lists and edits PDIs, and gives administrators a summary dashboard. This
project models the core of both halves and proves what they promise.

Backend (one module per source file):

- `Model`: the entities `Usuario`, `Role`, `PDI` (with `StatusPDI`) and `Feedback`, and the
  `UserDetails` view of a user.
- `Store`: the database as a class `Repositories`. It holds maps from fresh ids to rows and keeps the
  schema's constraints in `Valid()`: unique e-mails, unique role names and references that resolve.
  Deleting a user cascades to their feedbacks and PDIs; that cascade is `UsuarioService.WithoutUsuario`.
- `UsuarioRepository`, `FeedbackRepository`, `PdiRepository`: the derived queries and the two
  `GROUP BY` queries, as functions of the database.
- `GeminiService`: the keyword-based feedback analysis and the two suggested goals.
- `UsuarioService`, `FeedbackService`, `DataInitializer`: each write operation is a pure
  `After…(db, …)` function stating the new database and the result, and a method on a class over
  `Repositories` that performs the steps in order and is proved equal to it.
- `UsuarioController`, `FeedbackController`: the role checks of `@PreAuthorize`, and the HTTP status of
  each handler (`Web`).
- `DashboardService`: the administrator's summary.

Frontend:

- `Auth`: the `AuthProvider` (start-up restore from storage, the redirect effect, login, logout).
- `Sidebar`, `DashboardLayout`, `HomePage`, `LoginPage`: the route guards and what each page renders.
- `ApiService`: headers, error handling, URLs and query strings.
- `PdisPage`: the PDI form dialog and the page's save handler.
- `DashboardPage`: the admin dashboard page and its fetch effect.

`Text`, `Seqs` and `Sets` hold the string, sequence and set facts these need. `Text` includes the
JavaScript and Java library behaviour the source relies on: `String.replace`, `trim`, `parseInt`,
`String(n)`, `toLowerCase` and `URLSearchParams`.

## Model

| member | source | states |
|---|---|---|
| Model.StatusName | backend/src/main/java/com/progress/progress_api/model/PDI.java:34-47 | Each status is stored under its enum name (`PLANEJADO`, `EM_ANDAMENTO`, ...). |
| Model.StatusNamesAreDistinct | backend/src/main/java/com/progress/progress_api/model/PDI.java:41-47 | Two statuses stored under the same name are the same status, so the stored column identifies the enum value. |
| Model.GetAuthorities | backend/src/main/java/com/progress/progress_api/model/Usuario.java:58-63 | Every role of the user yields an authority named by the role's name, every authority comes from a role, and there are no more authorities than roles. |
| Model.OneAuthorityPerRole | backend/src/main/java/com/progress/progress_api/model/Usuario.java:58-63 | With role names unique, as the `roles` table requires, there are exactly as many authorities as roles. |
| Model.GetUsername | backend/src/main/java/com/progress/progress_api/model/Usuario.java:70-73 | The username a user signs in with is their email. |
| Model.GetPassword | backend/src/main/java/com/progress/progress_api/model/Usuario.java:65-68 | The password Spring Security checks is the stored, encoded one. |
| Model.IsAccountNonExpired | backend/src/main/java/com/progress/progress_api/model/Usuario.java:76-79 | No account ever expires. |
| Model.IsAccountNonLocked | backend/src/main/java/com/progress/progress_api/model/Usuario.java:81-84 | No account is ever locked. |
| Model.IsCredentialsNonExpired | backend/src/main/java/com/progress/progress_api/model/Usuario.java:86-89 | No credentials ever expire. |
| Model.IsEnabled | backend/src/main/java/com/progress/progress_api/model/Usuario.java:91-94 | Every account is enabled. |
| Store.NotFoundError | backend/src/main/java/com/progress/progress_api/service/FeedbackService.java:28-31 | The not-found exception is a `RuntimeException` whose message is the fixed text followed by the id, and the id can be read back from the message. |
| Store.FindRoleByName | backend/src/main/java/com/progress/progress_api/repository/RoleRepository.java:15 | `findByName` finds a role exactly when some stored role has that name, and what it finds is a stored role with that name. |
| UsuarioRepository.FindByEmail | backend/src/main/java/com/progress/progress_api/repository/UsuarioRepository.java:15-16 | `findByEmail` finds a user exactly when `existsByEmail` holds, and the user found is stored and has that email. |
| UsuarioRepository.FindByUsername | backend/src/main/java/com/progress/progress_api/repository/UsuarioRepository.java:15 | A stored user is found again by email from their own username. |
| UsuarioRepository.CountByRolesName | backend/src/main/java/com/progress/progress_api/repository/UsuarioRepository.java:29 | `countByRoles_Name` is the number of users holding a role of that name. It never exceeds the number of users, and it is zero exactly when nobody holds the role. |
| UsuarioRepository.CountUsuariosByRole | backend/src/main/java/com/progress/progress_api/repository/UsuarioRepository.java:36-37 | There is one row per role name held by some user. Each row holds that role's `countByRoles_Name` count, between 1 and the number of users. |
| UsuarioRepository.EveryHeldRoleIsCounted | backend/src/main/java/com/progress/progress_api/repository/UsuarioRepository.java:36-37 | The join counts every role of every user: its name has a row, and the user is among that role's holders. |
| FeedbackRepository.FindByAutor | backend/src/main/java/com/progress/progress_api/repository/FeedbackRepository.java:13 | `findByAutor` returns exactly the stored feedbacks written by that user. |
| FeedbackRepository.FindByDestinatario | backend/src/main/java/com/progress/progress_api/repository/FeedbackRepository.java:14 | `findByDestinatario` returns exactly the stored feedbacks addressed to that user. |
| FeedbackRepository.FindByAutorAndDestinatario | backend/src/main/java/com/progress/progress_api/repository/FeedbackRepository.java:15 | The combined query is the intersection of the two single-field queries. |
| FeedbackRepository.NewestFirst | backend/src/main/java/com/progress/progress_api/repository/FeedbackRepository.java:23 | The newest `k` feedbacks, up to as many as exist. The list has no repeats, is sorted newest first, and no feedback left out is newer than any it keeps. |
| FeedbackRepository.FindTop5ByOrderByDataEnvioDesc | backend/src/main/java/com/progress/progress_api/repository/FeedbackRepository.java:19-23 | At most five stored feedbacks, fewer only when fewer exist. No repeats, sorted by `dataEnvio` descending, and none left out is newer than one returned. |
| FeedbackRepository.TopFiveIsFullAndLedByTheNewest | backend/src/main/java/com/progress/progress_api/repository/FeedbackRepository.java:23 | With five or more feedbacks stored, exactly five come back, and the first is the newest of all. |
| FeedbackRepository.StrictlyNewestIsReturned | backend/src/main/java/com/progress/progress_api/repository/FeedbackRepository.java:23 | A feedback strictly newer than every other is always returned. |
| PdiRepository.FindByColaboradorId | backend/src/main/java/com/progress/progress_api/repository/PDIRepository.java:15 | `findByColaboradorId` returns exactly the stored PDIs of that collaborator. |
| PdiRepository.FindByColaborador | backend/src/main/java/com/progress/progress_api/repository/PDIRepository.java:14 | `findByColaborador` agrees with `findByColaboradorId` on the entity's id. |
| PdiRepository.CountByStatus | backend/src/main/java/com/progress/progress_api/repository/PDIRepository.java:25 | `countByStatus(s)` is the number of PDIs whose status is stored under the name `s`, and it is zero exactly when there is none. |
| PdiRepository.CountOfNonStatusIsZero | backend/src/main/java/com/progress/progress_api/repository/PDIRepository.java:19-25 | A string that names no status counts zero, whatever is stored. |
| PdiRepository.CountPDIsByStatus | backend/src/main/java/com/progress/progress_api/repository/PDIRepository.java:32-33 | `GROUP BY p.status` yields one row per status present, `NULL` included, and each row counts the PDIs with that status, at least one. |
| PdiRepository.RowsPartition | backend/src/main/java/com/progress/progress_api/repository/PDIRepository.java:32-33 | For distinct statuses, the row counts add up to the number of PDIs holding any of those statuses. |
| PdiRepository.GroupedCountsSumToTotal | backend/src/main/java/com/progress/progress_api/repository/PDIRepository.java:32-33 | The grouped rows partition the table: their counts add up to the number of PDIs. |
| GeminiService.Analysed | backend/src/main/java/com/progress/progress_api/service/GeminiService.java:13-27 | A text mentioning `difícil` in any case gets the negative verdict, the category `Gestão de Tarefas`, the organisation goal and the course. Any other text, null included, gets the positive verdict, `N/A` and the keep-going goal with the course untouched. No other field changes. |
| GeminiService.AnalisarFeedbackComIA | backend/src/main/java/com/progress/progress_api/service/GeminiService.java:13-27 | Running the setters in order leaves the DTO as the analysis rule says. |
| GeminiService.AnalysisIsIdempotent | backend/src/main/java/com/progress/progress_api/service/GeminiService.java:16-25 | Analysing twice gives the same DTO as analysing once. |
| GeminiService.KeywordFoundInAnyCase | backend/src/main/java/com/progress/progress_api/service/GeminiService.java:16 | The keyword is detected whatever its capitalisation and whatever text surrounds it. |
| GeminiService.CapitalisedKeywordsLowerToKeyword | backend/src/main/java/com/progress/progress_api/service/GeminiService.java:16 | `DIFÍCIL` and `Difícil` lower-case to the keyword, accented capital included. |
| GeminiService.JavaString | backend/src/main/java/com/progress/progress_api/service/GeminiService.java:35 | String concatenation writes a null objective as `null`. |
| GeminiService.Between | backend/src/main/java/com/progress/progress_api/service/GeminiService.java:35-41 | The middle of a string between a known prefix and suffix is recovered exactly when the string has that shape. |
| GeminiService.SugerirMetasPDIPorIA | backend/src/main/java/com/progress/progress_api/service/GeminiService.java:30-48 | Exactly two goals, in order. Each names the objective (or `null`) between its fixed prefix and suffix and carries its fixed actions and resources. Every other field is as `new MetaPDIDTO()` leaves it. |
| UsuarioService.ConvertToDto | backend/src/main/java/com/progress/progress_api/service/UsuarioService.java:133-144 | The DTO carries the user's id, name, email, position, area and role names, and never the password. |
| UsuarioService.AfterCriarUsuario | backend/src/main/java/com/progress/progress_api/service/UsuarioService.java:33-58 | Checks run in order: taken email, then null password, then missing collaborator role, each failing with no change. The call succeeds exactly when the email is free, a password is given and the collaborator role exists. Success adds exactly one user under a fresh id, with the given fields, the encoded password and `ROLE_COLLABORATOR` as its only role. |
| UsuarioService.CriarUsuarioKeepsValid | backend/src/main/java/com/progress/progress_api/service/UsuarioService.java:33-58 | Creation keeps the schema constraints, and the new user's password is the encoded one. |
| UsuarioService.DuplicateEmailIsRejected | backend/src/main/java/com/progress/progress_api/service/UsuarioService.java:34-36 | An email already stored is rejected with its message and changes nothing. |
| UsuarioService.AfterCriarAdminSeNaoExistir | backend/src/main/java/com/progress/progress_api/service/UsuarioService.java:61-82 | With `admin@admin.com` present nothing happens. Otherwise a missing admin role throws, and an existing one leads to exactly one administrator being added with the fixed name, encoded password, position, area and `ROLE_ADMIN`. |
| UsuarioService.AdminSeedKeepsValid | backend/src/main/java/com/progress/progress_api/service/UsuarioService.java:61-82 | The admin seed keeps the schema constraints. |
| UsuarioService.AdminSeedIsIdempotent | backend/src/main/java/com/progress/progress_api/service/UsuarioService.java:62 | After a successful seed, seeding again changes nothing and succeeds. |
| UsuarioService.ListarTodosUsuarios | backend/src/main/java/com/progress/progress_api/service/UsuarioService.java:87-91 | The listing holds the DTO of every stored user and nothing else, with no password in any entry. |
| UsuarioService.ListingHasOneDtoPerUser | backend/src/main/java/com/progress/progress_api/service/UsuarioService.java:87-91 | The listing has exactly one entry per stored user. |
| UsuarioService.BuscarUsuarioPorId | backend/src/main/java/com/progress/progress_api/service/UsuarioService.java:98-101 | A user is found exactly when the id is stored, and the result is that user's DTO. |
| UsuarioService.BuscarUsuarioPorEmail | backend/src/main/java/com/progress/progress_api/service/UsuarioService.java:93-96 | A user is found exactly when a user has that email, and the result is the DTO of that stored user: its email and no password. |
| UsuarioService.NewSenha | backend/src/main/java/com/progress/progress_api/service/UsuarioService.java:115-118 | A given, non-empty password is stored encoded; otherwise the old one stays. |
| UsuarioService.AfterAtualizarUsuario | backend/src/main/java/com/progress/progress_api/service/UsuarioService.java:105-122 | An unknown id throws and another user's email fails. Otherwise only that user changes: name, email, position and area replaced, roles and id kept, password per the keep-old rule. |
| UsuarioService.AtualizarUsuarioKeepsValid | backend/src/main/java/com/progress/progress_api/service/UsuarioService.java:105-122 | An update keeps the schema constraints. |
| UsuarioService.UpdateWithoutPasswordKeepsIt | backend/src/main/java/com/progress/progress_api/service/UsuarioService.java:116-118 | An update with a null or empty password leaves the stored password as it was. |
| UsuarioService.AfterDeletarUsuario | backend/src/main/java/com/progress/progress_api/service/UsuarioService.java:124-130 | An unknown id throws and changes nothing. Otherwise exactly that user is removed, with the feedbacks and PDIs that reference it, and every other row is unchanged. |
| UsuarioService.DeletarUsuarioKeepsValid | backend/src/main/java/com/progress/progress_api/service/UsuarioService.java:124-130 | Deletion keeps the schema constraints: nothing is left pointing at the removed user. |
| UsuarioService.Service.CriarUsuario | backend/src/main/java/com/progress/progress_api/service/UsuarioService.java:33-58 | The step-by-step creation leaves the repositories and the result as `AfterCriarUsuario` says: it succeeds exactly for a free email, a given password and a seeded collaborator role. |
| UsuarioService.Service.CriarAdminSeNaoExistir | backend/src/main/java/com/progress/progress_api/service/UsuarioService.java:61-82 | The step-by-step seed leaves the repositories and the result as `AfterCriarAdminSeNaoExistir` says. |
| UsuarioService.Service.AtualizarUsuario | backend/src/main/java/com/progress/progress_api/service/UsuarioService.java:105-122 | The step-by-step update leaves the repositories and the result as `AfterAtualizarUsuario` says. |
| UsuarioService.Service.DeletarUsuario | backend/src/main/java/com/progress/progress_api/service/UsuarioService.java:124-130 | The step-by-step deletion leaves the repositories and the result as `AfterDeletarUsuario` says. |
| FeedbackService.NomeOf | backend/src/main/java/com/progress/progress_api/service/FeedbackService.java:75-77 | A party's name is present exactly when that user is stored, and is that user's name. |
| FeedbackService.ConvertToDto | backend/src/main/java/com/progress/progress_api/service/FeedbackService.java:71-89 | The DTO carries every column of the feedback, both party ids, and the names of the stored parties. |
| FeedbackService.AfterCriarFeedback | backend/src/main/java/com/progress/progress_api/service/FeedbackService.java:27-53 | A null or unknown author fails first, then a null or unknown recipient, each with no change. The create succeeds exactly when both parties are stored, and then adds exactly one feedback: stamped `now`, texts copied, analysis fields from the keyword rule. |
| FeedbackService.CriarFeedbackKeepsValid | backend/src/main/java/com/progress/progress_api/service/FeedbackService.java:27-53 | Creating a feedback keeps the schema constraints, and the response names both parties. |
| FeedbackService.CriarFeedbackAddsExactlyOne | backend/src/main/java/com/progress/progress_api/service/FeedbackService.java:51 | A successful create adds one row; a failed one adds none. |
| FeedbackService.DifficultFeedbackIsStoredNegative | backend/src/main/java/com/progress/progress_api/service/FeedbackService.java:42-48 | A feedback between known users whose text mentions a difficulty is stored as negative, with the course. |
| FeedbackService.ListarFeedbacksPorDestinatario | backend/src/main/java/com/progress/progress_api/service/FeedbackService.java:56-62 | An unknown recipient throws. Otherwise the result holds exactly the DTOs of the feedbacks addressed to that recipient. |
| FeedbackService.ListedFeedbacksAreAddressedToTheRecipient | backend/src/main/java/com/progress/progress_api/service/FeedbackService.java:56-62 | Every listed DTO is addressed to the requested recipient. |
| FeedbackService.ListarTodosFeedbacks | backend/src/main/java/com/progress/progress_api/service/FeedbackService.java:65-69 | The listing holds the DTO of every stored feedback and nothing else. |
| FeedbackService.ListingHasOneDtoPerFeedback | backend/src/main/java/com/progress/progress_api/service/FeedbackService.java:65-69 | The listing has exactly one entry per stored feedback, each naming both parties. |
| FeedbackService.Service.CriarFeedback | backend/src/main/java/com/progress/progress_api/service/FeedbackService.java:27-53 | The step-by-step creation leaves the repositories and the result as `AfterCriarFeedback` says. |
| FeedbackController.IsAdmin | backend/src/main/java/com/progress/progress_api/controller/FeedbackController.java:31-33 | `anyMatch` over the authorities holds exactly when `ROLE_ADMIN` is among them. |
| FeedbackController.EffectiveAutorId | backend/src/main/java/com/progress/progress_api/controller/FeedbackController.java:38-40 | A non-admin always authors as the caller. An admin keeps a given author and falls back to the caller when none is given. |
| FeedbackController.AfterCriarFeedback | backend/src/main/java/com/progress/progress_api/controller/FeedbackController.java:26-44 | The service runs on the request with its author fixed. Success answers 201 with the created feedback; a service exception escapes as a server error. |
| FeedbackController.NonAdminAuthorsAsSelf | backend/src/main/java/com/progress/progress_api/controller/FeedbackController.java:38-43 | A non-admin's feedback to a stored recipient is created with the caller as author, whatever author the body names, and answers 201. |
| FeedbackController.AdminChoosesTheAutor | backend/src/main/java/com/progress/progress_api/controller/FeedbackController.java:38-43 | For an admin, creation succeeds exactly when the chosen author (given, or the caller) and the recipient are stored, and the feedback names that author. |
| FeedbackController.Controller.CriarFeedback | backend/src/main/java/com/progress/progress_api/controller/FeedbackController.java:26-44 | The handler, overwriting the author in place, leaves the repositories and the response as `AfterCriarFeedback` says. |
| UsuarioController.CriarUsuario | backend/src/main/java/com/progress/progress_api/controller/UsuarioController.java:19-28 | A non-admin gets 403 with no change. An admin gets 201 with the created user exactly when the service succeeds, otherwise 400 with the exception. |
| UsuarioController.BuscarUsuarioPorId | backend/src/main/java/com/progress/progress_api/controller/UsuarioController.java:30-36 | A caller who is not admin, gestor or self gets 403. Otherwise 200 with the user's DTO when stored, 404 when not. |
| UsuarioController.BuscarUsuarioPorEmail | backend/src/main/java/com/progress/progress_api/controller/UsuarioController.java:38-44 | A caller who is not admin, gestor or the owner of the email gets 403. Otherwise 200 exactly when the email exists, with the DTO of the stored user who has it, and 404 when it does not. |
| UsuarioController.ListarTodosUsuarios | backend/src/main/java/com/progress/progress_api/controller/UsuarioController.java:46-51 | Admin or gestor gets 200 with the full listing; anyone else 403. |
| UsuarioController.AtualizarUsuario | backend/src/main/java/com/progress/progress_api/controller/UsuarioController.java:53-63 | Anyone but an admin or the user themself gets 403 with no change. Otherwise 200 with the updated user, or 400 with the exception. |
| UsuarioController.DeletarUsuario | backend/src/main/java/com/progress/progress_api/controller/UsuarioController.java:65-72 | A non-admin gets 403 with no change. Otherwise 204 when the service deleted the user, 404 when it refused. |
| UsuarioController.AdminsValidCreateIsCreated | backend/src/main/java/com/progress/progress_api/controller/UsuarioController.java:19-24 | An admin's request with a free email, a password and the collaborator role seeded is answered 201 with a password-free user of that email holding only `ROLE_COLLABORATOR`. |
| UsuarioController.OnlyAdminsCreateOrDelete | backend/src/main/java/com/progress/progress_api/controller/UsuarioController.java:19-20 | A caller without `ROLE_ADMIN` changes nothing through create or delete and is answered 403. |
| UsuarioController.AdminRoleIsRoleAdmin | backend/src/main/java/com/progress/progress_api/controller/UsuarioController.java:20 | `hasRole('ADMIN')` holds exactly for callers granted `ROLE_ADMIN`. |
| UsuarioController.AdminDeleteAnswersByExistence | backend/src/main/java/com/progress/progress_api/controller/UsuarioController.java:65-72 | An admin's delete answers 204 exactly when the user exists, leaves everything unchanged otherwise (404), and removes only that user. |
| UsuarioController.CallersReachTheirOwnRecord | backend/src/main/java/com/progress/progress_api/controller/UsuarioController.java:31 | Reading or updating one's own record is never refused, and reading an existing self answers 200 with one's own id. |
| UsuarioController.OthersRecordsNeedAnElevatedRole | backend/src/main/java/com/progress/progress_api/controller/UsuarioController.java:31 | Without `ROLE_ADMIN` or `ROLE_GESTOR`, another user's record and the listing answer 403. |
| UsuarioController.SeededManagersAreNotGestores | backend/src/main/java/com/progress/progress_api/controller/UsuarioController.java:47 | A caller holding only seeded manager or collaborator roles may not list users nor read another user's record. |
| DashboardService.StatusKey | backend/src/main/java/com/progress/progress_api/service/DashboardService.java:46-47 | Corrected key (see Findings): a grouped status row is keyed by the status's stored name, and a `NULL` status by no name. |
| DashboardService.StatusKeysAreDistinct | backend/src/main/java/com/progress/progress_api/service/DashboardService.java:46-47 | Corrected key: different statuses get different keys, so `toMap` never meets a duplicate key. |
| DashboardService.Collect | backend/src/main/java/com/progress/progress_api/service/DashboardService.java:46-47 | Corrected collection: the map keeps exactly one entry per grouped row, with the row's count. |
| DashboardService.PdisPorStatus | backend/src/main/java/com/progress/progress_api/service/DashboardService.java:46-47 | Corrected `pdisPorStatus`: an entry for exactly the statuses present, each counting the PDIs with that status. |
| DashboardService.PdisPorStatusAsWritten | backend/src/main/java/com/progress/progress_api/service/DashboardService.java:46-47 | As written: the `(String)` cast throws exactly when some PDI has a status, naming a status that is present; otherwise the map is empty for no PDIs and is `null` ↦ number of PDIs otherwise. |
| DashboardService.FeedbacksRecentes | backend/src/main/java/com/progress/progress_api/service/DashboardService.java:50-52 | The recent feedbacks are the DTOs of `findTop5ByOrderByDataEnvioDesc`, position by position. |
| DashboardService.GetAdminDashboardDataCorrected | backend/src/main/java/com/progress/progress_api/service/DashboardService.java:30-60 | Corrected dashboard: user and PDI totals, the three role totals, grouped role rows, labelled status totals, grouped status rows keyed by name, and at most five recent feedbacks, newest first. |
| DashboardService.GetAdminDashboardData | backend/src/main/java/com/progress/progress_api/service/DashboardService.java:30-60 | As written: it throws exactly when some PDI has a status; when it answers, the answer is the corrected dashboard. |
| DashboardService.NullStatusesCollectAlike | backend/src/main/java/com/progress/progress_api/service/DashboardService.java:46-47 | When no PDI has a status, the as-written cast and the corrected key collect the same map. |
| DashboardService.OneStatusBreaksTheDashboard | backend/src/main/java/com/progress/progress_api/service/DashboardService.java:46-47 | A database whose only PDI is `EM_ANDAMENTO` makes the as-written dashboard throw, where the corrected one has the row `EM_ANDAMENTO` ↦ 1. |
| DashboardService.RoleTotalsAgreeWithGroupedRows | backend/src/main/java/com/progress/progress_api/service/DashboardService.java:32-38 | Each role total is at most the user total and agrees with its grouped row, which is present exactly when the total is not zero. |
| DashboardService.StatusRowsSumToPdiTotal | backend/src/main/java/com/progress/progress_api/service/DashboardService.java:41-47 | Corrected dashboard: the grouped status rows add up to `totalPDIs`. |
| DashboardService.RowSumsAgree | backend/src/main/java/com/progress/progress_api/service/DashboardService.java:46-47 | Corrected collection: summing the collected map gives the same total as summing the query's rows. |
| DashboardService.LabelsAreNotStatusNames | backend/src/main/java/com/progress/progress_api/service/DashboardService.java:42-44 | None of `Em Andamento`, `Concluído`, `Atrasado` is a stored status name. |
| DashboardService.LabelledStatusTotalsAreZero | backend/src/main/java/com/progress/progress_api/service/DashboardService.java:42-44 | `pdisAtivos`, `pdisConcluidos` and `pdisAtrasados` are always zero. |
| DashboardService.ActivePdisAreMissedByTheActiveTotal | backend/src/main/java/com/progress/progress_api/service/DashboardService.java:42-47 | Corrected dashboard: with a PDI in progress, its grouped row counts it while `pdisAtivos` stays zero. |
| DashboardService.RecentFeedbacksLeadWithTheNewest | backend/src/main/java/com/progress/progress_api/service/DashboardService.java:50-52 | With five or more feedbacks stored, five are shown, led by the newest of all. |
| DataInitializer.SeedRole | backend/src/main/java/com/progress/progress_api/config/DataInitializer.java:22-30 | One check-then-save step leaves the role present and the schema valid. A present role changes nothing; a missing one is inserted under the next id. |
| DataInitializer.SeedRoleKeepsTheRest | backend/src/main/java/com/progress/progress_api/config/DataInitializer.java:22-30 | A role step touches only the roles table, and keeps every role and role name already there. |
| DataInitializer.SeededRoles | backend/src/main/java/com/progress/progress_api/config/DataInitializer.java:21-30 | The three role steps keep the schema valid. |
| DataInitializer.SeededRolesArePresent | backend/src/main/java/com/progress/progress_api/config/DataInitializer.java:21-30 | After the three steps all three roles exist, and only the roles table has changed. |
| DataInitializer.PresentRolesAreNotSavedAgain | backend/src/main/java/com/progress/progress_api/config/DataInitializer.java:22-30 | When the three roles already exist, the role steps change nothing. |
| DataInitializer.RunSucceedsAndSeedsEverything | backend/src/main/java/com/progress/progress_api/config/DataInitializer.java:20-34 | A run always succeeds, keeps the schema valid, leaves each seeded role exactly once and the administrator present. |
| DataInitializer.RunIsIdempotent | backend/src/main/java/com/progress/progress_api/config/DataInitializer.java:20-34 | A second run changes nothing and succeeds. |
| DataInitializer.Initializer.SaveRoleIfMissing | backend/src/main/java/com/progress/progress_api/config/DataInitializer.java:22-24 | The look-up-and-save step updates the repositories as `SeedRole` says. |
| DataInitializer.Initializer.Run | backend/src/main/java/com/progress/progress_api/config/DataInitializer.java:20-34 | The run updates the repositories and returns as `AfterRun` says. |
| Auth.Initial | frontend/src/lib/auth.tsx:12-14 | At mount there is no user and no token, loading is on, and no navigation has happened. |
| Auth.AfterRestore | frontend/src/lib/auth.tsx:18-36 | Loading ends on every branch. Two stored, non-empty keys whose user parses are restored exactly. An unparsable user removes both keys. Otherwise nothing else changes. |
| Auth.RedirectTarget | frontend/src/lib/auth.tsx:38-51 | No redirect while loading. An anonymous visitor off `/login` goes to `/login`, and a signed-in user on `/login` goes to `/dashboard`. A redirect happens exactly in those two cases. |
| Auth.AfterLogin | frontend/src/lib/auth.tsx:53-76 | On an answer, memory and storage get the user's four fields and the token, and the router pushes `/dashboard`. When the call throws, the error is re-thrown and nothing changes. |
| Auth.AfterLogout | frontend/src/lib/auth.tsx:78-84 | Logout clears user and token, leaves storage as it was minus the two keys, keeps `loading`, and pushes `/login`. |
| Auth.LogoutIdempotent | frontend/src/lib/auth.tsx:78-84 | Logging out twice is the same as logging out once. |
| Auth.ReloadAfterLogin | frontend/src/lib/auth.tsx:18-76 | A reload after a successful login restores exactly the user and token that login set. |
| Auth.EmptyTokenIsNotASession | frontend/src/lib/auth.tsx:86 | An empty token is kept but is falsy: not authenticated, and not restored on reload. |
| Auth.CorruptedStorageRecovery | frontend/src/lib/auth.tsx:28-33 | A corrupted stored user clears both keys and leaves nobody signed in. |
| Auth.AnonymousVisitorIsSentToLogin | frontend/src/lib/auth.tsx:18-51 | Without a restorable session, every page but `/login` redirects to `/login` once start-up is over. |
| Auth.AuthProvider.constructor | frontend/src/lib/auth.tsx:12-14 | The provider starts in the initial state. |
| Auth.AuthProvider.RestoreFromStorage | frontend/src/lib/auth.tsx:18-36 | The start-up effect updates the state as `AfterRestore` says. |
| Auth.AuthProvider.RedirectEffect | frontend/src/lib/auth.tsx:38-51 | The redirect effect navigates as `RedirectTarget` says. |
| Auth.AuthProvider.Login | frontend/src/lib/auth.tsx:53-76 | The login handler updates the state and re-throws as `AfterLogin` says. |
| Auth.AuthProvider.Logout | frontend/src/lib/auth.tsx:78-84 | The logout handler updates the state as `AfterLogout` says. |
| Sidebar.AccessibleNavItems | frontend/src/components/layout/Sidebar.tsx:24-26 | The visible items are exactly the table entries sharing a role with the user, in table order, and none without a user. |
| Sidebar.AdminSeesEverything | frontend/src/components/layout/Sidebar.tsx:11-16 | `ROLE_ADMIN` sees all four entries. |
| Sidebar.CollaboratorSeesPdisAndFeedbacks | frontend/src/components/layout/Sidebar.tsx:11-16 | `ROLE_COLLABORATOR` sees exactly PDIs and Feedbacks. |
| Sidebar.UsuariosOnlyForAdmin | frontend/src/components/layout/Sidebar.tsx:13 | The Usuários entry is visible exactly when `ROLE_ADMIN` is among the user's roles. |
| Sidebar.ActiveBelowHref | frontend/src/components/layout/Sidebar.tsx:36 | Every path below an entry's `href` highlights it, and `/usuarios...` never highlights PDIs. |
| Sidebar.RoleLabel | frontend/src/components/layout/Sidebar.tsx:60-63 | No user or no roles gives the fixed text. A first role without `ROLE_` is shown as is. |
| Sidebar.RoleLabelStripsPrefix | frontend/src/components/layout/Sidebar.tsx:60-63 | A first role `ROLE_x` is captioned `x`. |
| DashboardLayout.RedirectTarget | frontend/src/app/dashboard/layout.tsx:18-23 | The layout redirects exactly when loading is over and there is no user, and then to `/login`. |
| DashboardLayout.Render | frontend/src/app/dashboard/layout.tsx:26-42 | Loading shows the loading screen and no user shows nothing. The page is shown exactly for a settled session with a user. |
| DashboardLayout.GuardAgreesWithProvider | frontend/src/app/dashboard/layout.tsx:18-42 | The page shows exactly when no redirect is pending, and off `/login` the layout's redirect is the provider's. |
| HomePage.RedirectTarget | frontend/src/app/page.tsx:12-20 | The root page redirects exactly once loading is over: to `/dashboard` with a user, to `/login` without. |
| HomePage.RootTargetIsStable | frontend/src/app/page.tsx:12-20 | The provider never redirects away from where the root page sends a visitor. |
| LoginPage.RedirectTarget | frontend/src/app/login/page.tsx:17-21 | The sign-in page redirects to `/dashboard` exactly when loading is over and a user is present. |
| LoginPage.SubmitErrorMessage | frontend/src/app/login/page.tsx:30-35 | An error's non-empty message is shown. An empty message gives the default text, and a non-`Error` value gives the unexpected-error text. |
| LoginPage.RedirectOnlyBehindPlaceholder | frontend/src/app/login/page.tsx:17-44 | The page redirects only while the placeholder hides the form, and with the form shown the provider issues no redirect. |
| LoginPage.LoginForm.constructor | frontend/src/app/login/page.tsx:11-12 | The form starts with no error and not loading. |
| LoginPage.LoginForm.HandleSubmit | frontend/src/app/login/page.tsx:23-39 | `login` is called with the error cleared and loading on. Afterwards loading is off and the error is empty on success, or the chosen message. |
| ApiService.EnvOr | frontend/src/lib/apiService.tsx:11 | An unset or empty variable falls back to the default. |
| ApiService.ApiUrl | frontend/src/lib/apiService.tsx:38-45 | Every request URL is the base URL followed by exactly the endpoint. |
| ApiService.GetAuthHeaders | frontend/src/lib/apiService.tsx:13-22 | The JSON content type is always sent. `Authorization: Bearer <token>` is sent exactly when a window exists and a non-empty token is stored, and no other header is sent. |
| ApiService.HandleResponse | frontend/src/lib/apiService.tsx:24-33 | A failure rejects with a non-empty message: the body's message, the status line for a non-JSON body, or the generic text. A success resolves to `null` for 204, otherwise to the body. |
| ApiService.UnreadableBodyGetsStatusLine | frontend/src/lib/apiService.tsx:26-30 | A non-JSON error body never yields the generic text: the message starts with `Erro na API: ` and the status code parses back from what follows. |
| ApiService.LoginUrl | frontend/src/lib/apiService.tsx:78-83 | The sign-in URL is the base with its first `/api` removed, if any, followed by `/auth/login`. |
| ApiService.LoginUrlBreaksApiHost | frontend/src/lib/apiService.tsx:83 | For a base whose host begins with `api.`, the cut falls inside the host. |
| ApiService.LoginUrlCorrected | frontend/src/lib/apiService.tsx:80-83 | The corrected URL drops only a trailing `/api`, then appends `/auth/login`. |
| ApiService.LoginUrlCorrectedDropsTrailingApi | frontend/src/lib/apiService.tsx:80-83 | For a base `origin/api`, the corrected URL is `origin/auth/login`. |
| ApiService.LoginUrlCorrectedKeepsApiHost | frontend/src/lib/apiService.tsx:83 | For a base whose host begins with `api.`, the corrected URL keeps the host whole. |
| ApiService.LoginUrlsDifferOnApiHost | frontend/src/lib/apiService.tsx:83 | On that base the written URL and the corrected one differ. |
| ApiService.LoginUrlOfDefaultBase | frontend/src/lib/apiService.tsx:78-83 | The written code gives `http://localhost:8081/auth/login` for the default base. |
| ApiService.LoginUrlOfDefaultApiBase | frontend/src/lib/apiService.tsx:81-83 | The written code gives the same URL for the API's own default base. |
| ApiService.LoginUrlsAgreeOnDefaultBase | frontend/src/lib/apiService.tsx:78-83 | The correction changes nothing on the default base. |
| ApiService.LoginUrlsAgreeOnDefaultApiBase | frontend/src/lib/apiService.tsx:81-83 | The correction changes nothing on the API's default base. |
| ApiService.Param | frontend/src/lib/apiService.tsx:111-113 | A filter is sent exactly when present and non-zero, as a numeral that reads back as its value. |
| ApiService.QueryOf | frontend/src/lib/apiService.tsx:115-118 | The query is empty for no filters, and otherwise `?` followed by text that parses back to exactly the filters. |
| ApiService.PdiListEndpoint | frontend/src/lib/apiService.tsx:105-121 | `/pdis` followed by a query encoding the collaborator filter, and no query exactly when that filter is absent or zero. |
| ApiService.FeedbackListEndpoint | frontend/src/lib/apiService.tsx:136-154 | `/feedbacks` followed by a query encoding the recipient filter before the author filter, and no query exactly when neither is sent. |
| ApiService.ParamsAreUrlSafe | frontend/src/lib/apiService.tsx:139-148 | Filter names and numerals need no escaping. |
| ApiService.FeedbackParamsOrder | frontend/src/lib/apiService.tsx:141-146 | With both filters set, the recipient comes first, and both read back as their ids. |
| ApiService.UserEndpoint | frontend/src/lib/apiService.tsx:98-101 | `/usuarios/` followed by a numeral that reads back as the id. |
| ApiService.PdiEndpoint | frontend/src/lib/apiService.tsx:122-124 | `/pdis/` followed by a numeral that reads back as the id. |
| PdisPage.SetMetaField | frontend/src/app/pdis/page.tsx:84-92 | Writing a goal field sets that field and keeps the other four. |
| PdisPage.ParseNum | frontend/src/app/pdis/page.tsx:74 | An id field stores the parsed integer, or `NaN` exactly when parsing fails. |
| PdisPage.ParseNumOfNumeral | frontend/src/app/pdis/page.tsx:74 | A typed numeral is stored as its number. |
| PdisPage.WithoutIndex | frontend/src/app/pdis/page.tsx:99 | Filtering out position `index` removes exactly that element when it exists and nothing otherwise. |
| PdisPage.InitialFormFor | frontend/src/app/pdis/page.tsx:57-63 | A new PDI starts blank with one empty goal, and with the collaborator preselected for a `COLABORADOR`. |
| PdisPage.ValidationError | frontend/src/app/pdis/page.tsx:103-108 | The form may be saved exactly when the collaborator is chosen, the trimmed title is non-empty and both dates are set. Otherwise the first failing check, in order, names the error. |
| PdisPage.PreselectedCollaboratorPassesFirstCheck | frontend/src/app/pdis/page.tsx:58-63 | A collaborator's fresh form fails only on the title. |
| PdisPage.UnparsedCollaboratorPassesFirstCheck | frontend/src/app/pdis/page.tsx:106 | A collaborator field that did not parse passes the `=== 0` check. |
| PdisPage.ColaboradorOptions | frontend/src/app/pdis/page.tsx:118 | The collaborator select offers exactly the users with one of the three roles, in list order. |
| PdisPage.GestorOptions | frontend/src/app/pdis/page.tsx:119 | The manager select offers exactly the `GESTOR` and `ADMIN` users, in list order. |
| PdisPage.GestorOptionsWithinColaboradorOptions | frontend/src/app/pdis/page.tsx:118-119 | Every manager offered is also offered as a collaborator, in the same relative order. |
| PdisPage.EditorsMayCreate | frontend/src/app/pdis/page.tsx:347 | Whoever may edit a card may create a PDI, and a `COLABORADOR` may create but not edit. |
| PdisPage.SaveDispatch | frontend/src/app/pdis/page.tsx:313-317 | A truthy id updates that PDI and anything else creates one, always with the form as given. |
| PdisPage.NewFormIsCreated | frontend/src/app/pdis/page.tsx:313-317 | A form opened for a new PDI is always created. |
| PdisPage.SaveErrorMessage | frontend/src/app/pdis/page.tsx:322 | A save error shows its non-empty message, or the default text. |
| PdisPage.RemoveControlKeepsAGoal | frontend/src/app/pdis/page.tsx:188-190 | Removing through the visible control never empties the goal list. |
| PdisPage.RemoveUndoesAdd | frontend/src/app/pdis/page.tsx:94-100 | Adding a goal and removing it again restores the list. |
| PdisPage.PdiFormModal.constructor | frontend/src/app/pdis/page.tsx:37-38 | The dialog starts with the initial form and no error. |
| PdisPage.PdiFormModal.OpenForCreate | frontend/src/app/pdis/page.tsx:57-65 | Opening for a new PDI sets the form as `InitialFormFor` says and clears the error. |
| PdisPage.PdiFormModal.HandleChange | frontend/src/app/pdis/page.tsx:72-75 | The two id fields store the parsed number, every other field the raw text, and nothing else changes. |
| PdisPage.PdiFormModal.HandleMetaChange | frontend/src/app/pdis/page.tsx:84-92 | Only an existing goal is written, only in the named field. |
| PdisPage.PdiFormModal.AddMetaField | frontend/src/app/pdis/page.tsx:94-96 | One blank goal is appended. |
| PdisPage.PdiFormModal.RemoveMetaField | frontend/src/app/pdis/page.tsx:98-100 | The goal at `index` is dropped and the rest keep their order. |
| PdisPage.PdiFormModal.HandleSubmit | frontend/src/app/pdis/page.tsx:103-116 | The error shown is the first failing check, and `onSave` receives the form exactly when none fails. |
| PdisPage.PdisPageState.HandleSavePdi | frontend/src/app/pdis/page.tsx:309-327 | Dispatch follows `SaveDispatch`. Success closes the dialog and reloads once. Failure shows the message, keeps the dialog and re-throws. Saving ends on both paths. |
| DashboardPage.Render | frontend/src/app/dashboard/page.tsx:42-54 | Loading shows first, then a non-admin is welcomed, then missing data is reported. The dashboard shows exactly for an admin with data. |
| DashboardPage.PdisPorStatusChart | frontend/src/app/dashboard/page.tsx:57 | One bar per entry, name and value unchanged. |
| DashboardPage.UsuariosPorPerfilChart | frontend/src/app/dashboard/page.tsx:58 | One slice per entry, named without its first `ROLE_`, value unchanged. |
| DashboardPage.RoleEntriesLoseTheirPrefix | frontend/src/app/dashboard/page.tsx:58 | An entry `ROLE_x` becomes the slice `x` with its count. |
| DashboardPage.SliceColor | frontend/src/app/dashboard/page.tsx:84 | Every slice takes a colour from the palette. |
| DashboardPage.SliceColorsCycle | frontend/src/app/dashboard/page.tsx:84 | Colours repeat every four slices, and neighbouring slices differ. |
| DashboardPage.DashboardPageState.constructor | frontend/src/app/dashboard/page.tsx:19-20 | The page starts with no data and loading on. |
| DashboardPage.DashboardPageState.RunEffect | frontend/src/app/dashboard/page.tsx:24-40 | The summary is fetched exactly for a truthy token and an admin, and stored only when the fetch resolved. Loading ends on every path. |
| DashboardPage.NonAdminIsWelcomed | frontend/src/app/dashboard/page.tsx:47-49 | Once loading is over, a non-admin is welcomed. |
| Web.StatusCode | backend/src/main/java/com/progress/progress_api/controller/UsuarioController.java:22-26 | Every reply carries a status in 200–599, and the status is below 300 exactly for the success replies (200, 201, 204). |
| Text.ReplaceFirst | frontend/src/lib/apiService.tsx:83 | `String.replace` with a string pattern replaces only the first occurrence, and returns a string without one unchanged. |
| Text.ToLower | backend/src/main/java/com/progress/progress_api/service/GeminiService.java:16 | `toLowerCase` keeps the length and lower-cases each character in place. |
| Text.ParseIntOfDecimal | frontend/src/app/pdis/page.tsx:74 | `parseInt` reads back the decimal text `String(n)` of any integer. |
| Text.TrimEmptyIffBlank | frontend/src/app/pdis/page.tsx:107 | `!s.trim()` holds exactly for strings made only of whitespace. |
| Text.ParseSerializedParams | frontend/src/lib/apiService.tsx:148 | Reading a serialised list of URL-safe parameters back gives the same list. |
| Auth.IsAuthenticated | frontend/src/lib/auth.tsx:86 | Authenticated exactly when the token is present and non-empty and a user is present. |
| DashboardPage.IsAdmin | frontend/src/app/dashboard/page.tsx:22 | An admin exactly when there is a user and one of its roles is named `ROLE_ADMIN`. |
| PdisPage.CanEditPdi | frontend/src/app/pdis/page.tsx:255 | Edit and delete controls exactly for the roles `ADMIN` and `GESTOR`. |
| PdisPage.CanCreatePdi | frontend/src/app/pdis/page.tsx:347 | The "Novo PDI" button exactly for a user whose role is `ADMIN`, `GESTOR` or `COLABORADOR`. |
| PdisPage.PdiFormModal.HandleObjetivoChange | frontend/src/app/pdis/page.tsx:77-82 | Whatever the index, the value becomes the general description and nothing else changes. |
| UsuarioController.IsAdminOrGestor | backend/src/main/java/com/progress/progress_api/controller/UsuarioController.java:31 | `hasAnyRole('ADMIN', 'GESTOR')`: the caller holds `ROLE_ADMIN` or `ROLE_GESTOR`. |
| UsuarioController.MayCreate | backend/src/main/java/com/progress/progress_api/controller/UsuarioController.java:20 | Creating needs `ROLE_ADMIN`. |
| UsuarioController.MayGetById | backend/src/main/java/com/progress/progress_api/controller/UsuarioController.java:31 | Reading by id needs admin or gestor, or the path id being the caller's own id. |
| UsuarioController.MayGetByEmail | backend/src/main/java/com/progress/progress_api/controller/UsuarioController.java:39 | Reading by email needs admin or gestor, or the path email being the caller's username. |
| UsuarioController.MayList | backend/src/main/java/com/progress/progress_api/controller/UsuarioController.java:47 | Listing needs admin or gestor. |
| UsuarioController.MayUpdate | backend/src/main/java/com/progress/progress_api/controller/UsuarioController.java:54 | Updating needs admin, or the path id being the caller's own id. |
| UsuarioController.MayDelete | backend/src/main/java/com/progress/progress_api/controller/UsuarioController.java:66 | Deleting needs `ROLE_ADMIN`. |
| Web.HasRole | backend/src/main/java/com/progress/progress_api/controller/UsuarioController.java:20 | `hasRole(r)` holds exactly when `ROLE_` followed by `r` is among the caller's authorities. |
| UsuarioRepository.ExistsByEmail | backend/src/main/java/com/progress/progress_api/repository/UsuarioRepository.java:16 | `existsByEmail` holds exactly when some stored user has that email. |
| DataInitializer.AfterRun | backend/src/main/java/com/progress/progress_api/config/DataInitializer.java:20-34 | A run is the three role steps in order, then the admin seed, whose outcome is the run's outcome. |

## Left out

- Sign-in on the server is not part of this model: issuing and checking JWTs, `AuthController`, `JwtUtil` and the security filter chain. The controllers take the caller's id and authorities as parameters.
- HTTP, `fetch`, browser storage and the Next.js router are values or parameters. Storage is a map from key to string, a response is its status plus an optional parsed body, and a navigation is a recorded target. `JSON.parse`/`JSON.stringify` are function parameters.
- The password encoder is the parameter `encode`. The `@PrePersist` clock of `Feedback` is the parameter `now`.
- Logging, the styling of every page, the card and list rendering of the PDIs page, `fetchPageData`, and the UI components under `components/ui` are presentation only. They are not modelled.
- PdisPage: the dialog's opening effect for an existing PDI is not modelled, nor are the PDI dates and goals beyond the form's fields. Only a new PDI's form is opened and validated.
- Concurrency and transactions: every service call runs alone. `@Transactional` is modelled as "a call that throws leaves the database unchanged".
- `findAll` and the listings are modelled as sets, because the source promises no order. Among feedbacks sent at the same instant, `findTop5ByOrderByDataEnvioDesc` is free to return any of them.
- `RoleRepository` is folded into `Store`, as `FindRoleByName` and the roles map.
- Null names and e-mails are not modelled: the entity columns are `nullable = false` and the DTOs are built whole. A null password on creation is modelled as the `NullPassword` error, because the encoder rejects it.
- Model.GetAuthorities: the Java list of authorities is a set here. This loses nothing, because role names are unique (`OneAuthorityPerRole`).
- UsuarioService.ConvertToDto: `UsuarioDTO` declares a single `role` field (UsuarioDTO.java:12), but the service fills a set of role names (UsuarioService.java:141). The DTO holds `roles: set<string>`, as the service writes them.
- UsuarioController.AtualizarUsuario: the handler chains `.map(...).orElse(404)` on the service result, which is a DTO and not an `Optional`. It is modelled as intended: 200 on success, 400 when the service throws. The 404 answer cannot occur.
- UsuarioController.DeletarUsuario: the handler branches on a service result that is `void`. It is modelled as intended: 204 when the user was deleted, 404 when the service refused because the id is unknown.
- UsuarioController.SeededManagersAreNotGestores: `hasAnyRole('ADMIN','GESTOR')` asks for `ROLE_GESTOR`, but only `ROLE_ADMIN`, `ROLE_MANAGER` and `ROLE_COLLABORATOR` are ever seeded. The model keeps the check as written and proves the consequence.
- DashboardService.LabelledStatusTotalsAreZero: `countByStatus` is called with display labels (`Em Andamento`, ...), not the stored enum names. The model keeps the calls as written and proves that the three totals are always zero.
- DashboardService.GetAdminDashboardData: models the `(String)` cast as written, so it throws once a PDI has a status (see Findings). The corrected definition is `GetAdminDashboardDataCorrected`.
- DashboardService.PdisPorStatus: this is the corrected, name-keyed map. The source never builds it, because its cast throws first (see Findings).
- DashboardService.StatusKey: the corrected key of a grouped row; the source's cast of a status value throws instead.
- DashboardService.StatusKeysAreDistinct: a property of the corrected key only; as written, `toMap` is never reached with a non-null status.
- DashboardService.Collect: builds the corrected, name-keyed map, which the source's cast never produces.
- DashboardService.StatusRowsSumToPdiTotal: a sum over the corrected map. As written, the dashboard answers only when every status is `NULL`, and then the one row holds the PDI total.
- DashboardService.RowSumsAgree: relates the corrected map to the query's rows; the as-written map exists only when every status is `NULL`.
- DashboardService.ActivePdisAreMissedByTheActiveTotal: describes the corrected dashboard. As written, a PDI in progress makes the dashboard throw.
- DashboardService.FeedbacksRecentes: uses `FeedbackService`'s private `convertToDTO` as if it were visible.
- PdiRepository.CountByStatus: Spring Data binds a `String` to the enum-typed `status` attribute. The model assumes the string is compared with the name the status is stored under. A provider that refuses the binding would make `getAdminDashboardData` throw at lines 42-44 already. That case is not modelled.
- Auth.AfterLogin: as written, `login` cannot succeed. auth.tsx:7 imports `loginUser`, but apiService.tsx exports only `authService`, `userService`, `pdiService`, `dashboardService` and `feedbackService` (lines 75-135). So `loginUserApi` is undefined and the call throws a `TypeError`. auth.tsx:56 also reads `response.data`, but `handleResponse` resolves to the body itself. The `Answered` branch models the evidently intended call, and `Threw` models what happens as written.
- LoginPage.LoginForm.HandleSubmit: login/page.tsx:28 calls `login(email, senha)`, while the context's `login` takes one credentials object (auth.tsx:53). The model does not model the arguments: how the awaited `login` settled is a parameter.
- PdisPage.PdiFormModal: as written, the dialog never renders. pdis/page.tsx:176 calls `Object.values(PDIStatus)`, but `PDIStatus` is only a type alias (types.tsx:8) and has no value. So the file fails the type check, or the call throws on every render. The handlers `OpenForCreate`, `HandleChange`, `HandleObjetivoChange`, `HandleMetaChange`, `AddMetaField`, `RemoveMetaField` and `HandleSubmit` model the intended dialog.
- PdisPage.PdisPageState.HandleSavePdi: pdis/page.tsx:6 imports `fetchPDIsApi`, `createPDIApi`, `fetchUsersApi`, `updatePDIApi` and `fetchPDIByIdApi`, none of which apiService.tsx exports. So every save throws as written. The save's outcome is a parameter, and the model covers both outcomes.
- Auth: `auth.tsx` keeps the token in `localStorage`, while `getAuthHeaders` reads `sessionStorage`. The two are kept as separate maps, each modelled as its own file uses it.
- The frontend files disagree on the shape of a role: `auth.tsx` has a single `role`, the sidebar a list `roles`, and the PDIs page `COLABORADOR`/`GESTOR`/`ADMIN`. Each module uses its own file's shape. As written, the sidebar fails for every signed-in user: `auth.tsx` stores a user with a single `role` and no `roles`, so `user?.roles.some(...)` (Sidebar.tsx:25) calls `some` on `undefined` and throws. `Sidebar` models the intended list-of-roles user.
- GeminiService.KeywordFoundInAnyCase: Java's `toLowerCase` is modelled on ASCII and the Latin-1 capitals only. Other scripts and locale-dependent mappings are not covered.
- Integers are unbounded: Java `Long` ids and counts are not bounded, and overflow is not modelled.

## Findings

| source | as written | input that shows it | evidently intended | confidence | as-written member | corrected member |
|---|---|---|---|---|---|---|
| backend/src/main/java/com/progress/progress_api/service/DashboardService.java:47 | `(String) obj[0]` casts the key of each `countPDIsByStatus` row, but `SELECT p.status ... GROUP BY p.status` on the `@Enumerated(STRING)` field yields `StatusPDI` values, so the cast throws `ClassCastException` | a database with one PDI whose status is `EM_ANDAMENTO` | key each row by the status's name, giving `{"EM_ANDAMENTO": 1}` | high, not executed | DashboardService.GetAdminDashboardData, DashboardService.PdisPorStatusAsWritten, DashboardService.OneStatusBreaksTheDashboard | DashboardService.GetAdminDashboardDataCorrected, DashboardService.PdisPorStatus, DashboardService.StatusRowsSumToPdiTotal |
| frontend/src/lib/apiService.tsx:83 | `baseUrl.replace('/api', '')` removes the first `/api` anywhere in the base URL | base `http://api.example.com/api` gives `http:/.example.com/api/auth/login` | drop only a trailing `/api` path segment, giving `http://api.example.com/auth/login` | medium, not executed | ApiService.LoginUrl, ApiService.LoginUrlBreaksApiHost | ApiService.LoginUrlCorrected, ApiService.LoginUrlCorrectedKeepsApiHost, ApiService.LoginUrlsDifferOnApiHost |
