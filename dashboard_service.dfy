/**
 * The administrator's dashboard (backend/.../service/DashboardService.java): user totals per role,
 * the grouped role counts, PDI totals and grouped status counts, and the five most recent
 * feedbacks, assembled into one record.
 *
 * As written, the grouped status rows are collected with `(String) obj[0]`, but the `GROUP BY
 * p.status` query yields `StatusPDI` values, so the cast throws `ClassCastException` as soon as one
 * PDI has a status (`GetAdminDashboardData`). The corrected dashboard
 * (`GetAdminDashboardDataCorrected`) keys each row by the status's stored name, `None` standing for
 * a `NULL` status.
 *
 * The three per-status totals are asked for with the display labels `"Em Andamento"`,
 * `"Concluído"` and `"Atrasado"`, which are not the stored names. `countByStatus` is taken to
 * compare its string with the stored name, so these totals are always zero
 * (`LabelledStatusTotalsAreZero`).
 */
module DashboardService {
  import opened Wrappers
  import opened Model
  import opened Store
  import opened Dto
  import UsuarioRepository
  import PdiRepository
  import FeedbackRepository
  import FeedbackService
  import Sets

  const ACTIVE_LABEL := "Em Andamento"
  const DONE_LABEL := "Concluído"
  const LATE_LABEL := "Atrasado"

  /** `AdminDashboardDTO`. */
  datatype AdminDashboard = AdminDashboard(
    totalUsuarios: nat,
    totalColaboradores: nat,
    totalGestores: nat,
    totalAdmins: nat,
    usuariosPorPerfil: map<string, nat>,
    totalPDIs: nat,
    pdisAtivos: nat,
    pdisConcluidos: nat,
    pdisAtrasados: nat,
    pdisPorStatus: map<Option<string>, nat>,
    feedbacksRecentes: seq<FeedbackDto>)

  /** The key a grouped status row is collected under. */
  function StatusKey(s: Option<StatusPdi>): (key: Option<string>)
    ensures key.Some? <==> s.Some?
    ensures s.Some? ==> key.value == StatusName(s.value)
  {
    match s
    case None => None
    case Some(st) => Some(StatusName(st))
  }

  /** Different statuses are collected under different keys. */
  lemma StatusKeysAreDistinct()
    ensures forall a, b :: StatusKey(a) == StatusKey(b) ==> a == b
  {
    forall a, b | StatusKey(a) == StatusKey(b)
      ensures a == b
    {
      if a.Some? && b.Some? {
        StatusNamesAreDistinct(a.value, b.value);
      }
    }
  }

  /** Grouped status rows collected into a map under their keys: one entry per row, same counts. */
  function Collect(rows: map<Option<StatusPdi>, nat>): (m: map<Option<string>, nat>)
    ensures forall s :: StatusKey(s) in m <==> s in rows
    ensures forall s :: s in rows ==> m[StatusKey(s)] == rows[s]
    ensures forall k :: k in m ==> exists s :: s in rows && StatusKey(s) == k
  {
    StatusKeysAreDistinct();
    map s | s in rows :: StatusKey(s) := rows[s]
  }

  /** `pdisPorStatus`: the rows of `countPDIsByStatus` collected into a map, one entry per row. */
  function PdisPorStatus(pdis: map<int, Pdi>): (m: map<Option<string>, nat>)
    ensures forall s :: StatusKey(s) in m <==> exists id :: id in pdis && pdis[id].status == s
    ensures forall s :: StatusKey(s) in m ==> m[StatusKey(s)] == |PdiRepository.WithStatus(pdis, s)|
    ensures forall k :: k in m ==> exists s :: StatusKey(s) == k
  {
    Collect(PdiRepository.CountPDIsByStatus(pdis))
  }

  /** The exception `(String) obj[0]` raises on a grouped row whose key is a `StatusPDI` value. */
  datatype CastFailure = ClassCastException(status: StatusPdi)

  /**
   * `pdisPorStatus` as written: the grouped rows' keys are cast to `String`. A `NULL` status casts
   * to `null` and becomes the map's `null` key; any status value makes the cast throw.
   */
  ghost function PdisPorStatusAsWritten(pdis: map<int, Pdi>): (r: Result<map<Option<string>, nat>, CastFailure>)
    ensures r.Err? <==> exists id :: id in pdis && pdis[id].status.Some?
    ensures r.Err? ==> exists id :: id in pdis && pdis[id].status == Some(r.error.status)
    ensures r.Ok? && pdis == map[] ==> r.value == map[]
    ensures r.Ok? && pdis != map[] ==> r.value == map[None := |pdis|]
  {
    var rows := PdiRepository.CountPDIsByStatus(pdis);
    if exists id :: id in pdis && pdis[id].status.Some? then
      var id :| id in pdis && pdis[id].status.Some?;
      assert pdis[id].status in rows;
      Err(ClassCastException(pdis[id].status.value))
    else if pdis == map[] then Ok(map[])
    else
      assert None in rows by {
        var id := Sets.Pick(pdis.Keys);
      }
      NullStatusRowHoldsAll(pdis);
      Ok(map[None := rows[None]])
  }

  /** When no PDI has a status, the `NULL` group holds every PDI. */
  lemma NullStatusRowHoldsAll(pdis: map<int, Pdi>)
    requires forall id :: id in pdis ==> pdis[id].status.None?
    ensures PdiRepository.WithStatus(pdis, None) == pdis.Keys
  {
    forall id ensures id in PdiRepository.WithStatus(pdis, None) <==> id in pdis.Keys {
    }
  }

  /** The five most recent feedbacks as DTOs, newest first. */
  ghost function FeedbacksRecentes(db: Db): (recent: seq<FeedbackDto>)
    ensures var top := FeedbackRepository.FindTop5ByOrderByDataEnvioDesc(db.feedbacks);
            |recent| == |top| && forall i :: 0 <= i < |recent| ==> recent[i] == FeedbackService.ConvertToDto(db.usuarios, top[i])
    ensures |recent| <= 5
    ensures forall i :: 0 <= i < |recent| ==> recent[i].dataEnvio.Some?
    ensures forall i, j :: 0 <= i < j < |recent| ==> recent[i].dataEnvio.value >= recent[j].dataEnvio.value
  {
    var top := FeedbackRepository.FindTop5ByOrderByDataEnvioDesc(db.feedbacks);
    var recent := seq(|top|, i requires 0 <= i < |top| => FeedbackService.ConvertToDto(db.usuarios, top[i]));
    assert forall i :: 0 <= i < |recent| ==> recent[i].dataEnvio == Some(top[i].dataEnvio);
    recent
  }

  /**
   * The corrected `getAdminDashboardData`, with each grouped status row keyed by its stored name:
   * the user total and the totals of the three seeded roles, the grouped
   * role counts, the PDI total, the three labelled status totals, the grouped status counts and
   * the recent feedbacks: at most five, newest first.
   */
  ghost function GetAdminDashboardDataCorrected(db: Db): (d: AdminDashboard)
    ensures d.totalUsuarios == |db.usuarios| && d.totalPDIs == |db.pdis|
    ensures d.totalAdmins == UsuarioRepository.CountByRolesName(db.usuarios, ROLE_ADMIN)
    ensures d.totalGestores == UsuarioRepository.CountByRolesName(db.usuarios, ROLE_MANAGER)
    ensures d.totalColaboradores == UsuarioRepository.CountByRolesName(db.usuarios, ROLE_COLLABORATOR)
    ensures d.usuariosPorPerfil == UsuarioRepository.CountUsuariosByRole(db.usuarios)
    ensures d.pdisAtivos == PdiRepository.CountByStatus(db.pdis, ACTIVE_LABEL)
    ensures d.pdisConcluidos == PdiRepository.CountByStatus(db.pdis, DONE_LABEL)
    ensures d.pdisAtrasados == PdiRepository.CountByStatus(db.pdis, LATE_LABEL)
    ensures d.pdisPorStatus == PdisPorStatus(db.pdis)
    ensures d.feedbacksRecentes == FeedbacksRecentes(db)
    ensures |d.feedbacksRecentes| <= 5
    ensures forall i :: 0 <= i < |d.feedbacksRecentes| ==> d.feedbacksRecentes[i].dataEnvio.Some?
    ensures forall i, j :: 0 <= i < j < |d.feedbacksRecentes| ==>
              d.feedbacksRecentes[i].dataEnvio.value >= d.feedbacksRecentes[j].dataEnvio.value
  {
    AdminDashboard(
      |db.usuarios|,
      UsuarioRepository.CountByRolesName(db.usuarios, ROLE_COLLABORATOR),
      UsuarioRepository.CountByRolesName(db.usuarios, ROLE_MANAGER),
      UsuarioRepository.CountByRolesName(db.usuarios, ROLE_ADMIN),
      UsuarioRepository.CountUsuariosByRole(db.usuarios),
      |db.pdis|,
      PdiRepository.CountByStatus(db.pdis, ACTIVE_LABEL),
      PdiRepository.CountByStatus(db.pdis, DONE_LABEL),
      PdiRepository.CountByStatus(db.pdis, LATE_LABEL),
      PdisPorStatus(db.pdis),
      FeedbacksRecentes(db))
  }

  /**
   * `getAdminDashboardData` as written: it throws as soon as one PDI has a status, and otherwise
   * answers what the corrected dashboard answers.
   */
  ghost function GetAdminDashboardData(db: Db): (r: Result<AdminDashboard, CastFailure>)
    ensures r.Err? <==> exists id :: id in db.pdis && db.pdis[id].status.Some?
    ensures r.Ok? ==> r.value == GetAdminDashboardDataCorrected(db)
  {
    match PdisPorStatusAsWritten(db.pdis)
    case Err(e) => Err(e)
    case Ok(pdisPorStatus) =>
      NullStatusesCollectAlike(db.pdis);
      Ok(GetAdminDashboardDataCorrected(db).(pdisPorStatus := pdisPorStatus))
  }

  /** Without any status, the as-written cast and the corrected key collect the same map. */
  lemma NullStatusesCollectAlike(pdis: map<int, Pdi>)
    requires forall id :: id in pdis ==> pdis[id].status.None?
    ensures PdisPorStatusAsWritten(pdis) == Ok(PdisPorStatus(pdis))
  {
    var m := PdisPorStatus(pdis);
    forall k | k in m ensures k == None {
      var s :| StatusKey(s) == k && StatusKey(s) in m;
    }
    if pdis == map[] {
      assert m == map[];
    } else {
      var id := Sets.Pick(pdis.Keys);
      assert StatusKey(None) in m;
      NullStatusRowHoldsAll(pdis);
      assert m == map[None := |pdis|];
    }
  }

  /**
   * One PDI in progress is enough for the as-written dashboard to throw, where the corrected one
   * counts it under `"EM_ANDAMENTO"`.
   */
  lemma OneStatusBreaksTheDashboard(db: Db)
    requires db.pdis == map[7 := Pdi(7, 1, "Plano", None, Some(EmAndamento))]
    ensures GetAdminDashboardData(db) == Err(ClassCastException(EmAndamento))
    ensures GetAdminDashboardDataCorrected(db).pdisPorStatus == map[Some("EM_ANDAMENTO") := 1]
  {
    var pdis := db.pdis;
    assert pdis[7].status.Some?;
    var r := PdisPorStatusAsWritten(pdis);
    assert r.Err?;
    var rows := PdiRepository.CountPDIsByStatus(pdis);
    assert PdiRepository.WithStatus(pdis, Some(EmAndamento)) == {7} by {
      forall id ensures id in PdiRepository.WithStatus(pdis, Some(EmAndamento)) <==> id == 7 {
      }
    }
    forall s | s in rows ensures s == Some(EmAndamento) {
      var id :| id in pdis && pdis[id].status == s;
    }
    assert Some(EmAndamento) in rows;
    var m := PdisPorStatus(pdis);
    forall k | k in m ensures k == Some("EM_ANDAMENTO") {
      var s :| s in rows && StatusKey(s) == k;
    }
    assert StatusKey(Some(EmAndamento)) == Some("EM_ANDAMENTO");
    assert m == map[Some("EM_ANDAMENTO") := 1];
  }

  /**
   * The role totals never exceed the user total, and each agrees with its grouped row: the row is
   * there exactly when the total is not zero, and then holds the total.
   */
  lemma RoleTotalsAgreeWithGroupedRows(db: Db)
    ensures var d := GetAdminDashboardDataCorrected(db);
            d.totalAdmins <= d.totalUsuarios && d.totalGestores <= d.totalUsuarios &&
            d.totalColaboradores <= d.totalUsuarios
    ensures var d := GetAdminDashboardDataCorrected(db);
            forall role :: role in {ROLE_ADMIN, ROLE_MANAGER, ROLE_COLLABORATOR} ==>
              (role in d.usuariosPorPerfil <==> UsuarioRepository.CountByRolesName(db.usuarios, role) != 0) &&
              (role in d.usuariosPorPerfil ==> d.usuariosPorPerfil[role] == UsuarioRepository.CountByRolesName(db.usuarios, role))
  {
    forall role | role in {ROLE_ADMIN, ROLE_MANAGER, ROLE_COLLABORATOR}
      ensures role in UsuarioRepository.CountUsuariosByRole(db.usuarios) <==>
              UsuarioRepository.CountByRolesName(db.usuarios, role) != 0
    {
      if UsuarioRepository.CountByRolesName(db.usuarios, role) != 0 {
        var id :| id in db.usuarios && UsuarioRepository.HoldsRole(db.usuarios[id], role);
      }
    }
  }

  /** The counts of the grouped status rows, `NULL` included, add up to the PDI total. */
  lemma StatusRowsSumToPdiTotal(db: Db)
    ensures var d := GetAdminDashboardDataCorrected(db);
            StatusRowSum(d.pdisPorStatus, PdiRepository.ALL_STATUSES) == d.totalPDIs
  {
    var rows := PdiRepository.CountPDIsByStatus(db.pdis);
    var m := PdisPorStatus(db.pdis);
    RowSumsAgree(rows, m, db.pdis, PdiRepository.ALL_STATUSES);
    PdiRepository.GroupedCountsSumToTotal(db.pdis);
  }

  /** The counts of the collected rows for `keys`, a missing row counting zero. */
  function StatusRowSum(m: map<Option<string>, nat>, keys: seq<Option<StatusPdi>>): nat {
    if keys == [] then 0
    else (if StatusKey(keys[0]) in m then m[StatusKey(keys[0])] else 0) + StatusRowSum(m, keys[1..])
  }

  lemma {:induction false} RowSumsAgree(rows: map<Option<StatusPdi>, nat>, m: map<Option<string>, nat>,
                                        pdis: map<int, Pdi>, keys: seq<Option<StatusPdi>>)
    requires rows == PdiRepository.CountPDIsByStatus(pdis) && m == PdisPorStatus(pdis)
    ensures StatusRowSum(m, keys) == PdiRepository.SumRows(rows, keys)
    decreases |keys|
  {
    if keys != [] {
      RowSumsAgree(rows, m, pdis, keys[1..]);
    }
  }

  /** None of the three labels is the stored name of a status. */
  lemma LabelsAreNotStatusNames(s: StatusPdi)
    ensures StatusName(s) != ACTIVE_LABEL && StatusName(s) != DONE_LABEL && StatusName(s) != LATE_LABEL
  {
  }

  /** The three labelled status totals are zero, whatever PDIs are stored. */
  lemma LabelledStatusTotalsAreZero(db: Db)
    ensures var d := GetAdminDashboardDataCorrected(db);
            d.pdisAtivos == 0 && d.pdisConcluidos == 0 && d.pdisAtrasados == 0
  {
    forall s ensures StatusName(s) != ACTIVE_LABEL && StatusName(s) != DONE_LABEL && StatusName(s) != LATE_LABEL {
      LabelsAreNotStatusNames(s);
    }
    PdiRepository.CountOfNonStatusIsZero(db.pdis, ACTIVE_LABEL);
    PdiRepository.CountOfNonStatusIsZero(db.pdis, DONE_LABEL);
    PdiRepository.CountOfNonStatusIsZero(db.pdis, LATE_LABEL);
  }

  /**
   * So the dashboard contradicts itself as soon as a PDI is in progress: the grouped row for
   * `EM_ANDAMENTO` counts it while `pdisAtivos` stays zero.
   */
  lemma ActivePdisAreMissedByTheActiveTotal(db: Db, id: int)
    requires id in db.pdis && db.pdis[id].status == Some(EmAndamento)
    ensures var d := GetAdminDashboardDataCorrected(db);
            Some(StatusName(EmAndamento)) in d.pdisPorStatus && d.pdisPorStatus[Some(StatusName(EmAndamento))] >= 1 &&
            d.pdisAtivos == 0
  {
    LabelledStatusTotalsAreZero(db);
    assert id in PdiRepository.WithStatus(db.pdis, Some(EmAndamento));
    assert StatusKey(Some(EmAndamento)) == Some(StatusName(EmAndamento));
  }

  /**
   * With five or more feedbacks stored, exactly five are shown, led by the newest of all.
   */
  lemma RecentFeedbacksLeadWithTheNewest(db: Db)
    requires |db.feedbacks.Values| >= 5
    ensures var d := GetAdminDashboardDataCorrected(db);
            |d.feedbacksRecentes| == 5 &&
            forall f :: f in db.feedbacks.Values ==> f.dataEnvio <= d.feedbacksRecentes[0].dataEnvio.value
  {
    FeedbackRepository.TopFiveIsFullAndLedByTheNewest(db.feedbacks);
  }
}
