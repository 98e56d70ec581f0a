/**
 * The PDI page (frontend/src/app/pdis/page.tsx): the form of the PDI dialog with its goal list
 * ("metas"), the order in which submit validates it, the user lists offered in its two selects,
 * who may edit a card, and how the page dispatches a save.
 *
 * This file reads a user's role as one of the strings `ADMIN`, `GESTOR`, `COLABORADOR`.
 */
module PdisPage {
  import opened Wrappers
  import Seqs
  import Text
  import Auth

  const ERR_COLABORADOR := "Selecione o colaborador."
  const ERR_TITULO := "O título do PDI é obrigatório."
  const ERR_DATAS := "Datas de início e término são obrigatórias."
  const SAVE_ERROR_DEFAULT := "Falha ao salvar PDI."

  /** A user as the page's lists hold them. */
  datatype PageUser = PageUser(id: int, nome: string, role: string)

  /** A number field of the form: `parseInt` yields an integer or `NaN`. */
  datatype Num = Num(n: int) | NaN

  /** One goal of the form (its `id` and `concluida` are not part of the form). */
  datatype Meta = Meta(
    descricaoMeta: string,
    acoesNecessarias: string,
    prazo: string,
    recursosNecessarios: string,
    feedbackMeta: string)

  datatype MetaField = DescricaoMeta | AcoesNecessarias | Prazo | RecursosNecessarios | FeedbackMeta

  /** The inputs bound to `handleChange`, by their `name`. */
  datatype FormField =
    | ColaboradorIdField | GestorIdField | TituloField | DescricaoGeralField
    | DataInicioField | DataConclusaoPrevistaField | StatusField

  /** The dialog's form; `id` is present only when an existing PDI is edited. */
  datatype FormData = FormData(
    id: Option<int>,
    colaboradorId: Num,
    gestorId: Num,
    titulo: string,
    descricaoGeral: string,
    dataInicio: string,
    dataConclusaoPrevista: string,
    status: string,
    metas: seq<Meta>)

  const INITIAL_META := Meta("", "", "", "", "")

  const INITIAL_FORM_DATA := FormData(None, Num(0), Num(0), "", "", "", "", "PLANEJADO", [INITIAL_META])

  // ---------------------------------------------------------------------------------------------
  // Field access
  // ---------------------------------------------------------------------------------------------

  function MetaFieldValue(m: Meta, field: MetaField): string {
    match field
    case DescricaoMeta => m.descricaoMeta
    case AcoesNecessarias => m.acoesNecessarias
    case Prazo => m.prazo
    case RecursosNecessarios => m.recursosNecessarios
    case FeedbackMeta => m.feedbackMeta
  }

  /** `meta[field] = value`: the named field takes the value and the other four keep theirs. */
  function SetMetaField(m: Meta, field: MetaField, value: string): (r: Meta)
    ensures MetaFieldValue(r, field) == value
    ensures forall g :: g != field ==> MetaFieldValue(r, g) == MetaFieldValue(m, g)
  {
    match field
    case DescricaoMeta => m.(descricaoMeta := value)
    case AcoesNecessarias => m.(acoesNecessarias := value)
    case Prazo => m.(prazo := value)
    case RecursosNecessarios => m.(recursosNecessarios := value)
    case FeedbackMeta => m.(feedbackMeta := value)
  }

  /** `parseInt(value, 10)` as stored in a number field. */
  function ParseNum(value: string): (r: Num)
    ensures r.NaN? <==> Text.ParseInt10(value).None?
    ensures r.Num? ==> Text.ParseInt10(value) == Some(r.n)
  {
    match Text.ParseInt10(value)
    case Some(n) => Num(n)
    case None => NaN
  }

  /** A numeral typed into an id field is stored as that number. */
  lemma ParseNumOfNumeral(n: int)
    ensures ParseNum(Text.IntToDecimal(n)) == Num(n)
  {
    Text.ParseIntOfDecimal(n);
  }

  /** `prev.metas.filter((_, i) => i !== index)`. */
  function WithoutIndex<T>(s: seq<T>, index: int): (r: seq<T>)
    ensures 0 <= index < |s| ==> r == s[..index] + s[index + 1..]
    ensures !(0 <= index < |s|) ==> r == s
    decreases |s|
  {
    if s == [] then []
    else
      var rest := WithoutIndex(s[1..], index - 1);
      if index == 0 then
        assert s[1..] == s[..0] + s[1..];
        rest
      else
        assert 0 < index < |s| ==> [s[0]] + s[1..][..index - 1] + s[1..][index..] == s[..index] + s[index + 1..];
        assert !(0 <= index < |s|) ==> [s[0]] + s[1..] == s;
        [s[0]] + rest
  }

  // ---------------------------------------------------------------------------------------------
  // Opening the dialog, validation, select options, permissions
  // ---------------------------------------------------------------------------------------------

  /** The form a new PDI starts from: blank, with the collaborator preselected for a COLABORADOR. */
  function InitialFormFor(currentUser: Option<PageUser>): (f: FormData)
    ensures f.id.None? && f.metas == [INITIAL_META] && f.titulo == "" && f.status == "PLANEJADO"
    ensures currentUser.Some? && currentUser.value.role == "COLABORADOR" ==> f.colaboradorId == Num(currentUser.value.id)
    ensures !(currentUser.Some? && currentUser.value.role == "COLABORADOR") ==> f == INITIAL_FORM_DATA
  {
    if currentUser.Some? && currentUser.value.role == "COLABORADOR" then
      INITIAL_FORM_DATA.(colaboradorId := Num(currentUser.value.id))
    else INITIAL_FORM_DATA
  }

  /**
   * The first failed check of submit, in order: the collaborator is still 0, the trimmed title is
   * empty, a date is empty. `None` when the form may be saved.
   */
  function ValidationError(f: FormData): (r: Option<string>)
    ensures r.None? <==>
      f.colaboradorId != Num(0) && !Text.AllWhitespace(f.titulo) && f.dataInicio != "" && f.dataConclusaoPrevista != ""
    ensures f.colaboradorId == Num(0) ==> r == Some(ERR_COLABORADOR)
    ensures f.colaboradorId != Num(0) && Text.AllWhitespace(f.titulo) ==> r == Some(ERR_TITULO)
    ensures f.colaboradorId != Num(0) && !Text.AllWhitespace(f.titulo) && (f.dataInicio == "" || f.dataConclusaoPrevista == "") ==>
      r == Some(ERR_DATAS)
  {
    Text.TrimEmptyIffBlank(f.titulo);
    if f.colaboradorId == Num(0) then Some(ERR_COLABORADOR)
    else if Text.Trim(f.titulo) == "" then Some(ERR_TITULO)
    else if f.dataInicio == "" || f.dataConclusaoPrevista == "" then Some(ERR_DATAS)
    else None
  }

  /** A collaborator's preselected form fails only on the title: the collaborator check is met. */
  lemma PreselectedCollaboratorPassesFirstCheck(u: PageUser)
    requires u.role == "COLABORADOR" && u.id != 0
    ensures ValidationError(InitialFormFor(Some(u))) == Some(ERR_TITULO)
  {
    assert Text.AllWhitespace("");
  }

  /** An id field that did not parse is not 0, so it passes the collaborator check. */
  lemma UnparsedCollaboratorPassesFirstCheck(f: FormData)
    requires f.colaboradorId == NaN
    ensures ValidationError(f) != Some(ERR_COLABORADOR)
  {
  }

  predicate MayHavePdi(u: PageUser) {
    u.role == "COLABORADOR" || u.role == "GESTOR" || u.role == "ADMIN"
  }

  predicate MayManage(u: PageUser) {
    u.role == "GESTOR" || u.role == "ADMIN"
  }

  /** The collaborator select: every listed user whose role may have a PDI, in list order. */
  function ColaboradorOptions(allUsers: seq<PageUser>): (r: seq<PageUser>)
    ensures forall u :: u in r <==> u in allUsers && MayHavePdi(u)
    ensures Seqs.IsSubsequence(r, allUsers)
  {
    Seqs.FilterIsSubsequence(allUsers, MayHavePdi);
    Seqs.Filter(allUsers, MayHavePdi)
  }

  /** The manager select: every listed GESTOR or ADMIN, in list order. */
  function GestorOptions(allUsers: seq<PageUser>): (r: seq<PageUser>)
    ensures forall u :: u in r <==> u in allUsers && MayManage(u)
    ensures Seqs.IsSubsequence(r, allUsers)
  {
    Seqs.FilterIsSubsequence(allUsers, MayManage);
    Seqs.Filter(allUsers, MayManage)
  }

  /** Every manager offered is also offered as a collaborator, in the same relative order. */
  lemma GestorOptionsWithinColaboradorOptions(allUsers: seq<PageUser>)
    ensures Seqs.IsSubsequence(GestorOptions(allUsers), ColaboradorOptions(allUsers))
  {
    Seqs.FilterMonotone(allUsers, MayManage, MayHavePdi);
  }

  /** Edit and delete controls on a card. */
  predicate CanEditPdi(currentUserRole: string) {
    currentUserRole == "ADMIN" || currentUserRole == "GESTOR"
  }

  /** The "Novo PDI" button. */
  predicate CanCreatePdi(currentUser: Option<PageUser>) {
    currentUser.Some? && MayHavePdi(currentUser.value)
  }

  /** Whoever may edit a card may also create a PDI. */
  lemma EditorsMayCreate(u: PageUser)
    ensures CanEditPdi(u.role) ==> CanCreatePdi(Some(u))
    ensures u.role == "COLABORADOR" ==> CanCreatePdi(Some(u)) && !CanEditPdi(u.role)
  {
  }

  // ---------------------------------------------------------------------------------------------
  // Saving
  // ---------------------------------------------------------------------------------------------

  /** The API call `handleSavePDI` makes. */
  datatype SaveCall = UpdateCall(id: int, data: FormData) | CreateCall(data: FormData)

  /** `'id' in formData && formData.id`: update for a truthy id, create otherwise. */
  function SaveDispatch(f: FormData): (c: SaveCall)
    ensures c.data == f
    ensures c.UpdateCall? <==> f.id.Some? && f.id.value != 0
    ensures c.UpdateCall? ==> Some(c.id) == f.id
  {
    if f.id.Some? && f.id.value != 0 then UpdateCall(f.id.value, f) else CreateCall(f)
  }

  /** A form opened for a new PDI is always created, never updated. */
  lemma NewFormIsCreated(currentUser: Option<PageUser>)
    ensures SaveDispatch(InitialFormFor(currentUser)).CreateCall?
  {
  }

  /** `err.message || 'Falha ao salvar PDI.'`. */
  function SaveErrorMessage(e: Auth.Thrown): (m: string)
    ensures m != ""
    ensures e.ErrorObject? && e.message != "" ==> m == e.message
    ensures !(e.ErrorObject? && e.message != "") ==> m == SAVE_ERROR_DEFAULT
  {
    if e.ErrorObject? && e.message != "" then e.message else SAVE_ERROR_DEFAULT
  }

  // ---------------------------------------------------------------------------------------------
  // The dialog and the page as stateful components
  // ---------------------------------------------------------------------------------------------

  /** The state of `PDIFormModal`. */
  class PdiFormModal {
    var formData: FormData
    var formError: string

    constructor ()
      ensures formData == INITIAL_FORM_DATA && formError == ""
    {
      formData := INITIAL_FORM_DATA;
      formError := "";
    }

    /** The opening effect for a new PDI. */
    method OpenForCreate(currentUser: Option<PageUser>)
      modifies this
      ensures formData == InitialFormFor(currentUser) && formError == ""
    {
      if currentUser.Some? && currentUser.value.role == "COLABORADOR" {
        formData := INITIAL_FORM_DATA.(colaboradorId := Num(currentUser.value.id));
      } else {
        formData := INITIAL_FORM_DATA;
      }
      formError := "";
    }

    /** `handleChange`: the two id fields are parsed, every other field keeps the raw text. */
    method HandleChange(field: FormField, value: string)
      modifies this`formData
      ensures field == ColaboradorIdField ==> formData == old(formData).(colaboradorId := ParseNum(value))
      ensures field == GestorIdField ==> formData == old(formData).(gestorId := ParseNum(value))
      ensures field == TituloField ==> formData == old(formData).(titulo := value)
      ensures field == DescricaoGeralField ==> formData == old(formData).(descricaoGeral := value)
      ensures field == DataInicioField ==> formData == old(formData).(dataInicio := value)
      ensures field == DataConclusaoPrevistaField ==> formData == old(formData).(dataConclusaoPrevista := value)
      ensures field == StatusField ==> formData == old(formData).(status := value)
    {
      match field {
        case ColaboradorIdField => formData := formData.(colaboradorId := ParseNum(value));
        case GestorIdField => formData := formData.(gestorId := ParseNum(value));
        case TituloField => formData := formData.(titulo := value);
        case DescricaoGeralField => formData := formData.(descricaoGeral := value);
        case DataInicioField => formData := formData.(dataInicio := value);
        case DataConclusaoPrevistaField => formData := formData.(dataConclusaoPrevista := value);
        case StatusField => formData := formData.(status := value);
      }
    }

    /** `handleObjetivoChange`: whatever the index, the value becomes the general description. */
    method HandleObjetivoChange(index: int, value: string)
      modifies this`formData
      ensures formData == old(formData).(descricaoGeral := value)
    {
      formData := formData.(descricaoGeral := value);
    }

    /** `handleMetaChange`: only an existing goal is written, and only in the named field. */
    method HandleMetaChange(index: int, field: MetaField, value: string)
      modifies this`formData
      ensures !(0 <= index < |old(formData.metas)|) ==> formData == old(formData)
      ensures 0 <= index < |old(formData.metas)| ==>
        formData == old(formData).(metas := old(formData.metas)[index := SetMetaField(old(formData.metas)[index], field, value)])
    {
      var newMetas := formData.metas;
      if 0 <= index < |newMetas| {
        newMetas := newMetas[index := SetMetaField(newMetas[index], field, value)];
      }
      formData := formData.(metas := newMetas);
    }

    /** `addMetaField`: one blank goal is appended. */
    method AddMetaField()
      modifies this`formData
      ensures formData == old(formData).(metas := old(formData.metas) + [INITIAL_META])
    {
      formData := formData.(metas := formData.metas + [INITIAL_META]);
    }

    /** `removeMetaField`: the goal at `index` is dropped and the rest keep their order. */
    method RemoveMetaField(index: int)
      modifies this`formData
      ensures formData == old(formData).(metas := WithoutIndex(old(formData.metas), index))
    {
      formData := formData.(metas := WithoutIndex(formData.metas, index));
    }

    /** The "Remover Meta" buttons are shown only while more than one goal exists. */
    predicate ShowsRemoveControls()
      reads this
    {
      |formData.metas| > 1
    }

    /** `handleSubmit`: `saved` is what `onSave` receives, and it is called only for a valid form. */
    method HandleSubmit() returns (saved: Option<FormData>)
      modifies this`formError
      ensures formError == ValidationError(formData).GetOr("")
      ensures saved.Some? <==> ValidationError(formData).None?
      ensures saved.Some? ==> saved.value == formData
    {
      formError := "";
      if formData.colaboradorId == Num(0) {
        formError := ERR_COLABORADOR;
        return None;
      }
      Text.TrimEmptyIffBlank(formData.titulo);
      if Text.Trim(formData.titulo) == "" {
        formError := ERR_TITULO;
        return None;
      }
      if formData.dataInicio == "" || formData.dataConclusaoPrevista == "" {
        formError := ERR_DATAS;
        return None;
      }
      saved := Some(formData);
    }
  }

  /** Removing through the visible control never empties the goal list. */
  lemma RemoveControlKeepsAGoal(metas: seq<Meta>, index: int)
    requires |metas| > 1
    ensures |WithoutIndex(metas, index)| >= 1
  {
  }

  /** Adding a goal and then removing it gives back the goals there were. */
  lemma RemoveUndoesAdd(metas: seq<Meta>)
    ensures WithoutIndex(metas + [INITIAL_META], |metas|) == metas
  {
    assert (metas + [INITIAL_META])[..|metas|] == metas;
  }

  /** The state of `PDIsPage` that `handleSavePDI` touches; `fetches` counts page reloads. */
  class PdisPageState {
    var isModalOpen: bool
    var editingPdi: Option<int>
    var isSavingPdi: bool
    var pageError: Option<string>
    var fetches: nat

    constructor ()
      ensures !isModalOpen && editingPdi.None? && !isSavingPdi && pageError.None? && fetches == 0
    {
      isModalOpen, editingPdi, isSavingPdi, pageError, fetches := false, None, false, None, 0;
    }

    /**
     * `handleSavePDI`, with `outcome` how the API call settled. On success the dialog closes and the
     * page reloads; on failure the message is shown, the dialog stays and the error is re-thrown.
     */
    method HandleSavePdi(formData: FormData, outcome: Option<Auth.Thrown>) returns (call: SaveCall, rethrown: Option<Auth.Thrown>)
      modifies this
      ensures call == SaveDispatch(formData) && rethrown == outcome && !isSavingPdi
      ensures outcome.None? ==>
        !isModalOpen && editingPdi.None? && pageError.None? && fetches == old(fetches) + 1
      ensures outcome.Some? ==>
        isModalOpen == old(isModalOpen) && editingPdi == old(editingPdi) && fetches == old(fetches)
        && pageError == Some(SaveErrorMessage(outcome.value))
    {
      isSavingPdi := true;
      pageError := None;
      if formData.id.Some? && formData.id.value != 0 {
        call := UpdateCall(formData.id.value, formData);
      } else {
        call := CreateCall(formData);
      }
      match outcome {
        case None =>
          isModalOpen := false;
          editingPdi := None;
          fetches := fetches + 1;
        case Some(err) =>
          pageError := Some(if err.ErrorObject? && err.message != "" then err.message else SAVE_ERROR_DEFAULT);
      }
      rethrown := outcome;
      isSavingPdi := false;
    }
  }
}
