/**
 * The admin dashboard page (frontend/src/app/dashboard/page.tsx): who counts as admin, when the
 * summary is fetched, which of the four screens is shown, and how the two record-valued fields of
 * the summary become chart points.
 *
 * This file reads a user's roles as objects with a `name`. A record (`Record<string, number>`) is
 * the list of its entries in the order `Object.entries` yields them.
 */
module DashboardPage {
  import opened Wrappers
  import Text

  const COLORS: seq<string> := ["#0088FE", "#00C49F", "#FFBB28", "#FF8042"]

  datatype RoleObject = RoleObject(id: int, name: string)

  /** The summary fields this page reads beyond the cards' numbers. */
  datatype DashboardData = DashboardData(
    pdisPorStatus: Option<seq<(string, int)>>,
    usuariosPorPerfil: Option<seq<(string, int)>>)

  /** `user?.roles.some(role => role.name === 'ROLE_ADMIN')`; `None` is "no user". */
  predicate IsAdmin(userRoles: Option<seq<RoleObject>>) {
    userRoles.Some? && exists i :: 0 <= i < |userRoles.value| && userRoles.value[i].name == "ROLE_ADMIN"
  }

  /** The four screens, in the order the render tests them. */
  datatype View = Loading | Welcome | LoadFailure | Dashboard(data: DashboardData)

  /** Loading first; then a non-admin is welcomed; then missing data is reported; else the dashboard. */
  function Render(loading: bool, isAdmin: bool, data: Option<DashboardData>): (v: View)
    ensures loading <==> v == Loading
    ensures !loading && !isAdmin ==> v == Welcome
    ensures v == LoadFailure <==> !loading && isAdmin && data.None?
    ensures v.Dashboard? <==> !loading && isAdmin && data.Some?
    ensures v.Dashboard? ==> v.data == data.value
  {
    if loading then Loading
    else if !isAdmin then Welcome
    else if data.None? then LoadFailure
    else Dashboard(data.value)
  }

  /** A chart point. */
  datatype ChartPoint = ChartPoint(name: string, value: int)

  /** `Object.entries(record || {})`. */
  function Entries(record: Option<seq<(string, int)>>): seq<(string, int)> {
    record.GetOr([])
  }

  /** The bar chart: one point per entry, name and value unchanged. */
  function PdisPorStatusChart(record: Option<seq<(string, int)>>): (points: seq<ChartPoint>)
    ensures |points| == |Entries(record)|
    ensures forall i :: 0 <= i < |points| ==>
      points[i].name == Entries(record)[i].0 && points[i].value == Entries(record)[i].1
  {
    var entries := Entries(record);
    seq(|entries|, i requires 0 <= i < |entries| => ChartPoint(entries[i].0, entries[i].1))
  }

  /** The pie chart: one point per entry, the name without its first `ROLE_`, the value unchanged. */
  function UsuariosPorPerfilChart(record: Option<seq<(string, int)>>): (points: seq<ChartPoint>)
    ensures |points| == |Entries(record)|
    ensures forall i :: 0 <= i < |points| ==>
      points[i].name == Text.ReplaceFirst(Entries(record)[i].0, "ROLE_", "") && points[i].value == Entries(record)[i].1
  {
    var entries := Entries(record);
    seq(|entries|, i requires 0 <= i < |entries| => ChartPoint(Text.ReplaceFirst(entries[i].0, "ROLE_", ""), entries[i].1))
  }

  /** A `ROLE_<x>` entry becomes the slice `<x>`, with its count, at the same position. */
  lemma RoleEntriesLoseTheirPrefix(record: seq<(string, int)>, i: int, x: string)
    requires 0 <= i < |record| && record[i].0 == "ROLE_" + x
    ensures UsuariosPorPerfilChart(Some(record))[i] == ChartPoint(x, record[i].1)
  {
    Text.ReplaceLeading("ROLE_", x);
  }

  /** Slice `index` of the pie takes the colour `COLORS[index % 4]`, so the colours cycle. */
  function SliceColor(index: nat): (c: string)
    ensures c in COLORS
  {
    COLORS[index % |COLORS|]
  }

  /** Neighbouring slices differ in colour, and the colours repeat every four slices. */
  lemma SliceColorsCycle(index: nat)
    ensures SliceColor(index + 4) == SliceColor(index)
    ensures SliceColor(index + 1) != SliceColor(index)
  {
    assert (index + 4) % 4 == index % 4;
    assert COLORS[0] != COLORS[1] && COLORS[1] != COLORS[2] && COLORS[2] != COLORS[3] && COLORS[3] != COLORS[0];
  }

  /** The page's state; `fetches` counts calls to the summary endpoint. */
  class DashboardPageState {
    var data: Option<DashboardData>
    var loading: bool
    var fetches: nat

    constructor ()
      ensures data.None? && loading && fetches == 0
    {
      data, loading, fetches := None, true, 0;
    }

    /**
     * The effect: the summary is fetched only for a truthy token and an admin; `response` is what
     * the fetch resolved to (`None` when it threw). Loading ends on every path.
     */
    method RunEffect(token: Option<string>, userRoles: Option<seq<RoleObject>>, response: Option<DashboardData>)
      modifies this
      ensures !loading
      ensures token.Some? && token.value != "" && IsAdmin(userRoles) ==>
        fetches == old(fetches) + 1 && data == (if response.Some? then response else old(data))
      ensures !(token.Some? && token.value != "" && IsAdmin(userRoles)) ==>
        fetches == old(fetches) && data == old(data)
    {
      var isAdmin := userRoles.Some? && exists i :: 0 <= i < |userRoles.value| && userRoles.value[i].name == "ROLE_ADMIN";
      if token.Some? && token.value != "" && isAdmin {
        fetches := fetches + 1;
        if response.Some? {
          data := response;
        }
        loading := false;
      } else {
        loading := false;
      }
    }

    function CurrentView(isAdmin: bool): View
      reads this
    {
      Render(loading, isAdmin, data)
    }
  }

  /** After the effect a non-admin is always welcomed, and never triggers a fetch. */
  lemma NonAdminIsWelcomed(data: Option<DashboardData>, userRoles: Option<seq<RoleObject>>)
    requires !IsAdmin(userRoles)
    ensures Render(false, IsAdmin(userRoles), data) == Welcome
  {
  }
}
