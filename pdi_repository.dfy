/**
 * The PDI queries (backend/.../repository/PDIRepository.java) as functions of the `pdis` table:
 * lookups by collaborator, the derived `countByStatus` and the `GROUP BY p.status` rows.
 *
 * `countByStatus` takes a `String` for an enum-typed column; it is read here as comparing the
 * string with the name under which the status is stored.
 */
module PdiRepository {
  import opened Wrappers
  import opened Model
  import Sets

  /** `findByColaboradorId`. */
  function FindByColaboradorId(pdis: map<int, Pdi>, colaboradorId: int): (r: set<Pdi>)
    ensures forall p :: p in r <==> p in pdis.Values && p.colaboradorId == colaboradorId
  {
    set p | p in pdis.Values && p.colaboradorId == colaboradorId
  }

  /** `findByColaborador`: the entity's id decides, so it agrees with `findByColaboradorId`. */
  function FindByColaborador(pdis: map<int, Pdi>, colaborador: Usuario): (r: set<Pdi>)
    ensures r == FindByColaboradorId(pdis, colaborador.id)
  {
    set p | p in pdis.Values && p.colaboradorId == colaborador.id
  }

  predicate HasStatusNamed(p: Pdi, status: string) {
    p.status.Some? && StatusName(p.status.value) == status
  }

  /** The ids of the PDIs whose status is stored under the name `status`. */
  function WithStatusNamed(pdis: map<int, Pdi>, status: string): (ids: set<int>)
    ensures forall id :: id in ids <==> id in pdis && HasStatusNamed(pdis[id], status)
  {
    set id | id in pdis && HasStatusNamed(pdis[id], status)
  }

  /** `countByStatus(status)`. */
  function CountByStatus(pdis: map<int, Pdi>, status: string): (n: nat)
    ensures n == |WithStatusNamed(pdis, status)|
    ensures n == 0 <==> forall id :: id in pdis ==> !HasStatusNamed(pdis[id], status)
  {
    var ids := WithStatusNamed(pdis, status);
    assert ids == {} <==> forall id :: id in pdis ==> !HasStatusNamed(pdis[id], status) by {
      if ids != {} {
        var id := Sets.Pick(ids);
      }
    }
    |ids|
  }

  /** A string that is not the name of a status counts nothing, whatever is stored. */
  lemma CountOfNonStatusIsZero(pdis: map<int, Pdi>, status: string)
    requires forall s :: StatusName(s) != status
    ensures CountByStatus(pdis, status) == 0
  {
    forall id | id in pdis
      ensures !HasStatusNamed(pdis[id], status)
    {
      if pdis[id].status.Some? {
        assert StatusName(pdis[id].status.value) != status;
      }
    }
  }

  /** The ids of the PDIs whose status column holds `s` (`None` is SQL `NULL`). */
  function WithStatus(pdis: map<int, Pdi>, s: Option<StatusPdi>): (ids: set<int>)
    ensures forall id :: id in ids <==> id in pdis && pdis[id].status == s
  {
    set id | id in pdis && pdis[id].status == s
  }

  /** Every value the status column can hold. */
  const ALL_STATUSES: seq<Option<StatusPdi>> :=
    [None, Some(Planejado), Some(EmAndamento), Some(Concluido), Some(Cancelado), Some(Atrasado)]

  /** `countPDIsByStatus`: one row per status present (including `NULL`), with its number of PDIs. */
  function CountPDIsByStatus(pdis: map<int, Pdi>): (rows: map<Option<StatusPdi>, nat>)
    ensures forall s :: s in rows <==> exists id :: id in pdis && pdis[id].status == s
    ensures forall s :: s in rows ==> rows[s] == |WithStatus(pdis, s)| && rows[s] >= 1
  {
    map s | s in (set id | id in pdis :: pdis[id].status) :: |WithStatus(pdis, s)|
  }

  /** The counts of the rows for `keys`, a missing row counting zero. */
  function SumRows(rows: map<Option<StatusPdi>, nat>, keys: seq<Option<StatusPdi>>): nat {
    if keys == [] then 0
    else (if keys[0] in rows then rows[keys[0]] else 0) + SumRows(rows, keys[1..])
  }

  /** The ids of the PDIs whose status is one of `keys`. */
  function WithStatusIn(pdis: map<int, Pdi>, keys: seq<Option<StatusPdi>>): set<int> {
    set id | id in pdis && pdis[id].status in keys
  }

  lemma {:induction false} RowsPartition(pdis: map<int, Pdi>, keys: seq<Option<StatusPdi>>)
    requires forall i, j :: 0 <= i < j < |keys| ==> keys[i] != keys[j]
    ensures SumRows(CountPDIsByStatus(pdis), keys) == |WithStatusIn(pdis, keys)|
    decreases |keys|
  {
    var rows := CountPDIsByStatus(pdis);
    if keys == [] {
      assert WithStatusIn(pdis, keys) == {};
    } else {
      RowsPartition(pdis, keys[1..]);
      var head, tail := WithStatus(pdis, keys[0]), WithStatusIn(pdis, keys[1..]);
      assert WithStatusIn(pdis, keys) == head + tail;
      assert head !! tail by {
        forall id | id in head ensures id !in tail {
          assert forall j :: 1 <= j < |keys| ==> keys[j] != keys[0];
        }
      }
      if keys[0] !in rows {
        assert head == {} by {
          if head != {} {
            var id := Sets.Pick(head);
          }
        }
      }
    }
  }

  /** The grouped counts add up to the number of PDIs: every PDI is counted in exactly one row. */
  lemma GroupedCountsSumToTotal(pdis: map<int, Pdi>)
    ensures SumRows(CountPDIsByStatus(pdis), ALL_STATUSES) == |pdis|
  {
    RowsPartition(pdis, ALL_STATUSES);
    assert WithStatusIn(pdis, ALL_STATUSES) == pdis.Keys by {
      forall id | id in pdis ensures pdis[id].status in ALL_STATUSES {
        match pdis[id].status {
          case None =>
          case Some(s) => assert s == Planejado || s == EmAndamento || s == Concluido || s == Cancelado || s == Atrasado;
        }
      }
    }
  }
}
