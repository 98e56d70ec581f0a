/**
 * The feedback queries (backend/.../repository/FeedbackRepository.java) as functions of the
 * `feedbacks` table. The three `findBy` queries have no `ORDER BY`, so they are sets;
 * `findTop5ByOrderByDataEnvioDesc` is a sequence, newest first, whose ties the database breaks as it
 * pleases (an unspecified choice here).
 */
module FeedbackRepository {
  import opened Model
  import Sets

  /** `findByAutor`. */
  function FindByAutor(feedbacks: map<int, Feedback>, autor: Usuario): (r: set<Feedback>)
    ensures forall f :: f in r <==> f in feedbacks.Values && f.autorId == autor.id
  {
    set f | f in feedbacks.Values && f.autorId == autor.id
  }

  /** `findByDestinatario`. */
  function FindByDestinatario(feedbacks: map<int, Feedback>, destinatario: Usuario): (r: set<Feedback>)
    ensures forall f :: f in r <==> f in feedbacks.Values && f.destinatarioId == destinatario.id
  {
    set f | f in feedbacks.Values && f.destinatarioId == destinatario.id
  }

  /** `findByAutorAndDestinatario`: what both single-field queries return. */
  function FindByAutorAndDestinatario(feedbacks: map<int, Feedback>, autor: Usuario, destinatario: Usuario): (r: set<Feedback>)
    ensures r == FindByAutor(feedbacks, autor) * FindByDestinatario(feedbacks, destinatario)
  {
    set f | f in feedbacks.Values && f.autorId == autor.id && f.destinatarioId == destinatario.id
  }

  /** No feedback of `fs` was sent after `f`. */
  predicate IsNewest(f: Feedback, fs: set<Feedback>) {
    f in fs && forall g :: g in fs ==> g.dataEnvio <= f.dataEnvio
  }

  /** A non-empty set of feedbacks has a newest one. */
  lemma {:induction false} NewestExists(fs: set<Feedback>)
    requires fs != {}
    ensures exists f :: IsNewest(f, fs)
    decreases |fs|
  {
    var x := Sets.Pick(fs);
    var rest := fs - {x};
    if rest == {} {
      assert fs == {x};
      assert IsNewest(x, fs);
    } else {
      NewestExists(rest);
      var g :| IsNewest(g, rest);
      if x.dataEnvio >= g.dataEnvio {
        assert IsNewest(x, fs);
      } else {
        assert IsNewest(g, fs);
      }
    }
  }

  /** Each entry was sent no earlier than the entries after it. */
  predicate SortedNewestFirst(s: seq<Feedback>) {
    forall i, j :: 0 <= i < j < |s| ==> s[i].dataEnvio >= s[j].dataEnvio
  }

  /**
   * The first `k` feedbacks of `fs` in `dataEnvio` order, newest first: as many as there are up to
   * `k`, no repeats, and none left out that is newer than one kept.
   */
  ghost function NewestFirst(fs: set<Feedback>, k: nat): (r: seq<Feedback>)
    ensures |r| == if k < |fs| then k else |fs|
    ensures forall i :: 0 <= i < |r| ==> r[i] in fs
    ensures forall i, j :: 0 <= i < j < |r| ==> r[i] != r[j]
    ensures SortedNewestFirst(r)
    ensures forall f, i :: f in fs && f !in r && 0 <= i < |r| ==> f.dataEnvio <= r[i].dataEnvio
    decreases k
  {
    if k == 0 || fs == {} then []
    else
      NewestExists(fs);
      var newest :| IsNewest(newest, fs);
      var rest := NewestFirst(fs - {newest}, k - 1);
      assert forall i :: 0 <= i < |rest| ==> rest[i] in fs && rest[i] != newest;
      [newest] + rest
  }

  /** `findTop5ByOrderByDataEnvioDesc`. */
  ghost function FindTop5ByOrderByDataEnvioDesc(feedbacks: map<int, Feedback>): (r: seq<Feedback>)
    ensures |r| <= 5 && (|r| < 5 ==> |r| == |feedbacks.Values|)
    ensures forall i :: 0 <= i < |r| ==> r[i] in feedbacks.Values
    ensures forall i, j :: 0 <= i < j < |r| ==> r[i] != r[j]
    ensures SortedNewestFirst(r)
    ensures forall f, i :: f in feedbacks.Values && f !in r && 0 <= i < |r| ==> f.dataEnvio <= r[i].dataEnvio
  {
    NewestFirst(feedbacks.Values, 5)
  }

  /** With five or more feedbacks stored, exactly five come back; the first is the newest of all. */
  lemma TopFiveIsFullAndLedByTheNewest(feedbacks: map<int, Feedback>)
    requires |feedbacks.Values| >= 5
    ensures |FindTop5ByOrderByDataEnvioDesc(feedbacks)| == 5
    ensures IsNewest(FindTop5ByOrderByDataEnvioDesc(feedbacks)[0], feedbacks.Values)
  {
    var r := FindTop5ByOrderByDataEnvioDesc(feedbacks);
    forall g | g in feedbacks.Values
      ensures g.dataEnvio <= r[0].dataEnvio
    {
      if g !in r {
        assert g.dataEnvio <= r[0].dataEnvio;
      } else {
        var i :| 0 <= i < |r| && r[i] == g;
        assert i == 0 || r[0].dataEnvio >= r[i].dataEnvio;
      }
    }
  }

  /** A feedback newer than everything else stored is always among the five returned. */
  lemma StrictlyNewestIsReturned(feedbacks: map<int, Feedback>, f: Feedback)
    requires f in feedbacks.Values
    requires forall g :: g in feedbacks.Values && g != f ==> g.dataEnvio < f.dataEnvio
    ensures f in FindTop5ByOrderByDataEnvioDesc(feedbacks)
  {
    var r := FindTop5ByOrderByDataEnvioDesc(feedbacks);
    assert |r| >= 1 && r[0] in feedbacks.Values;
  }
}
