/**
 * The task-list service: the task record, the query record of the list
 * endpoint, the ten seed tasks held in memory, and the list endpoint itself,
 * which optionally keeps only the tasks of one status and then returns the
 * Python slice `[offset:limit]` of what remains.
 */
module Tareas {
  import opened Wrappers
  import opened Slicing

  /** The two values a task's status may take. */
  datatype Estado = Pendiente | Completado

  /** A task; its status is `Pendiente` when it is not given. */
  datatype Tarea = Tarea(id: int, titulo: string, estado: Estado := Pendiente)

  /** The field constraints a task record is validated against. */
  predicate TareaValida(t: Tarea)
  {
    t.id > 0 && |t.titulo| >= 3
  }

  /** The query parameters of the list endpoint, with their defaults. */
  datatype FiltersParams = FiltersParams(limit: int := 5, offset: int := 0, estado: Option<Estado> := None)

  /** The field constraints the query parameters are validated against. */
  predicate ConsultaValida(q: FiltersParams)
  {
    q.limit >= 1 && q.offset >= 0
  }

  /** No two tasks of s share an id. */
  predicate IdsUnicos(s: seq<Tarea>)
  {
    forall i, j :: 0 <= i < j < |s| ==> s[i].id != s[j].id
  }

  /** The ids of s, in order. */
  function Ids(s: seq<Tarea>): (r: seq<int>)
    ensures |r| == |s|
    ensures forall k :: 0 <= k < |s| ==> r[k] == s[k].id
  {
    if s == [] then [] else [s[0].id] + Ids(s[1..])
  }

  /** The in-memory task list the service starts with. */
  const FakeDb: seq<Tarea> := [
    Tarea(1, "Estudiar Python", Pendiente),
    Tarea(2, "Lavar la ropa", Completado),
    Tarea(3, "Leer un libro", Pendiente),
    Tarea(4, "Ir al gimnasio", Completado),
    Tarea(5, "Comprar comida", Pendiente),
    Tarea(6, "Limpiar el cuarto", Pendiente),
    Tarea(7, "Pagar cuentas", Completado),
    Tarea(8, "Llamar a mamá", Pendiente),
    Tarea(9, "Revisar correo", Pendiente),
    Tarea(10, "Lavar carro", Pendiente)
  ]

  /**
   * The tasks of db whose status is e, in their order in db: the list
   * comprehension visits db front to back and appends each match, so the
   * filter of db is the filter of all but its last task, followed by that
   * task when it matches.
   */
  function FiltrarPorEstado(db: seq<Tarea>, e: Estado): (r: seq<Tarea>)
    ensures |r| <= |db|
    ensures forall t :: t in r ==> t in db && t.estado == e
  {
    if db == [] then []
    else
      var ultima := db[|db| - 1];
      FiltrarPorEstado(db[..|db| - 1], e) + (if ultima.estado == e then [ultima] else [])
  }

  /** The positions in db of the tasks whose status is e, in increasing order. */
  function IndicesPorEstado(db: seq<Tarea>, e: Estado): (r: seq<nat>)
  {
    if db == [] then []
    else IndicesPorEstado(db[..|db| - 1], e) + (if db[|db| - 1].estado == e then [|db| - 1] else [])
  }

  /** The list endpoint: the optional status filter, then the slice `[offset:limit]`. */
  function GetTareas(db: seq<Tarea>, q: FiltersParams): (r: seq<Tarea>)
    requires ConsultaValida(q)
    ensures |r| <= q.limit
    ensures q.offset >= q.limit ==> r == []
    ensures forall t :: t in r ==> t in db
    ensures q.estado.Some? ==> forall t :: t in r ==> t.estado == q.estado.value
    ensures q.estado.Some? ==>
      var filtrada := FiltrarPorEstado(db, q.estado.value);
      && |r| == Max(0, Min(q.limit, |filtrada|) - q.offset)
      && forall k :: 0 <= k < |r| ==> r[k] == filtrada[q.offset + k]
    ensures q.estado.None? ==>
      && |r| == Max(0, Min(q.limit, |db|) - q.offset)
      && forall k :: 0 <= k < |r| ==> r[k] == db[q.offset + k]
  {
    if q.estado.Some? then
      var filtrada := FiltrarPorEstado(db, q.estado.value);
      PySliceContiguo(filtrada, q.offset, q.limit);
      PySlice(filtrada, q.offset, q.limit)
    else
      PySliceContiguo(db, q.offset, q.limit);
      PySlice(db, q.offset, q.limit)
  }

  // Properties of the status filter

  /** The k-th kept task is the task of db at the k-th kept position. */
  lemma {:induction false} IndicesSenalanFiltradas(db: seq<Tarea>, e: Estado)
    ensures |IndicesPorEstado(db, e)| == |FiltrarPorEstado(db, e)|
    ensures forall k :: 0 <= k < |IndicesPorEstado(db, e)| ==>
      IndicesPorEstado(db, e)[k] < |db| && FiltrarPorEstado(db, e)[k] == db[IndicesPorEstado(db, e)[k]]
  {
    if db != [] {
      var n := |db| - 1;
      var init := db[..n];
      IndicesSenalanFiltradas(init, e);
      var idx0, r0 := IndicesPorEstado(init, e), FiltrarPorEstado(init, e);
      var idx, r := IndicesPorEstado(db, e), FiltrarPorEstado(db, e);
      assert idx == idx0 + (if db[n].estado == e then [n] else []);
      assert r == r0 + (if db[n].estado == e then [db[n]] else []);
      forall k | 0 <= k < |idx|
        ensures idx[k] < |db| && r[k] == db[idx[k]]
      {
        if k < |idx0| {
          assert idx[k] == idx0[k] && r[k] == r0[k] && init[idx0[k]] == db[idx0[k]];
        }
      }
    }
  }

  /** The kept positions are strictly increasing and are exactly those of the tasks of status e. */
  lemma {:induction false} IndicesCrecientes(db: seq<Tarea>, e: Estado)
    ensures forall k :: 0 <= k < |IndicesPorEstado(db, e)| ==> IndicesPorEstado(db, e)[k] < |db|
    ensures forall k, l :: 0 <= k < l < |IndicesPorEstado(db, e)| ==>
      IndicesPorEstado(db, e)[k] < IndicesPorEstado(db, e)[l]
    ensures forall i :: 0 <= i < |db| ==> (db[i].estado == e <==> i in IndicesPorEstado(db, e))
  {
    if db != [] {
      var n := |db| - 1;
      var init := db[..n];
      IndicesCrecientes(init, e);
      var idx0 := IndicesPorEstado(init, e);
      var idx := IndicesPorEstado(db, e);
      assert idx == idx0 + (if db[n].estado == e then [n] else []);
      forall i | 0 <= i < |db|
        ensures db[i].estado == e <==> i in idx
      {
        if i < n {
          assert db[i] == init[i];
        }
      }
    }
  }

  /**
   * The filter keeps exactly the tasks of status e, each at its own position:
   * the k-th kept task is db[idx[k]] for strictly increasing positions idx,
   * and a position of db is among them exactly when its task has status e.
   */
  lemma FiltroEsSubsecuencia(db: seq<Tarea>, e: Estado)
    ensures |IndicesPorEstado(db, e)| == |FiltrarPorEstado(db, e)|
    ensures forall k :: 0 <= k < |IndicesPorEstado(db, e)| ==>
      IndicesPorEstado(db, e)[k] < |db| && FiltrarPorEstado(db, e)[k] == db[IndicesPorEstado(db, e)[k]]
    ensures forall k, l :: 0 <= k < l < |IndicesPorEstado(db, e)| ==>
      IndicesPorEstado(db, e)[k] < IndicesPorEstado(db, e)[l]
    ensures forall i :: 0 <= i < |db| ==> (db[i].estado == e <==> i in IndicesPorEstado(db, e))
  {
    IndicesSenalanFiltradas(db, e);
    IndicesCrecientes(db, e);
  }

  /** A task of db with status e is kept by the filter: with the contract, membership is an if-and-only-if. */
  lemma {:induction false} FiltroCompleto(db: seq<Tarea>, e: Estado, t: Tarea)
    requires t in db && t.estado == e
    ensures t in FiltrarPorEstado(db, e)
  {
    var n := |db| - 1;
    if db[n] != t {
      assert t in db[..n] by {
        var i :| 0 <= i < |db| && db[i] == t;
        assert i != n;
        assert db[..n][i] == t;
      }
      FiltroCompleto(db[..n], e, t);
    }
  }

  /** Filtering a concatenation filters each part and keeps them in order. */
  lemma {:induction false} FiltroConcatena(a: seq<Tarea>, b: seq<Tarea>, e: Estado)
    ensures FiltrarPorEstado(a + b, e) == FiltrarPorEstado(a, e) + FiltrarPorEstado(b, e)
  {
    if b == [] {
      assert a + b == a;
    } else {
      var n := |b| - 1;
      var cola := if b[n].estado == e then [b[n]] else [];
      assert (a + b)[..|a + b| - 1] == a + b[..n];
      assert (a + b)[|a + b| - 1] == b[n];
      calc {
        FiltrarPorEstado(a + b, e);
        FiltrarPorEstado(a + b[..n], e) + cola;
        { FiltroConcatena(a, b[..n], e); }
        FiltrarPorEstado(a, e) + FiltrarPorEstado(b[..n], e) + cola;
        FiltrarPorEstado(a, e) + FiltrarPorEstado(b, e);
      }
    }
  }

  /** Every task of the filtered list already has status e, so filtering it again changes nothing. */
  lemma {:induction false} FiltroIdempotente(db: seq<Tarea>, e: Estado)
    ensures FiltrarPorEstado(FiltrarPorEstado(db, e), e) == FiltrarPorEstado(db, e)
  {
    if db != [] {
      var n := |db| - 1;
      FiltroIdempotente(db[..n], e);
      var resto := FiltrarPorEstado(db[..n], e);
      var cola := if db[n].estado == e then [db[n]] else [];
      FiltroConcatena(resto, cola, e);
      if cola != [] {
        assert [db[n]][..0] == [];
      }
    }
  }

  /** A list without repeated ids gives a filtered list without repeated ids. */
  lemma FiltroConservaIdsUnicos(db: seq<Tarea>, e: Estado)
    requires IdsUnicos(db)
    ensures IdsUnicos(FiltrarPorEstado(db, e))
  {
    FiltroEsSubsecuencia(db, e);
  }

  // Properties of the list endpoint

  /** A slice of a list without repeated ids has no repeated ids, whatever its bounds. */
  lemma RebanadaConservaIdsUnicos(s: seq<Tarea>, a: int, b: int)
    requires IdsUnicos(s)
    ensures IdsUnicos(PySlice(s, a, b))
  {
    PySliceSiempreRebanada(s, a, b);
    var lo, hi :| 0 <= lo <= hi <= |s| && PySlice(s, a, b) == s[lo..hi];
    forall i, j | 0 <= i < j < hi - lo
      ensures s[lo..hi][i].id != s[lo..hi][j].id
    {
      assert s[lo..hi][i] == s[lo + i] && s[lo..hi][j] == s[lo + j];
    }
  }

  /** The endpoint never returns two tasks with the same id from a store without repeated ids. */
  lemma GetTareasIdsUnicos(db: seq<Tarea>, q: FiltersParams)
    requires ConsultaValida(q) && IdsUnicos(db)
    ensures IdsUnicos(GetTareas(db, q))
  {
    if q.estado.Some? {
      FiltroConservaIdsUnicos(db, q.estado.value);
      RebanadaConservaIdsUnicos(FiltrarPorEstado(db, q.estado.value), q.offset, q.limit);
    } else {
      RebanadaConservaIdsUnicos(db, q.offset, q.limit);
    }
  }

  /** Without a status the endpoint returns the tasks at positions offset <= i < min(limit, |db|). */
  lemma GetTareasSinEstado(db: seq<Tarea>, q: FiltersParams)
    requires ConsultaValida(q) && q.estado.None?
    ensures GetTareas(db, q) ==
      if q.offset >= Min(q.limit, |db|) then [] else db[q.offset..Min(q.limit, |db|)]
  {
    PySliceNoNegativo(db, q.offset, q.limit);
  }

  /** With a status, the endpoint is the unfiltered endpoint applied to the filtered list. */
  lemma GetTareasFiltraYRebana(db: seq<Tarea>, q: FiltersParams)
    requires ConsultaValida(q) && q.estado.Some?
    ensures GetTareas(db, q) == GetTareas(FiltrarPorEstado(db, q.estado.value), q.(estado := None))
  {
  }

  /**
   * `limit` is an end position, not a page size: the answers for [a:b] and
   * [b:c] join to the answer for [a:c], with the same status filter.
   */
  lemma GetTareasPaginasContiguas(db: seq<Tarea>, q: FiltersParams, b: int, c: int)
    requires ConsultaValida(q) && q.offset <= b <= c && b >= 1
    ensures GetTareas(db, q.(limit := b)) + GetTareas(db, q.(offset := b, limit := c))
         == GetTareas(db, q.(limit := c))
  {
    var base := if q.estado.Some? then FiltrarPorEstado(db, q.estado.value) else db;
    PySliceConcatena(base, q.offset, b, c);
  }

  // The seed list and the default query

  /** The seed tasks carry ids 1 to 10 in order, all distinct, and all satisfy the task constraints. */
  lemma FakeDbValida()
    ensures |FakeDb| == 10
    ensures forall i :: 0 <= i < |FakeDb| ==> FakeDb[i].id == i + 1
    ensures IdsUnicos(FakeDb)
    ensures forall t :: t in FakeDb ==> TareaValida(t)
  {
  }

  /** The default query is valid and, on the seed list, returns the tasks with ids 1 to 5. */
  lemma ConsultaPorDefecto()
    ensures ConsultaValida(FiltersParams())
    ensures FiltersParams() == FiltersParams(5, 0, None)
    ensures Ids(GetTareas(FakeDb, FiltersParams())) == [1, 2, 3, 4, 5]
  {
    GetTareasSinEstado(FakeDb, FiltersParams());
  }

  // Steps of the seed-list example CompletadasEnFakeDb below. They are not
  // properties of the endpoint: they split the evaluation of the filter on
  // the ten literal tasks into pieces small enough for the solver.

  /** Extending a prefix of db by one task extends its filtered list by that task when it matches. */
  lemma FiltroPrefijo(db: seq<Tarea>, e: Estado, k: nat)
    requires k < |db|
    ensures FiltrarPorEstado(db[..k + 1], e) ==
      FiltrarPorEstado(db[..k], e) + (if db[k].estado == e then [db[k]] else [])
  {
    assert db[..k + 1][..k] == db[..k];
  }

  /** Five tasks of which only the second and the fourth are completed keep exactly those two. */
  lemma FiltroCompletadasDeCinco(s: seq<Tarea>)
    requires |s| == 5
    requires s[1].estado == s[3].estado == Completado
    requires s[0].estado == s[2].estado == s[4].estado == Pendiente
    ensures FiltrarPorEstado(s, Completado) == [s[1], s[3]]
  {
    var e := Completado;
    assert s[..0] == [];
    assert FiltrarPorEstado(s[..1], e) == [] by { FiltroPrefijo(s, e, 0); }
    assert FiltrarPorEstado(s[..2], e) == [s[1]] by { FiltroPrefijo(s, e, 1); }
    assert FiltrarPorEstado(s[..3], e) == [s[1]] by { FiltroPrefijo(s, e, 2); }
    assert FiltrarPorEstado(s[..4], e) == [s[1], s[3]] by { FiltroPrefijo(s, e, 3); }
    FiltroPrefijo(s, e, 4);
    assert s[..5] == s;
  }

  /** Five tasks of which only the second is completed keep exactly that one. */
  lemma FiltroCompletadaDeCinco(s: seq<Tarea>)
    requires |s| == 5
    requires s[1].estado == Completado
    requires s[0].estado == s[2].estado == s[3].estado == s[4].estado == Pendiente
    ensures FiltrarPorEstado(s, Completado) == [s[1]]
  {
    var e := Completado;
    assert s[..0] == [];
    assert FiltrarPorEstado(s[..1], e) == [] by { FiltroPrefijo(s, e, 0); }
    assert FiltrarPorEstado(s[..2], e) == [s[1]] by { FiltroPrefijo(s, e, 1); }
    assert FiltrarPorEstado(s[..3], e) == [s[1]] by { FiltroPrefijo(s, e, 2); }
    assert FiltrarPorEstado(s[..4], e) == [s[1]] by { FiltroPrefijo(s, e, 3); }
    FiltroPrefijo(s, e, 4);
    assert s[..5] == s;
  }

  /** Ten tasks whose statuses are those of the seed list keep, for Completado, the second, fourth and seventh. */
  lemma FiltroCompletadasDeDiez(db: seq<Tarea>)
    requires |db| == 10
    requires db[1].estado == db[3].estado == db[6].estado == Completado
    requires db[0].estado == db[2].estado == db[4].estado == db[5].estado == Pendiente
    requires db[7].estado == db[8].estado == db[9].estado == Pendiente
    ensures FiltrarPorEstado(db, Completado) == [db[1], db[3], db[6]]
  {
    var a, b := db[..5], db[5..];
    assert db == a + b;
    FiltroConcatena(a, b, Completado);
    FiltroCompletadasDeCinco(a);
    FiltroCompletadaDeCinco(b);
  }

  /** On the seed list the completed tasks are those with ids 2, 4 and 7, and all three fit the default limit. */
  lemma CompletadasEnFakeDb()
    ensures Ids(GetTareas(FakeDb, FiltersParams(estado := Some(Completado)))) == [2, 4, 7]
  {
    FiltroCompletadasDeDiez(FakeDb);
  }
}
