# Task list endpoint — a Dafny model

This project models the list endpoint of a small FastAPI to-do service
(`app.py`). The service keeps ten tasks (`Tarea`: id, title, status
`pendiente`/`completado`) in a module-level list, `fake_db`. `GET /tareas/` takes the query record
`FiltersParams`, which holds `limit` (default 5), `offset` (default 0) and an optional status.
When a status is given, the endpoint keeps only the tasks with that status, in their original
order. It then returns the Python slice `[offset:limit]`. Note that `limit` is used
as an END position, not as a page size.

Modules:

- `Wrappers` (`wrappers.dfy`): `Option`, for the status parameter, which may be absent.
- `Slicing` (`slicing.dfy`): Python's `s[a:b]` with step 1. Each bound is adjusted the way
  CPython adjusts slice indices: a negative bound counts from the end, and every bound is
  clamped into `0..len`. An end before the start gives `[]`, so a slice never fails.
- `Tareas` (`tareas.dfy`): the `Estado`, `Tarea` and `FiltersParams` records (with the
  source's defaults as constructor defaults), their validation constraints as the predicates
  `TareaValida` and `ConsultaValida`, the seed list `FakeDb`, the status filter
  `FiltrarPorEstado` and the endpoint `GetTareas`.

Everything is pure: `get_tareas` only reads `fake_db`. `GetTareas` is therefore a function of the
store and the query, and the store cannot change across a call. Pydantic rejects an invalid
query (HTTP 422) before the handler runs. For that reason `GetTareas` requires
`ConsultaValida(q)` (`limit >= 1`, `offset >= 0`) and has no error result.

`app.py` holds only this list endpoint, so the model covers the status filter and the single
`[offset:limit]` slice and nothing else.

## Declarations

These declarations carry no contract of their own. Each row names the lemma that states what
the source requires of it.

| declaration | source | stated by |
|---|---|---|
| `Tareas.Estado` | app.py:10 | A datatype with exactly the two values `Pendiente` and `Completado`, which are the literals the source allows. |
| `Tareas.Tarea` | app.py:7-10 | A datatype with `id`, `titulo` and `estado`, where `estado` defaults to `Pendiente`. `FakeDbValida` proves the seed records valid. |
| `Tareas.TareaValida` | app.py:8-9 | The predicate `id > 0` and `\|titulo\| >= 3`. `FakeDbValida` proves every seed task satisfies it. |
| `Tareas.FiltersParams` | app.py:13-16 | A datatype with defaults `limit = 5`, `offset = 0`, `estado = None`. `ConsultaPorDefecto` proves the defaults. |
| `Tareas.ConsultaValida` | app.py:14-15 | The predicate `limit >= 1` and `offset >= 0`. It is the precondition of `GetTareas`, and `ConsultaPorDefecto` proves the default query meets it. |
| `Tareas.FakeDb` | app.py:20-31 | The ten seed records in their source order. `FakeDbValida`, `ConsultaPorDefecto` and `CompletadasEnFakeDb` state what is proved about it. |

## Model

| member | source | states |
|---|---|---|
| `Slicing.PySlice` | app.py:41 | Python's `s[a:b]` with CPython's bound adjustment, total over all integer bounds. The result is never longer than `s`, and never longer than a non-negative end `b`. `PySliceNoNegativo` and `PySliceContiguo` give its closed form for the bounds the endpoint receives. |
| `Slicing.PySliceInicioNegativo` | app.py:41 | A negative start counts from the end: `s[a:b] == s[max(0, a + len):b]`. |
| `Slicing.PySliceFinNegativo` | app.py:41 | A negative end counts from the end: `s[a:b] == s[a:max(0, b + len)]`. |
| `Slicing.PySliceNoNegativo` | app.py:41 | For `a, b >= 0`, `s[a:b]` is `[]` when `a >= min(b, len)` and `s[a..min(b, len)]` otherwise. |
| `Slicing.PySliceContiguo` | app.py:43 | For `a, b >= 0`, `s[a:b]` has `max(0, min(b, len) - a)` elements, never more than `b`. It is empty when `a >= b` or `a >= len`, and its k-th element is `s[a + k]`. |
| `Slicing.PySliceSiempreRebanada` | app.py:43 | For any integer bounds the slice is `s[lo..hi]` for some `0 <= lo <= hi <= len`. Out-of-range bounds therefore never fail. |
| `Slicing.PySliceConcatena` | app.py:41 | For `0 <= a <= b <= c`, `s[a:b] + s[b:c] == s[a:c]`. |
| `Tareas.FiltrarPorEstado` | app.py:40 | The filtered list is no longer than the store, and each task in it is a task of the store with the requested status. |
| `Tareas.FiltroCompleto` | app.py:40 | Every task of the store with the requested status is kept. Together with the function's contract, membership in the filtered list is an if-and-only-if. |
| `Tareas.IndicesSenalanFiltradas` | app.py:40 | The k-th kept task is the store's task at the k-th kept position. |
| `Tareas.IndicesCrecientes` | app.py:40 | The kept positions strictly increase. A position is kept exactly when its task has the requested status. |
| `Tareas.FiltroEsSubsecuencia` | app.py:40 | The filter is a subsequence of the store in the original order, nothing duplicated or reordered. It consists of exactly the tasks with the requested status. |
| `Tareas.FiltroConcatena` | app.py:40 | Filtering `a + b` gives the filter of `a` followed by the filter of `b`. |
| `Tareas.FiltroIdempotente` | app.py:40 | Filtering an already filtered list by the same status changes nothing. |
| `Tareas.FiltroConservaIdsUnicos` | app.py:40 | A store without repeated ids gives a filtered list without repeated ids. |
| `Tareas.RebanadaConservaIdsUnicos` | app.py:41 | A slice of a list without repeated ids has no repeated ids, for any integer bounds. |
| `Tareas.GetTareas` | app.py:36-43 | The result is at most `limit` long, and empty when `offset >= limit`. Each returned task comes from the store. With a status, every returned task has that status; the result has `max(0, min(limit, n) - offset)` tasks, where `n` is the length of the filtered list, and its k-th task is the filtered list's task at `offset + k`. Without a status, the same holds for the unfiltered store. |
| `Tareas.GetTareasSinEstado` | app.py:43 | Without a status the result is exactly the store's tasks at positions `offset <= i < min(limit, len)`. |
| `Tareas.GetTareasFiltraYRebana` | app.py:39-41 | With a status, the result equals the unfiltered endpoint applied to the filtered list. |
| `Tareas.GetTareasPaginasContiguas` | app.py:41-43 | For `offset <= b <= c`, the answers for `[offset:b]` and `[b:c]` join to the answer for `[offset:c]`. This shows that `limit` acts as an end position. |
| `Tareas.GetTareasIdsUnicos` | app.py:36-43 | From a store without repeated ids the endpoint never returns two tasks with the same id. |
| `Tareas.FakeDbValida` | app.py:7-31 | The seed list (app.py:20-31) has ten tasks, with ids 1 to 10 in order, no id repeated. Every task satisfies the record constraints of `Tarea` (app.py:7-10): `id > 0` and a title of at least 3 characters. |
| `Tareas.ConsultaPorDefecto` | app.py:13-16 | The default query is `limit = 5`, `offset = 0`, no status, and it is valid. On the seed list it returns the tasks with ids 1 to 5. |
| `Tareas.CompletadasEnFakeDb` | app.py:20-31 | On the seed list, filtering by `completado` with the default paging returns the tasks with ids 2, 4 and 7, in that order. |

The field `estado` is of type `Estado`, which has exactly two values. Every status in the seed
list is therefore `pendiente` or `completado` by construction.

## Left out

- The FastAPI application object, route registration and `Query()` binding (app.py:33-37):
  HTTP plumbing with no logic of its own.
- Pydantic's validation mechanics and its 422 response. The field constraints appear as
  `TareaValida` and `ConsultaValida`, and `GetTareas` requires a valid query.
- Serialisation of the response body.
- Concurrency on the module-level list. The endpoint never mutates it.
- Search, get-by-id, create, update and delete: `app.py` does not contain them.
