# Mail ingestion core: token cache, page walk, inbox filter and resilient token store

This project models, in Dafny, the part of the ticketing back end that reads a
shared mailbox through the Microsoft Graph API:

- **`Graph` (Class/Graph.py).**
  - `obtener_correos` reads the stored bearer token and checks whether it has expired. If it has, it retires it and asks the identity provider for a new one.
  - With a token, it resolves the target folder (`get_folder_id`) and walks the folder's message pages (`extraer_correos`) through `_make_request`.
  - It then drops automated senders and gateway-tagged subjects and sorts the rest newest first.
- **`Querys` (Utils/querys.py).** The store gateway for the token table. `get_token`, `desactivar_token` and `insertar_datos` each run their storage action inside the same bounded retry loop. The loop makes an attempt. On an exception it counts it and rolls back (except in `get_token`). Then it either closes the session, waits and reconnects, or, on the third failure, raises.

The model is split into four modules:

| file | module | contents |
|---|---|---|
| common.dfy | `Common` | `Option`, the escaping exceptions (`Error`), `Outcome`, Python truthiness of optional strings |
| token_store.dfy | `TokenStore` | token rows, the retry loop over a fault oracle, the table functions, each gateway operation as a pure step, and the class `Querys` whose three methods run the loop |
| mailbox.dfy | `Mailbox` | the message record, the filter of the list comprehension, the newest-first sort, the inbox |
| graph.dfy | `GraphClient` | responses, `_make_request`, `get_folder_id`, the page walk, the token decision and refresh, and the class `Graph` with the page loop and the token and inbox methods |

How the environment is represented:

- **Store failures.** Failures come from an oracle. `Querys.faults` lists, attempt by attempt, whether the storage action raises; every attempt past its end succeeds.
- **Session events.** Each session event (attempt, rollback, close, reconnect) is recorded in `Querys.trace`, and each reconnect bumps `Querys.session`.
- **HTTP and the clock.** The mail service is a function `Remote` from a bearer token and a URL to a response. The client-credentials exchange is its outcome, an `Option<Grant>`. The clock is the integer `now`.
- **State-changing methods.** Each one is proved equal to a pure step function of the state before it (`GetTokenStep`, `DeactivateStep`, `InsertStep`, `CreateTokenStep`, `ValidateTokenStep`, `Graph.ObtainSpec`). The properties are lemmas about those functions.

Behaviour of the code that the model keeps:

- **A failed page keeps what was collected.** A failed or empty page ends the walk, but the messages of the earlier pages are kept and returned (Class/Graph.py:111-113, 124).
- **The subject test is case-sensitive.** Only the sender is lower-cased; the subject prefixes are matched exactly (Class/Graph.py:43-44).
- **`get_token` does not roll back** after a failed attempt; the two writing operations do (Utils/querys.py:35-55 against 74-81 and 115-122).
- **A refused grant is not an error.** `_crear_nuevo_token` returns `None`, and `obtener_correos` then returns an empty list rather than an error (Class/Graph.py:32, 51, 165-166).
- **Folder lookup.** A failed lookup gives `None`. A successful `{}` body also gives `None`. A successful non-empty body with no `id` key raises `KeyError` (Class/Graph.py:94-97).

## Model

| member | source | states |
|---|---|---|
| `TokenStore.AttemptsFrom` | Utils/querys.py:15-55 | a loop makes at most 3 attempts; every attempt before the last one failed, and a loop that stops before the third attempt stopped on a success |
| `TokenStore.RaisesIffAllFail` | Utils/querys.py:35-55 | the loop raises exactly when attempts 1, 2 and 3 all raise |
| `TokenStore.FirstSuccessReturns` | Utils/querys.py:18-33 | a first success on attempt k returns at once: k + 1 attempts in all, and the loop returns a result |
| `TokenStore.TotalFailureTrace` | Utils/querys.py:74-98 | three failures give exactly attempt, (rollback,) close, reconnect, attempt, (rollback,) close, reconnect, attempt, (rollback): two reconnects and no fourth attempt |
| `TokenStore.TraceCounts` | Utils/querys.py:104-139 | one attempt event per attempt, one close and one reconnect per attempt but the last, one rollback per failure in the rolling-back operations and none in `get_token` |
| `TokenStore.TraceEndsWithLastAttempt` | Utils/querys.py:83-98 | nothing follows the last attempt but its rollback: no close or reconnect after the final failure |
| `TokenStore.LatestActive` | Utils/querys.py:22-33 | `get_token`'s row is an active row of the table with the largest id among active rows, and there is none exactly when no row is active |
| `TokenStore.DeactivateRetiresOnlyTarget` | Utils/querys.py:66-71 | deactivation keeps the set of ids, removes exactly the target from the active ids, sets only `estado` to 0 on the target row (its token and expiry are kept), and leaves every other row unchanged |
| `TokenStore.DeactivateAbsent` | Utils/querys.py:68-72 | deactivating an id no row has answers `False` and changes no row |
| `TokenStore.FailureLeavesTable` | Utils/querys.py:78-81 | an operation whose attempts all fail raises and leaves the table as it was |
| `TokenStore.StepsKeepValid` | Utils/querys.py:109-113 | every operation keeps the primary key and the identity counter above all ids; a successful insert adds exactly one row after the existing ones |
| `TokenStore.AppendedIsLatest` | Utils/querys.py:22-28 | an active row appended with an id above all stored ids is the row `get_token` selects |
| `TokenStore.RetiredIsNotSelected` | Utils/querys.py:66-69 | once a row is deactivated, `get_token` never selects it |
| `TokenStore.Querys.GetToken` | Utils/querys.py:14-57 | the loop of `get_token` has exactly the effect and result of `GetTokenStep`: the latest active row, or the exception after three failures, with no rollback |
| `TokenStore.Querys.DeactivateToken` | Utils/querys.py:60-100 | the loop of `desactivar_token` has exactly the effect and result of `DeactivateStep` |
| `TokenStore.Querys.InsertToken` | Utils/querys.py:103-141 | the loop of `insertar_datos` has exactly the effect and result of `InsertStep`: one new active row under the next id, returned |
| `Mailbox.FilteredMembers` | Class/Graph.py:41-45 | a message is kept if and only if it occurs and neither its lower-cased sender starts with `postmaster`/`noreply` nor its subject with `[!!Spam]`/`[!!Massmail]` |
| `Mailbox.FilteredCounts` | Class/Graph.py:41-45 | each kept message occurs as often as in the input, each dropped one not at all |
| `Mailbox.FilteredAppend` | Class/Graph.py:41-45 | the filter keeps the input order: filtering a concatenation concatenates the filtered parts |
| `Mailbox.SortSpec` | Class/Graph.py:48 | the sort returns a permutation of its input, ordered by non-increasing received time |
| `Mailbox.SortStable` | Class/Graph.py:48 | the sort is stable: messages received at the same time keep their input order |
| `Mailbox.Lower` | Class/Graph.py:43 | lower-casing keeps the length, turns every ASCII capital into its small letter, leaves no capital, and changes no other character |
| `Mailbox.LowerIdempotent` | Class/Graph.py:43 | lower-casing an address twice is lower-casing it once |
| `Mailbox.InboxSpec` | Class/Graph.py:39-48 | the inbox is newest first, holds only messages that pass the filter, and holds every passing message as often as the extraction returned it |
| `GraphClient.Request` | Class/Graph.py:127-139 | no request is sent without a token; the body is returned exactly for status 200 |
| `GraphClient.FolderId` | Class/Graph.py:89-97 | `None` without a token or on a failed or empty response; `KeyError` exactly when a successful non-empty body has no `id`; a successful non-empty body with an `id` gives exactly that `id` |
| `GraphClient.Paginate` | Class/Graph.py:103-124 | the walk calls `_make_request` at most as many times as its budget, not at all exactly for a missing link or no budget, and collects nothing without a token |
| `GraphClient.PaginateKeepsEarlierPages` | Class/Graph.py:109-123 | a larger budget only appends to what a smaller one collects, and a walk that stops (failed request, empty page, missing link) before the cap is the whole walk, with the earlier pages kept |
| `GraphClient.SelfLinkedPageHitsCap` | Class/Graph.py:103-122 | a non-empty page linking to itself is fetched exactly budget times, so the iteration cap is what ends the loop |
| `GraphClient.FilterPageByPage` | Class/Graph.py:41-45 | the filter over the collected messages is the filter of the first page followed by the filter of the rest |
| `GraphClient.Decide` | Class/Graph.py:56-83 | the stored token is reused exactly when the row has an expiry later than now, and the row is retired exactly when it has expired and has a non-zero id |
| `GraphClient.CreateTokenSpec` | Class/Graph.py:142-166 | a refused grant returns `None` and changes nothing; a granted token whose insert succeeds is returned and adds exactly one active row with expiry `now + expires_in`, which `get_token` selects from then on; a failed insert raises and leaves the table |
| `GraphClient.ReuseTouchesNothing` | Class/Graph.py:57-74 | a valid stored token is returned with no store operation and no grant request |
| `GraphClient.MissingRowRefreshes` | Class/Graph.py:56-59 | with no row, or a row without expiry, the client refreshes without retiring anything |
| `GraphClient.ExpiredRowIsReplaced` | Class/Graph.py:75-86 | an expired row with an id is retired and then one new token is stored and returned; `get_token` then serves the new token |
| `GraphClient.FailedRetireStopsRefresh` | Class/Graph.py:78-81 | when retiring the expired row fails, no token is requested and the store's exception escapes |
| `GraphClient.Graph.FirstPage` | Class/Graph.py:106-107 | there is a first page exactly when the folder id is truthy |
| `GraphClient.Graph.ExtractEmails` | Class/Graph.py:100-124 | the page loop returns what `Paginate` collects with a budget of 100, from at most 100 calls of `_make_request`, and nothing without a folder id |
| `GraphClient.Graph.Serve` | Class/Graph.py:32-51 | without a token the result is an empty list; the only exception is the folder's missing `id` |
| `GraphClient.Graph.ServedInbox` | Class/Graph.py:34-48 | with a token, the result is newest first, passes the filter, and has the same multiset as the filtered messages of the folder's pages |
| `GraphClient.Graph.CreateToken` | Class/Graph.py:142-166 | `_crear_nuevo_token` has exactly the effect and result of `CreateTokenStep` |
| `GraphClient.Graph.ValidateToken` | Class/Graph.py:54-86 | `validar_existencia_token` has exactly the effect and result of `ValidateTokenStep` |
| `GraphClient.Graph.ObtainEmails` | Class/Graph.py:22-51 | `obtener_correos` has exactly the result, new token and store effect of `ObtainSpec` |

## Left out

- HTTP. `requests.get` and `requests.post` are replaced by the `Remote` function and the `Option<Grant>` outcome. Network errors, timeouts and non-JSON bodies are not modelled.
- JSON `null`. `Json` has no null value, so a key present with `null` is treated as a missing key. This matters only for `id`: in the code, `{"id": null}` makes `get_folder_id` return `None` (Class/Graph.py:95-97), while the model raises `MissingKey("id")` for `Object(None, …)`.
- A 200 grant response without `access_token` or `expires_in` is not modelled. Such a response would store `None` or raise `TypeError` in `timedelta`.
- The clock and expiry parsing. `datetime.now()` is the integer `now`. The code reads the clock twice: at Class/Graph.py:67 for the expiry check, and again at Class/Graph.py:159 for the new expiry, after any deactivation retries and their sleeps. The model uses one `now` for both, so the stored expiry is `now + expires_in` with the first reading. `fecha_vencimiento` is an integer, so `fromisoformat` and the `Z` replacement (Class/Graph.py:61-64) are not modelled.
- Message fields are always present and never null. In the code, a message without `from`, `emailAddress` or `address`, or without `subject`, raises `KeyError` in the filter (Class/Graph.py:43-44), and one without `receivedDateTime` raises `KeyError` in the sort key (Class/Graph.py:48). A null address or subject raises `AttributeError` in `.lower()` or `.startswith` (Class/Graph.py:43-44). Each of these escapes `obtener_correos`. `Email` has no missing or null field, so these paths are not modelled.
- `receivedDateTime` is an integer. The service writes it in one ISO-8601 form whose text order is its time order.
- Lower-casing. `str.lower()` is modelled on ASCII letters only; Unicode case mapping is not modelled.
- Sleep and logging. `time.sleep(1)` between close and reconnect, every `print`, and the `tools.output` envelope are not modelled.
- SQLAlchemy session mechanics are reduced to the trace of attempt, rollback, close and reconnect events and a session counter. Connection pooling and `Config/db.py` are not part of this model.
- Attempts are atomic. A storage action either raises before changing the table or completes. A failure of `db.refresh` after `db.commit` in `insertar_datos` (Utils/querys.py:111-112) is not modelled.
- Identity values that a rolled-back insert may consume are not modelled.
- `insertar_datos` only for the token table. It is generic over ORM models; only the token table it is used with here is modelled.
- The trailing `return dict()`, `return False` and `return None` after the retry loops (Utils/querys.py:57, 100, 141) cannot be reached, because the third failure raises inside the loop.
- Out of scope:
  - Concurrency between simultaneous requests.
  - The synchronisation logic is not in Class/Graph.py or Utils/querys.py and is not part of this model.
  - Utils/rules.py, the ORM and schema declarations (only the token row's shape is taken from Models/IntranetGraphTokenModel.py:9-17), migration_correos.py, Router/Graph.py and Utils/constants.py.
