# Personal-finance backend: settlement engine, goals, users and chat in Dafny

This project models the stateful core of a personal-finance backend
(Express routers over PostgreSQL, plus a Socket.IO chat) and proves what its
handlers promise.

- **Payment settlement** (`pagos.dfy`, routes/pagos.js). The router keeps a mock
  bank balance `saldoBancario` (10000 at start) and an in-memory table
  `referenciasPago` of registered payment methods, and writes to the `metas`
  and `pagos` tables. `Bank` is the value of all four. The pure functions
  `Register`, `Settle`, `RunBatch`, `FirstReference` and `MethodsOf` say what
  each handler does to that value. The class `PaymentEngine` runs the handlers
  step by step on mutable fields, with the scanning loops of the source, and is
  proved to agree with those functions. The invariant `BankValid` (balance never
  negative, at most four characters of any number stored) is preserved by every
  step.
- **Goal store** (`metas.dfy`, routes/metas.js). The class `GoalStore` holds
  the `metas` and `depositos_metas` tables. Creating applies the body
  defaults, updating replaces the nine editable columns, deleting cascades to
  the goal's deposits, and depositing appends a deposit and credits the goal.
  The invariant says every deposit belongs to an existing goal. The deposit
  listing is an insertion sort proved to be a permutation in
  `ORDER BY fecha DESC` order, NULL dates first.
- **User table** (`usuarios.dfy`, routes/usuarios.js). The class `UserTable`
  holds `usuarios`, keeping non-NULL emails unique. It models public and admin
  creation, COALESCE update, the "another admin must remain" delete guard,
  activation, and exact-match login. `Stats` is the statistics endpoint, with
  its derived counts proved equal to the complementary counts.
- **Chat state** (`chat.dfy`, server.js). The class `ChatServer` holds the
  map of identified sockets and the chat history. The history is bounded:
  push, then drop the oldest once there are more than 100. `PushAllKeepsLatest`
  proves that the history is always the last 100 messages ever accepted.

`tables.dfy` holds the row types the routers share and two pieces of foreign
semantics: JavaScript truthiness of request fields, and SQL arithmetic on
nullable columns. `CreditGoal` is the one goal credit
(`monto_actual = monto_actual + x`) used by deposits, single payments and the
automatic batch.

The bank's accept/decline draw (`Math.random`) is a parameter `accept`, one per
goal (`accepts`) in the batch. The clock is a parameter `now`. The generated
reference token is a parameter `token` that must not be in the table yet. The
row order of the eligible-goals query, which has no ORDER BY, is a parameter
`rows`: it must list every eligible goal exactly once.

The model follows the code as written:
- `monto` is never checked to be positive, so a negative payment raises the
  balance.
- The insufficient-funds check returns before anything is written, so no
  record is kept for it.
- The automatic batch has its own loop body. It writes no record for a
  declined or unfunded goal, and it records the raw `tipo_metodo` as
  `metodo_pago`, where the single path writes `tarjeta` or `transferencia`.
- The batch uses the user's first reference in insertion order (JavaScript
  `Map` iteration).
- A payment whose `meta_id` names no goal still succeeds and credits nothing.

## Model

| member | source | states |
|---|---|---|
| Tables.CreditGoal | routes/metas.js:169-172 | crediting a goal changes only that goal's `monto_actual`, to the SQL sum (NULL when either side is NULL); same key set; a missing id changes nothing |
| Pagos.Last4 | routes/pagos.js:99 | `slice(-4)`: the last four characters, or the whole string when shorter |
| Pagos.Validate | routes/pagos.js:76-90 | registration passes iff a `tarjeta` has a 16-character number, a 3-character CVV and an expiry, and a `cuenta_bancaria` has an account number; the first failing check names the error |
| Pagos.UltimosDigitos | routes/pagos.js:96-102 | the stored identifier has at most 4 characters: the card's last 4 (never the full number), else the account's last 4, else "" |
| Pagos.Register | routes/pagos.js:60-119 | a rejected registration leaves the state unchanged; an accepted one stores exactly the masked reference under the fresh token, appends it to the insertion order, and returns the same `ultimos_digitos`; the bank invariant is preserved |
| Pagos.CvvNeverStored | routes/pagos.js:96-102 | the CVV does not influence what is stored or returned |
| Pagos.CardNumberStoredOnlyAsLast4 | routes/pagos.js:99 | card numbers with the same last 4 digits produce the same stored state and answer |
| Pagos.Settle | routes/pagos.js:122-246 | funds check first (`monto == saldo` passes) with no change; a reference is honoured only for its owner, otherwise no change; every admitted attempt appends exactly one record: on accept `completado`, `saldo_posterior = saldo_anterior - monto` and the new balance equals it; on decline `rechazado`, balances equal and no goal changes; only an accepted goal payment credits exactly its goal by `monto`; the card data recorded is the masked reference; the balance stays non-negative |
| Pagos.FirstReference | routes/pagos.js:256-262 | a found reference belongs to the user and is registered |
| Pagos.FirstReferenceIsFirst | routes/pagos.js:256-266 | nothing is found iff the user owns no reference; otherwise every earlier-registered reference belongs to someone else |
| Pagos.MethodsOf | routes/pagos.js:365-376 | every listed method belongs to the user and shows its stored masked data |
| Pagos.MethodsOfComplete | routes/pagos.js:365-376 | every method of the user is listed |
| Pagos.MethodsOfAppend | routes/pagos.js:366-376 | scanning two parts of the insertion order lists the methods of the first part, then those of the second |
| Pagos.BatchStep | routes/pagos.js:280-340 | one goal of the batch keeps the reference table and the bank invariant |
| Pagos.RunBatch | routes/pagos.js:278-349 | one result per goal, in order, each naming its goal and automatic amount; the bank invariant is preserved |
| Pagos.BatchBalance | routes/pagos.js:278-349 | the final balance is the initial balance minus the sum of the completed amounts |
| Pagos.BatchSequential | routes/pagos.js:282-297 | goal i is unfunded iff its amount exceeds the balance left by goals before it, and completed iff funded and accepted |
| Pagos.BatchLedger | routes/pagos.js:297-339 | the batch appends one completed, automatic record per completed goal and none for a declined or unfunded goal; earlier records are untouched; each record keeps the balance equation and the raw `tipo_metodo`; the `pago_id` of a completed result names the appended record of that goal, with its amount |
| Pagos.BatchSaldoNonNegative | routes/pagos.js:282-322 | the running balance never goes negative |
| Pagos.BatchGoals | routes/pagos.js:297-302 | each completed goal is credited by exactly its automatic amount; no other goal changes |
| Pagos.PaymentEngine.constructor | routes/pagos.js:6-9 | the balance starts at 10000 with no registered method |
| Pagos.PaymentEngine.RegisterMethod | routes/pagos.js:60-119 | the handler's checks, masking and store agree with `Register` |
| Pagos.PaymentEngine.Pay | routes/pagos.js:122-246 | the handler agrees with `Settle` |
| Pagos.PaymentEngine.FindReference | routes/pagos.js:256-262 | the scan over the reference table returns `FirstReference` |
| Pagos.PaymentEngine.ProcessAutomatic | routes/pagos.js:249-357 | no reference: failure with no change; otherwise the state and `procesados`/`resultados`/`saldo_actual` are those of `RunBatch` |
| Pagos.PaymentEngine.SettleGoals | routes/pagos.js:278-341 | the loop over the goal rows agrees with `RunBatch` |
| Pagos.PaymentEngine.AutomaticStep | routes/pagos.js:280-340 | one iteration of the loop agrees with `BatchStep` |
| Pagos.PaymentEngine.ListMethods | routes/pagos.js:360-380 | the scan returns `MethodsOf` |
| Pagos.PaymentEngine.Saldo | routes/pagos.js:383-386 | the reported balance is the current one and is non-negative |
| Metas.WithoutDepositsOf | routes/metas.js:110 | exactly the deposits of other goals remain; when none belongs to the goal nothing changes |
| Metas.DepositsOf | routes/metas.js:135-137 | exactly the deposits of that goal are selected |
| Metas.InsertDescCorrect | routes/metas.js:136 | inserting into a `fecha DESC` list keeps it ordered and adds exactly one element |
| Metas.SortDescCorrect | routes/metas.js:136 | the sort is a permutation into `fecha DESC` order, NULL dates first |
| Metas.GoalStore.Create | routes/metas.js:28-55 | a new goal under a fresh id, `usuario_id` 1, `monto_actual` 0 and `tipo_deposito` 'manual' unless given; nothing else changes |
| Metas.GoalStore.Update | routes/metas.js:66-94 | 404 with no change for an unknown id; otherwise all nine editable columns take the body's values (absent ones NULL) and the owner is kept |
| Metas.GoalStore.Delete | routes/metas.js:105-118 | the goal's deposits are deleted, then the goal; 404 for an unknown goal, and then the deposit deletion changed nothing; every deposit still belongs to an existing goal |
| Metas.GoalStore.ListDeposits | routes/metas.js:131-139 | exactly the goal's deposits (as a multiset), newest `fecha` first |
| Metas.GoalStore.AddDeposit | routes/metas.js:150-174 | 404 with no change for a missing goal; otherwise exactly one deposit appended, `tipo` defaulting to 'manual', and only that goal credited by `monto` |
| Usuarios.AsWrittenGuardBreaksUniqueness | routes/usuarios.js:168-184 | the update guard as written admits an empty email held by another user, and the update then leaves two users with the same email |
| Usuarios.AdmittedUpdateKeepsUnique | routes/usuarios.js:168-184 | with every written email checked, an update keeps emails unique |
| Usuarios.SplitUsers | routes/usuarios.js:48-50 | `total - activos` counts exactly the users whose `activo` is not true (false or NULL) |
| Usuarios.SplitGoals | routes/usuarios.js:53-55 | `total - completadas` counts exactly the goals not completed |
| Usuarios.CountPagosCompletadosBound | routes/usuarios.js:58-59 | there are no more completed payments than payments |
| Usuarios.Stats | routes/usuarios.js:7-74 | totals are table sizes; `activos` and `completadas` count the active users and completed goals, and `inactivos` and `en_progreso` the complementary ones; `pagos_exitosos` is the number of completed records; `total_ingresos` is the sum over completed 'ingreso' records, `total_gastos` over 'gasto' rows, `total_ahorrado` over goal amounts; `balance_general = total_ingresos - total_gastos` |
| Usuarios.CountPagosCompletadosIsCount | routes/usuarios.js:21 | counting along the ledger gives exactly the number of records whose `estado` is 'completado' |
| Usuarios.IngresosAppend | routes/usuarios.js:27-31 | `total_ingresos` adds up over any split of the ledger; one more record adds its amount when it is a completed income payment and nothing otherwise |
| Usuarios.GastosMontoAppend | routes/usuarios.js:33-37 | `total_gastos` adds up over any split of the `gastos` table; one more row adds its amount when it is a 'gasto' with a non-NULL amount and nothing otherwise |
| Usuarios.UserTable.Register | routes/usuarios.js:95-126 | 400 with no change unless `nombre`, `email` and `password` are all truthy, or when the email is taken; otherwise one new user with role 'user'; emails stay unique |
| Usuarios.UserTable.CreateByAdmin | routes/usuarios.js:129-159 | 400 with no change iff the email is taken; otherwise one new user with role defaulting to 'user' and `activo` to true; emails stay unique |
| Usuarios.UserTable.Update | routes/usuarios.js:162-202 | an email held by another user is refused before the id is looked up; 404 for an unknown id; absent fields keep their values; nothing changes on failure; emails stay unique |
| Usuarios.UserTable.Delete | routes/usuarios.js:205-236 | refused iff no admin other than the target exists (checked before the id); 404 for an unknown id; on success exactly that user is gone and an admin remains; a table with an admin always keeps one |
| Usuarios.UserTable.SetActivo | routes/usuarios.js:239-261 | only the target's `activo` changes; 404 with no change when absent |
| Usuarios.UserTable.Login | routes/usuarios.js:264-293 | succeeds iff some user has exactly this email and password, returns that one user, and stamps only its `ultimo_acceso`; otherwise 401 with no change |
| Chat.Push | server.js:75-80 | the new message is last; under 100 nothing is dropped; at 100 exactly the oldest is dropped; the length stays at most 100 |
| Chat.PushAllKeepsLatest | server.js:75-80 | after any run of messages, the history is the last 100 of all messages pushed |
| Chat.ChatServer.UserIdentified | server.js:41-57 | the socket's entry holds the payload and the socket id, and is admin iff the role is 'admin'; it is set (overwritten on re-identification, same size); the broadcast count is the map size |
| Chat.ChatServer.SendMessage | server.js:60-84 | an unidentified socket changes nothing; otherwise the message carries the sender's stored id, name, email and admin flag and the text, the history is `Push` of it (it goes last) and stays at most 100 long |
| Chat.ChatServer.Disconnect | server.js:87-96 | only that socket's entry is removed, if present, and the broadcast count is the new map size |

## Left out

- Express routing, JSON response shaping and console logging: only the outcome kind is kept.
- Database failures (the 500 paths) and the schema's own constraints (NOT NULL, UNIQUE, foreign keys, column defaults other than the one below): the schema is not in the repository.
- The list endpoints with their SQL ordering and formatting (routes/pagos.js:17-57, routes/metas.js:6-25, routes/usuarios.js:77-92) and the schema introspection of `/diagnostico` (routes/pagos.js:389-415): they read without changing anything.
- routes/gastos.js: a pass-through to SQL with two defaults; only its rows' `monto` and `tipo` enter the statistics.
- `generarReferencia` (routes/pagos.js:12-14): its `Date.now`/`Math.random` token is a parameter assumed fresh.
- The accept/decline probabilities (routes/pagos.js:160, 295): the draw is a parameter, so the 90 % and 95 % rates are not modelled.
- Concurrency: each request runs as one atomic step, so the double-spend race between the funds check and the debit of interleaved requests is not modelled.
- Socket.IO transport, `emit` delivery, CORS and `server.listen`.
- Floating point: amounts are integers; `parseFloat`/`parseInt` in the statistics are the identity.
- JavaScript dynamic types: fields are strings, integers or booleans, never numbers where strings are expected. `null` and `undefined` are one absent value, so a destructuring default also replaces an explicit `null`. The loose `==` of the method listing is integer equality.
- Plain-text passwords and the missing authorization checks, which are security concerns rather than behaviour.
- Pagos.Settle: a record's id is the ledger length plus one, which assumes the id sequence was never consumed by a failed insert; `Pagos.BatchStep` uses the same convention.
- Pagos.Settle: `monto` is assumed present and an integer. Without it the source passes the funds check (`undefined > saldoBancario` is false), sets the credited goal's `monto_actual` to NULL and, once the record is inserted, makes the balance NaN, after which every funds check passes.
- Pagos.Settle: `usuario_id` is assumed present in every body. Without it the source stores a reference owned by `undefined` (routes/pagos.js:96-97), honours that reference for any payment that also omits `usuario_id` because `undefined !== undefined` is false (routes/pagos.js:149), and lets the batch scan pick it (routes/pagos.js:258), after which the `usuario_id = NULL` query selects no goal and the batch reports `procesados: 0`.
- Pagos.Validate: lengths (and the last four taken by `Pagos.Last4` and `Pagos.UltimosDigitos`) count characters, not UTF-16 code units as JavaScript's `length` and `slice` do, so a number containing characters outside the Basic Multilingual Plane is checked and masked differently.
- Pagos.PaymentEngine.ProcessAutomatic: the eligible rows are a parameter constrained to be the eligible goals; the query itself is not executed over the table.
- Pagos.UltimosDigitos: an account number of 4 characters or fewer is stored whole, as `slice(-4)` does.
- Metas.GoalStore.ListDeposits: ties on `fecha` keep insertion order; PostgreSQL leaves their order unspecified.
- Usuarios.UserTable.Register: the `activo` a public registration gets is the column default, a constructor parameter, because the schema is not in the repository.
- Usuarios.UserTable.Update: uses the intended duplicate-email guard `AdmitsEmail`, not the guard as written (see Findings).
- Usuarios.Stats: `total_ahorrado` is defined as the sum of non-NULL `monto_actual` but has no property proved about it.
- Each router's class holds its own copy of the tables it touches (`metas` in both the payment engine and the goal store); the shared database is not one object.

## Findings

| source | as written | input that shows it | evidently intended | confidence | as-written member | corrected member |
|---|---|---|---|---|---|---|
| routes/usuarios.js:168 | the duplicate-email check runs only when `email` is truthy, but `COALESCE($2, email)` writes an empty string too | users 1 (email "") and 2 (email "b@x"); `PUT /usuarios/2` with email "": the check is skipped and both users end with email "" | every email the update writes is checked against the other users | medium, not executed (a UNIQUE constraint on the column, not in the repository, would turn it into a 500) | Usuarios.AsWrittenGuardBreaksUniqueness | Usuarios.AdmittedUpdateKeepsUnique |
