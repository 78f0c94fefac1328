# MySQL connection pool — Dafny model

This project models the sequential bookkeeping in `DBPool.cpp`, a thin
connection-pool layer over the MySQL C client library:

- **`CDBPool`** (module `Pooling`, class `DBPool`): a bounded pool for one
  named database. It holds a free list of connections, a current count that
  starts at `MIN_DB_CONN_CNT` = 2, and a maximum. `Init` opens the first
  connections eagerly. `GetDBConn` pops the front of the free list, or grows
  the pool by one connection while the count is below the maximum.
  `RelDBConn` appends a connection only if it is not already on the list.
- **`CDBConn`** (class `DBConn`): one session. `Init` returns 0, 1 or 2.
  `ExecuteQuery` returns NULL or a fresh result cursor. `ExecuteUpdate`
  succeeds only when at least one row was affected. `EscapeString` refuses
  input longer than half its buffer.
- **`CDBManager`** (module `Registry`): maps pool names to pools, routes
  acquire and release by name, and is built lazily by `getInstance`, which
  retries on the next call when initialisation fails.
- **`CResultSet`** (module `Results`): builds a column-name→index map once,
  where the first of two equal names wins. It iterates forward over the rows.
  Its accessors return 0 or NULL for an unknown column.
- **`CPrepareStatement`** (module `Statements`): a table of zeroed bind
  slots, one per placeholder. Each `SetParam` overload writes one slot if its
  index is in range. `ExecuteUpdate` fails on a missing statement, a
  bind/execute failure, or zero affected rows.

Every call into the client library is an input to the model: the outcome it
would report is passed in as a parameter. This covers `mysql_init`,
`mysql_real_connect`, `mysql_real_query`, `mysql_store_result`, the statement
prepare/bind/execute calls, the affected-row counts, `mysql_real_escape_string`
and `atoi`. A pool's `Init` takes `outcome: nat -> ConnectOutcome`, which gives
the result of each connection attempt in order.

Connections are Dafny objects, so each `new CDBConn` yields a fresh, distinct
identity. Connections are compared by reference, as the source compares
pointers. `AcquiredFrom` and `ReleasedTo` are two-state predicates that give
the effect of one acquire or release on a pool. The pool's methods and the
registry's routing methods both use them, so the registry is shown to do
exactly what the named pool does.

A failed `CDBPool::Init` does not roll back. It returns the failing code,
and the connections opened before the failure stay on the free list.
`DBPool.Init` states this.

Text whose length the source counts, which is the input and output of
`EscapeString` and a bound string parameter, is modelled as `Bytes`, a
sequence of `uint8`. Its length is the byte count that `content_len` and
`std::string::size()` give. Names (of pools, columns) stay Dafny `string`s,
since only their equality matters.

Three constants come from `DBPool.h` and the client library headers, which
are not part of this model. They are assumed:
- `MAX_ESCAPE_STRING_LEN` = 10240.
- The escape buffer `m_escape_string` holds `MAX_ESCAPE_STRING_LEN + 1`
  bytes: the text plus its terminating NUL.
- `sizeof(MYSQL_TIME)` = 40, its size on an LP64 build of the client library.

## Model

| member | source | states |
|---|---|---|
| `Results.FirstIndexMap` | DBPool.cpp:16-22 | the map inserting `(fields[i], i)` in order leaves: its keys are exactly the field names, and each name maps to its first index (below the field count) |
| `Results.ResultSet.constructor` | DBPool.cpp:12-23 | the construction loop leaves `keyMap == FirstIndexMap(fields)`, with the cursor before the first row |
| `Results.ResultSet.Next` | DBPool.cpp:33-41 | true and the next row while rows remain; false, no current row and no progress once exhausted, and on every later call |
| `Results.ResultSet.GetIndex` | DBPool.cpp:43-51 | -1 exactly when the name is not a column; otherwise the first position holding that name |
| `Results.ResultSet.GetInt` | DBPool.cpp:53-61 | 0 for an unknown column; otherwise `atoi` of the current row's cell for that column |
| `Results.ResultSet.GetString` | DBPool.cpp:73-81 | NULL for an unknown column; otherwise the current row's cell at the column's index |
| `Statements.BindSlotAsWritten` | DBPool.cpp:133-201 | each overload's slot write as the code does it: LONG with the value for `int` and `uint32_t`, FLOAT with the bits for `float`, STRING with the string's bytes and its size in bytes as length, TIMESTAMP with the value and `sizeof(MYSQL_TIME)` as length; integer and float writes keep the old length; `is_unsigned` is never touched |
| `Statements.UnsignedParamMisread` | DBPool.cpp:155-164 | as written, any `uint32_t` of 2^31 or more is read by the server as that value minus 2^32 |
| `Statements.UnsignedParamMisreadExample` | DBPool.cpp:155-164 | as written, binding 3000000000 delivers -1294967296 |
| `Statements.BindSlot` | DBPool.cpp:133-164 | the corrected slot write of the Finding below, not what the code does: as `BindSlotAsWritten`, but `is_unsigned` is set for `uint32_t` and cleared for `int`; each overload's tag, buffer and length are stated |
| `Statements.LongParamRoundTrip` | DBPool.cpp:133-164 | with the corrected slot write, every `int` and `uint32_t` reaches the server as the value bound, whatever the slot held before |
| `Statements.AfterSetParam` | DBPool.cpp:133-201 | an index at or past the parameter count leaves the table unchanged; otherwise exactly slot `index` changes, to `BindSlotAsWritten` of its old value |
| `Statements.PrepareStatement.constructor` | DBPool.cpp:84-89 | no statement handle, parameter count 0, empty (NULL) bind table |
| `Statements.PrepareStatement.Init` | DBPool.cpp:104-131 | succeeds iff the handle is created and the text prepares; on success exactly `paramCount` zeroed slots (a new table only when the count is positive); on failure count and table unchanged |
| `Statements.PrepareStatement.SetParam` | DBPool.cpp:133-201 | the shared body of the overloads: the table becomes `AfterSetParam` of the old table |
| `Statements.PrepareStatement.SetParamInt` | DBPool.cpp:133-142 | the table becomes `AfterSetParam(old, cnt, index, IntParam(value))` |
| `Statements.PrepareStatement.SetParamFloat` | DBPool.cpp:144-153 | the table becomes `AfterSetParam(old, cnt, index, FloatParam(value))` |
| `Statements.PrepareStatement.SetParamUInt32` | DBPool.cpp:155-164 | the table becomes `AfterSetParam(old, cnt, index, UIntParam(value))` |
| `Statements.PrepareStatement.SetParamString` | DBPool.cpp:166-188 | both string overloads: the table becomes `AfterSetParam(old, cnt, index, StringParam(value))` |
| `Statements.PrepareStatement.SetParamTime` | DBPool.cpp:190-201 | the table becomes `AfterSetParam(old, cnt, index, TimeParam(value))` |
| `Statements.PrepareStatement.ExecuteUpdate` | DBPool.cpp:203-229 | true iff a statement exists, bind and execute succeed, and at least one row was affected; zero rows is a failure |
| `Pooling.InitCode` | DBPool.cpp:248-266 | 0 iff a handle is created and the connect succeeds; 1 iff no handle; 2 iff the connect fails after a handle was created |
| `Pooling.DBConn.constructor` | DBPool.cpp:237-241 | the connection records its pool and has no session handle |
| `Pooling.DBConn.PoolName` | DBPool.cpp:268-271 | the name the owning pool was created with |
| `Pooling.DBConn.Init` | DBPool.cpp:248-266 | returns `InitCode` of the outcome; the handle is set iff `mysql_init` returned one |
| `Pooling.DBConn.ExecuteQuery` | DBPool.cpp:273-290 | NULL iff the query or the result store failed; otherwise a fresh valid cursor over that result, before its first row |
| `Pooling.DBConn.ExecuteUpdate` | DBPool.cpp:292-308 | true iff the query went through and the affected-row count is positive |
| `Pooling.DBConn.EscapeString` | DBPool.cpp:310-319 | empty for input longer than `MAX_ESCAPE_STRING_LEN >> 1` bytes, the escaper's output at or below it; for an escaper that at most doubles its input, the result plus its terminating NUL fits the `MAX_ESCAPE_STRING_LEN + 1`-byte buffer |
| `Pooling.SuccessPrefix` | DBPool.cpp:350-365 | the number of connection attempts that succeed before the first failure: all before it succeed, the one at it (if any) fails |
| `Pooling.SuccessPrefixAt` | DBPool.cpp:350-365 | the prefix is exactly the position of the first failure |
| `Pooling.Released` | DBPool.cpp:396-409 | the free list after a release: unchanged if the connection is on it, else the connection appended at the back; the old list is always a prefix |
| `Pooling.ReleaseIdempotent` | DBPool.cpp:396-409 | releasing the same connection twice equals releasing it once |
| `Pooling.ReleaseKeepsNoDup` | DBPool.cpp:396-409 | release never puts a second copy of a connection on a duplicate-free list |
| `Pooling.AcquireThenRelease` | DBPool.cpp:390-409 | taking the front connection and releasing it rotates the list: same multiset, connection at the back |
| `Pooling.DBPool.constructor` | DBPool.cpp:327-338 | empty free list, count fixed at 2 whatever the maximum; `count <= max` holds iff the maximum is at least 2 |
| `Pooling.DBPool.Init` | DBPool.cpp:350-365 | appends one fresh connection of this pool, holding a session handle, per success up to the first failure; returns 0 when all succeed, else the failing attempt's code 1 or 2; keeps the list duplicate-free; count unchanged |
| `Pooling.DBPool.GetDBConn` | DBPool.cpp:371-394 | non-empty list: returns the former front, list becomes its tail, count unchanged; empty list: on a successful open returns a fresh connection of this pool holding a session handle with count + 1 and list empty, else NULL with nothing changed; the returned connection is not on the list; `count <= max` preserved |
| `Pooling.DBPool.RelDBConn` | DBPool.cpp:396-409 | the linear scan leaves the list as `Released(old list, c)`, duplicate-free, count unchanged |
| `Registry.DBManager.constructor` | DBPool.cpp:411-414 | an empty pool map |
| `Registry.DBManager.Init` | DBPool.cpp:435-462 | 2 exactly when settings are missing; 3 exactly when settings are present and a connection attempt of the pool's `Init` fails (map unchanged); 0 when both connections open and the fresh pool is registered under its name (an existing entry is not overwritten) |
| `Registry.DBManager.GetDBConn` | DBPool.cpp:464-472 | an unknown name returns NULL and may modify no pool; a known name has exactly the named pool's acquire effect |
| `Registry.DBManager.RelDBConn` | DBPool.cpp:474-484 | NULL or an unregistered pool name modifies nothing; otherwise exactly the pool registered under the connection's pool name takes it back |
| `Registry.RoutesToOwner` | DBPool.cpp:474-484 | a connection of a registered pool is routed by its pool name back to that very pool |
| `Registry.ManagerInstance.constructor` | DBPool.cpp:10 | the global instance starts unset |
| `Registry.ManagerInstance.GetInstance` | DBPool.cpp:421-433 | a set instance is returned unchanged; an unset one is built, and stays unset (NULL returned) iff the settings are missing or a connection attempt fails, so a later call retries |

## Findings

| source | as written | input that shows it | evidently intended | confidence | as-written member | corrected member |
|---|---|---|---|---|---|---|
| DBPool.cpp:155-164 | `SetParam(uint32_t)` tags the slot `MYSQL_TYPE_LONG` but leaves `is_unsigned` at 0 from the zero fill, so the client library sends the 32 bits as a signed integer | `SetParam(0, 3000000000u)` reaches the server as -1294967296 | set `is_unsigned` for the `uint32_t` overload, and clear it for the `int` overload so a reused slot reads correctly | medium; not executed | `Statements.UnsignedParamMisread` | `Statements.LongParamRoundTrip` |

## Left out

- `Pooling.DBPool.GetDBConn`: the busy-wait when the pool is exhausted is
  left out. With an empty free list and the count at the maximum, the source
  spins until another thread releases a connection. Sequentially it never
  returns. The method requires `CanAcquire()` (a non-empty free list or room
  to grow), and the registry's `GetDBConn` requires it of the named pool.
- Concurrency: the unsynchronised free list, and the rule that a statement
  must be deleted before its connection is released.
- Client library behaviour: `mysql_ping`, the escaping algorithm, and the
  insert-id calls (`CDBConn::GetInsertId`, `CPrepareStatement::GetInsertId`).
  The model only sees the outcomes the library reports.
- `CResultSet::GetFloat` and the numeric parsing in `atoi` are left out,
  because they are floating point and C conversions. `GetInt` takes the parser
  as a parameter. A float parameter is kept only as its bit pattern.
- `Results.ResultSet.GetInt` and `Results.ResultSet.GetString` require a
  current row for a known column. `GetInt` also requires the cell to be
  non-NULL. In the source these cases read an unset or NULL row pointer,
  which is undefined behaviour.
- `Statements.PrepareStatement.Init`: the `new` failure check is left out,
  because `new` throws rather than returning NULL. The replaced statement
  handle is not closed; that leak is not modelled either.
- Statements: bind buffers are modelled as copies of the bound values, not as
  pointers into the caller's storage, so their lifetime is not modelled.
- `Statements.BindSlot` is the corrected slot write of the Finding. The
  statement class does not use it: its `SetParam` methods follow the code
  (`BindSlotAsWritten`).
- Memory management: destructors, `mysql_free_result`, `mysql_stmt_close`,
  and the pool leaked when registry `Init` fails.
- Logging and the `OUT` printf macro.
- The server address, port, credentials and database name that
  `CDBPool`'s constructor stores. They only feed `mysql_real_connect`, whose
  outcome is an input. The hard-coded settings in `CDBManager::Init` are
  replaced by a `PoolConfig` parameter, `None` when a setting is missing.
- `Pooling.DBPool.RelDBConn` takes a non-null connection; only the registry
  filters NULL before delegating.
- `Pooling.DBConn.EscapeString` takes the content length as the byte length
  of the content. The 32-bit width of `content_len` is not modelled.
- `Pooling.DBConn.EscapeString` returns the escaped string as a value. In the
  source every call overwrites the connection's single `m_escape_string`
  buffer, and the returned pointer aliases it, so an earlier result changes
  when the connection escapes again. That aliasing is not modelled.
- `DBPool.h` is not part of this model, so the two constants it and the client
  library headers define are assumed (see above).
- The commented-out `main` is a usage example only.
