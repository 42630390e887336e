# Exasol Go driver: the connection

A Dafny model of the connection of the Exasol database driver for Go
(`connection.go`). The connection talks to the server with one request/response
exchange at a time. It keeps a closed flag, and it keeps the session id and metadata
that the handshake returns. It runs SQL text in one of two ways:

- with no bind values, it sends a single `execute` command;
- with bind values, it sends `createPreparedStatement`, then
  `executePreparedStatement` with the values reshaped column by column, then
  `closePreparedStatement`.

The model has three modules:

- `Protocol` (`protocol.dfy`): the command records, the server's answers and the error kinds.
- `ArgumentMatrix` (`argument_matrix.dfy`): the reshape of the flat bind list into the
  column-major matrix. `ColumnMajor` is its specification. `BuildColumns` is the source's
  append loop over a buffer of k column slices. `RowMajor` reads the matrix back and is
  the reshape's inverse.
- `Session` (`session.dfy`): the class `Connection`. It has the fields `isClosed`,
  `sessionID`, `metadata` and `transportOpen` (the socket handle is set), and a ghost
  `trace` of every command sent. It also holds the pure specifications shared by
  `query` and `exec` (`StatementExecution`, `PreparedExecution`, `QueriesOutcome`) and
  the lemmas about them.

`Send` is the only way a command reaches the server. It appends the command to `trace`
and yields the server's answer. That answer is either the decoded reply or the error
`send` returns. The server's answers (success or failure, `NumResults`, the parameter
columns, the session descriptor) are parameters of the operations. So every contract
holds for every way the server can answer, except a prepare reply with no parameter
columns while values are bound (see Left out). The class invariant `Valid()` says:

- every `executePreparedStatement` sent is well shaped;
- authentication always comes right after `login`;
- nothing is ever sent after `disconnect`;
- a released socket means a closed connection;
- the stored session id agrees with the stored metadata.

The model follows the code. `closePreparedStatement` is sent only after an execute
that answered with results (connection.go:147-151). When the bind count is not a multiple of the
column count (connection.go:119-121), or the execute fails or answers with no result,
the model leaves the server-side statement open, as the code does.

## Model

| member | source | states |
|---|---|---|
| `Session.Connection.constructor` | connection.go:24-31 | a dialled connection starts with the closed flag its creator gives, session 0, no metadata, an open socket and nothing sent; the invariant holds |
| `Session.Connection.Send` | connection.go:201-205 | the abstract request/response exchange used at connection.go:50, 101, 143, 155, 178, 202, 214, 229 and 272: the command is appended to the trace, and the error returned is exactly the failure of the answer (none for a reply) |
| `Session.Connection.Prepare` | connection.go:41-65 | closed: bad-connection error and nothing sent; open: exactly one `createPreparedStatement` with the text, returning the send error or a statement carrying the handle, the parameter count and the columns |
| `Session.Connection.Begin` | connection.go:71-82 | sends nothing; closed gives bad connection; when open, the result is the autocommit-enabled error exactly when autocommit is configured; a transaction on this connection is returned exactly when open and autocommit is off |
| `Session.Connection.Query` | connection.go:84-114 | commands sent and outcome are those of `StatementExecution` for the current closed flag; the invariant is kept |
| `Session.Connection.Exec` | connection.go:161-191 | same contract as `Query`: both entry points make the same path decision and send the same commands |
| `Session.Connection.ExecutePreparedStatement` | connection.go:116-152 | commands sent and the (response, error) pair are those of `PreparedExecution`; the matrix is built by `BuildColumns`; the invariant is kept |
| `Session.Connection.ClosePreparedStatement` | connection.go:154-159 | exactly one `closePreparedStatement` for the statement's handle is sent and its send error returned |
| `Session.Connection.SimpleExec` | connection.go:193-210 | exactly one `execute` with the text is sent; the result is `QueriesOutcome` of the answer |
| `Session.Connection.Close` | connection.go:212-218 | the connection becomes closed and the socket released whatever the `disconnect` answer; `disconnect` is sent and is the last command ever; its send error is returned; the session is untouched |
| `Session.Connection.Login` | connection.go:220-281 | `login` is sent (`LoginCommand`: the configured API version as protocol version and the configured autocommit flag), then authentication (`AuthCommand`: the configured user, the encrypted password, compression off, the configured client name both as client name and as client version, and the configured autocommit flag) only if `login` succeeded and the password was encrypted; a failed encryption gives bad connection; the result is success exactly when both exchanges succeed; only then are the session id and metadata stored and the connection marked open, and on every failure these fields keep their old values |
| `Session.StatementExecution` | connection.go:84-113 | closed: bad connection and nothing sent; open: one to three commands, the first `execute` without bind values (then the only one) and `createPreparedStatement` with them; a response is returned only on an open connection and only with a non-zero result count; the same function specifies `exec` (connection.go:161-190) |
| `Session.PreparedExecution` | connection.go:116-152 | when no error is returned, a response is; the commands and outcome of the prepared path are pinned down by `PreparedPathOrder`, `FailedPrepareStopsAfterPrepare`, `CloseErrorReplacesResponse`, `InvalidValuesCountStopsAfterPrepare`, `ExecuteCommandCarriesMatrix` and `ZeroResultsAreMalformed` |
| `Session.QueriesOutcome` | connection.go:202-209 | the outcome is a response exactly when the answer is a reply with a non-zero result count; a send failure gives that send error; a zero result count gives the malformed-data error |
| `Session.ClosedConnectionSendsNothing` | connection.go:84-88 | on a closed connection `query` and `exec` return bad connection and send no command |
| `Session.SimplePathSendsOneExecute` | connection.go:90-97 | with no bind values exactly one `execute` with the text is sent, no prepared-statement command, and the outcome is that of `simpleExec` |
| `Session.PreparedPathOrder` | connection.go:99-151 | with bind values the first command is the only `createPreparedStatement`; only execute-prepared and close-prepared commands follow; the execute-prepared command, if sent, is second; `closePreparedStatement` is sent exactly when the execute answered with results, and then last, right after the execute of the same handle |
| `Session.FailedPrepareStopsAfterPrepare` | connection.go:99-107 | with bind values, a failed `createPreparedStatement` gives its send error and nothing else is sent |
| `Session.CloseErrorReplacesResponse` | connection.go:143-151 | after an execute with results (and through `query` at 109-113), the outcome is the close's send error when the close fails and the execute's response otherwise |
| `Session.InvalidValuesCountStopsAfterPrepare` | connection.go:119-121 | the invalid-values-count error occurs exactly when the connection is open, values are bound, the prepare succeeded and the count is not a multiple of the column count; then only `createPreparedStatement` was sent |
| `Session.ExecuteCommandCarriesMatrix` | connection.go:123-137 | the execute command carries the handle and columns of the prepare reply, `NumColumns == k`, `NumRows == len(args)/k`, k columns of `NumRows` values each, the matrix equal to `ColumnMajor(args, k)` (cell (c, r) holds `args[r*k + c]`), and `args[i]` at column `i % k`, row `i / k` |
| `Session.ZeroResultsAreMalformed` | connection.go:147-149 | an execute answer with no result gives malformed data on both paths, and no `closePreparedStatement` is sent |
| `Session.InsertTwoRows` | connection.go:116-151 | binds 1, "a", 2, "b" on two columns send one prepare, one execute of two rows with the matrix [[1, 2], ["a", "b"]], and one close |
| `Session.UseAfterClose` | connection.go:212-218 | after `close`, `Prepare`, `Begin`, `query` and `exec` each return bad connection, and only `disconnect` was sent |
| `Session.FailedLoginLeavesClosed` | connection.go:220-281 | a connection created closed whose handshake fails stays closed with session 0 and no metadata, sent `login` alone or `login` followed by the authentication carrying the encrypted password, and then `Prepare`, `query` and `exec` return bad connection |
| `ArgumentMatrix.BuildColumns` | connection.go:123-129 | the loop that appends `args[i]` to column `i % k` produces exactly `ColumnMajor(args, k)` |
| `ArgumentMatrix.ColumnMajorShape` | connection.go:123-129 | the matrix has exactly k columns, each of `len(args)/k` entries |
| `ArgumentMatrix.ColumnMajorAt` | connection.go:124-128 | flat position i lands in column `i % k` at row `i / k`, a row that exists |
| `ArgumentMatrix.RowMajorPrefix` | connection.go:124-128 | reading the first n rows of the matrix row by row gives the first n·k bind values |
| `ArgumentMatrix.RowMajorOfColumnMajor` | connection.go:123-129 | reading the whole matrix back row by row gives the bind list: the reshape loses, duplicates and reorders nothing |

## Left out

- The websocket transport, the default dialer and JSON (de)serialisation (connection.go:20-22, 28): `Send` records the command and takes the server's answer as a parameter. The three failure kinds of `SendFailure` (transport, decoding, failure status) are not told apart by the connection code, and `send` itself is not part of this model.
- `ws.Close()` (connection.go:215) is modelled by clearing `transportOpen`. `Send`, `Login` and `Close` all require an open socket for the same reason: after `close` the socket handle is nil, and a further send or a second `close` would call a method on it.
- The RSA public key built from the hex modulus and exponent, PKCS#1 v1.5 encryption and base64 encoding (connection.go:234-250): `Login` takes the encrypted password text as a parameter, or None when the encryption fails, which yields the bad-connection error. The source ignores hex and parse errors at 234 and 238. Nothing about the key is modelled.
- The driver name, OS name, runtime version and OS user name of the authentication command (connection.go:258-261, 267-269): these come from the environment and are not carried by `Authenticate`. The user-name check at 267-269 is inverted: the name is read only when the lookup fails, when the returned user is nil, so that branch panics in Go and the name is never assigned. Neither the lookup nor the panic is modelled.
- `Value`: the `float64`, `[]byte` and `time.Time` kinds of `driver.Value` are left out; the connection only moves values and nothing depends on their kind.
- Logging (`log.Printf`, `errorLogger`) and the `context` field: they only observe and do not change the result.
- The row and result adapters `toRow` and `toResult`, and the `statement` and `transaction` types, are not part of this model. `Query` and `Exec` return the response handed to the adapter; `Statement` and `Transaction` are plain handles.
- The exported wrappers `Exec`, `Query` and `Close` (connection.go:33-39, 67-69) only forward to `exec`, `query` and `close`; one method models each pair.
- The result sets inside the execute response, and the metadata other than the session id: only `NumResults` and `SessionID` are inspected by the connection.
- Zero parameter columns with bound values: the remainder `len(args) % 0` at connection.go:119 is a run-time panic in Go (and `data[0]` at 136 would be out of range). `ColumnsDeclared` and the precondition of `ExecutePreparedStatement` exclude it instead of inventing a behaviour.
- How the connection is dialled and when `login` is first called lie outside connection.go. The constructor takes the initial closed flag as a parameter, gives the other fields their Go zero values and an open socket.
