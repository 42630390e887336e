/** The connection of the driver: its lifecycle flag, the session it stores after the
    handshake, and the two ways it runs a statement (a single `execute`, or
    `createPreparedStatement`, `executePreparedStatement`, `closePreparedStatement`).

    Every exchange with the server goes through `Send`, which records the command in
    the ghost `trace` and yields the server's answer. The answers are parameters of
    the operations: whatever the server replies, the contracts say what is sent and
    what is returned. */
module Session {
  import opened Protocol
  import opened ArgumentMatrix

  /** The statement handle `Prepare` returns. */
  datatype Statement = Statement(connection: Connection, statementHandle: int, numInput: int, columns: seq<Column>)

  /** The transaction handle `Begin` returns. */
  datatype Transaction = Transaction(connection: Connection)

  /** What `simpleExec` and `executePreparedStatement` make of the server's answer to an
      execute command: the send error, a malformed-data error for a response that
      claims no result, or the response. */
  function QueriesOutcome(answer: Answer<SQLQueriesResponse>): (r: Result<SQLQueriesResponse>)
    ensures r.Ok? <==> answer.Reply? && answer.payload.numResults != 0
    ensures r.Ok? ==> r.value == answer.payload
    ensures answer.Failed? ==> r == Err(SendError(answer.reason))
    ensures answer.Reply? && answer.payload.numResults == 0 ==> r == Err(ErrMalformData)
  {
    match answer
    case Failed(reason) => Err(SendError(reason))
    case Reply(response) =>
      if response.numResults == 0 then Err(ErrMalformData) else Ok(response)
  }

  /** The commands `executePreparedStatement` sends and the pair it returns. */
  datatype PreparedRun = PreparedRun(sent: seq<Command>, result: Option<SQLQueriesResponse>, err: Option<Error>)

  /** Specification of `executePreparedStatement` for the prepared statement `s`: the
      argument count must be a multiple of the column count; the arguments travel as
      the column-major matrix; the statement is closed only after an execute that
      returned results, and the close's error is returned beside the response. */
  function PreparedExecution(s: PreparedStatementResponse, args: seq<Value>,
                             execute: Answer<SQLQueriesResponse>, close: Answer<()>): (run: PreparedRun)
    requires |s.columns| > 0
    ensures run.err.None? ==> run.result.Some?
  {
    var k := |s.columns|;
    if |args| % k != 0 then PreparedRun([], None, Some(ErrInvalidValuesCount))
    else
      var command := ExecutePreparedStatement(s.statementHandle, s.columns, k, |args| / k, ColumnMajor(args, k));
      match QueriesOutcome(execute)
      case Err(e) => PreparedRun([command], None, Some(e))
      case Ok(response) =>
        PreparedRun([command, ClosePreparedStatement(s.statementHandle)], Some(response), ErrorOf(close))
  }

  /** The commands `query` or `exec` sends and the outcome it hands to the result adapter. */
  datatype Run = Run(sent: seq<Command>, outcome: Result<SQLQueriesResponse>)

  /** The server declares at least one parameter column whenever arguments are bound
      (with none, the remainder by the column count is a run-time panic in Go). */
  predicate ColumnsDeclared(args: seq<Value>, prepare: Answer<PreparedStatementResponse>)
  {
    |args| > 0 && prepare.Reply? ==> |prepare.payload.columns| > 0
  }

  /** Specification shared by `query` and `exec`: a closed connection fails without
      traffic; without arguments a single `execute` runs the text; with arguments the
      text is prepared and the prepared statement executed. */
  function StatementExecution(isClosed: bool, query: string, args: seq<Value>,
                              prepare: Answer<PreparedStatementResponse>,
                              execute: Answer<SQLQueriesResponse>, close: Answer<()>): (run: Run)
    requires ColumnsDeclared(args, prepare)
    ensures isClosed ==> run.sent == [] && run.outcome == Err(ErrBadConn)
    ensures !isClosed ==> 0 < |run.sent| <= 3
    ensures !isClosed ==> run.sent[0] == if |args| == 0 then Execute(query) else CreatePreparedStatement(query)
    ensures !isClosed && |args| == 0 ==> |run.sent| == 1
    ensures run.outcome.Ok? ==> !isClosed && run.outcome.value.numResults != 0
  {
    if isClosed then Run([], Err(ErrBadConn))
    else if |args| == 0 then Run([Execute(query)], QueriesOutcome(execute))
    else
      match prepare
      case Failed(reason) => Run([CreatePreparedStatement(query)], Err(SendError(reason)))
      case Reply(s) =>
        var run := PreparedExecution(s, args, execute, close);
        Run([CreatePreparedStatement(query)] + run.sent,
            if run.err.Some? then Err(run.err.value) else Ok(run.result.value))
  }

  /** Only `executePreparedStatement` commands have a shape to keep: as many columns as
      declared, each with `numRows` values. */
  ghost predicate WellShaped(command: Command)
  {
    command.ExecutePreparedStatement? ==>
      command.numColumns == |command.columns| == |command.data| > 0 &&
      forall c | 0 <= c < |command.data| :: |command.data[c]| == command.numRows
  }

  /** The order the connection keeps on the wire: every execute-prepared command is well
      shaped, authentication comes right after `login`, and nothing follows `disconnect`. */
  ghost predicate ProtocolTrace(t: seq<Command>)
  {
    (forall i | 0 <= i < |t| :: WellShaped(t[i])) &&
    (forall i | 0 <= i < |t| && t[i].Authenticate? :: 0 < i && t[i - 1].Login?) &&
    (forall i | 0 <= i < |t| && t[i].Disconnect? :: i == |t| - 1)
  }

  /** Sending one more command on an open transport keeps the order. */
  lemma ExtendTrace(t: seq<Command>, command: Command)
    requires ProtocolTrace(t) && Disconnect !in t && WellShaped(command)
    requires command.Authenticate? ==> |t| > 0 && t[|t| - 1].Login?
    ensures ProtocolTrace(t + [command])
  {
  }

  /** A command that belongs to the prepared-statement protocol. */
  predicate IsPreparedStatementCommand(command: Command)
  {
    command.CreatePreparedStatement? || command.ExecutePreparedStatement? || command.ClosePreparedStatement?
  }

  /** On a closed connection `query` and `exec` return the bad-connection error and send nothing. */
  lemma ClosedConnectionSendsNothing(query: string, args: seq<Value>, prepare: Answer<PreparedStatementResponse>,
                                     execute: Answer<SQLQueriesResponse>, close: Answer<()>)
    requires ColumnsDeclared(args, prepare)
    ensures StatementExecution(true, query, args, prepare, execute, close) == Run([], Err(ErrBadConn))
  {
  }

  /** Without arguments exactly one `execute` carrying the text is sent, and no
      prepared-statement command. */
  lemma SimplePathSendsOneExecute(query: string, prepare: Answer<PreparedStatementResponse>,
                                  execute: Answer<SQLQueriesResponse>, close: Answer<()>)
    ensures var run := StatementExecution(false, query, [], prepare, execute, close);
      run.sent == [Execute(query)] &&
      (forall i | 0 <= i < |run.sent| :: !IsPreparedStatementCommand(run.sent[i])) &&
      run.outcome == QueriesOutcome(execute)
  {
  }

  /** With arguments the first command is the one `createPreparedStatement`; only
      prepared-statement commands follow it; `closePreparedStatement` is sent exactly when
      the execute answered with results, and then last, right after the execute of the
      same handle. */
  lemma PreparedPathOrder(query: string, args: seq<Value>, prepare: Answer<PreparedStatementResponse>,
                          execute: Answer<SQLQueriesResponse>, close: Answer<()>)
    requires |args| > 0 && ColumnsDeclared(args, prepare)
    ensures var run := StatementExecution(false, query, args, prepare, execute, close);
      0 < |run.sent| <= 3 && run.sent[0] == CreatePreparedStatement(query) &&
      (forall i | 0 < i < |run.sent| ::
         run.sent[i].ExecutePreparedStatement? || run.sent[i].ClosePreparedStatement?) &&
      (forall i | 0 <= i < |run.sent| && run.sent[i].ExecutePreparedStatement? :: i == 1) &&
      ((exists i | 0 <= i < |run.sent| :: run.sent[i].ClosePreparedStatement?) <==>
         prepare.Reply? && |args| % |prepare.payload.columns| == 0 &&
         execute.Reply? && execute.payload.numResults != 0) &&
      (forall i | 0 <= i < |run.sent| && run.sent[i].ClosePreparedStatement? ::
         i == |run.sent| - 1 == 2 && run.sent[1].ExecutePreparedStatement? &&
         run.sent[1].statementHandle == run.sent[i].statementHandle == prepare.payload.statementHandle)
  {
    var run := StatementExecution(false, query, args, prepare, execute, close);
    if prepare.Reply? && |args| % |prepare.payload.columns| == 0 &&
       execute.Reply? && execute.payload.numResults != 0 {
      assert run.sent[2].ClosePreparedStatement?;
    }
  }

  /** With arguments, a failed `createPreparedStatement` returns its send error and
      nothing is sent after it. */
  lemma FailedPrepareStopsAfterPrepare(query: string, args: seq<Value>, prepare: Answer<PreparedStatementResponse>,
                                       execute: Answer<SQLQueriesResponse>, close: Answer<()>)
    requires |args| > 0 && prepare.Failed?
    ensures StatementExecution(false, query, args, prepare, execute, close) ==
      Run([CreatePreparedStatement(query)], Err(SendError(prepare.reason)))
  {
  }

  /** Once the prepared execute has answered with results, the outcome is decided by
      `closePreparedStatement`: its send error replaces the response, and a successful
      close leaves the response. */
  lemma CloseErrorReplacesResponse(query: string, args: seq<Value>, prepare: Answer<PreparedStatementResponse>,
                                   execute: Answer<SQLQueriesResponse>, close: Answer<()>)
    requires |args| > 0 && prepare.Reply? && |prepare.payload.columns| > 0
    requires |args| % |prepare.payload.columns| == 0
    requires execute.Reply? && execute.payload.numResults != 0
    ensures StatementExecution(false, query, args, prepare, execute, close).outcome ==
      if close.Failed? then Err(SendError(close.reason)) else Ok(execute.payload)
  {
  }

  /** A bind list whose length is not a multiple of the column count fails with the
      invalid-values-count error, and nothing is sent after `createPreparedStatement`;
      no other path returns that error. */
  lemma InvalidValuesCountStopsAfterPrepare(isClosed: bool, query: string, args: seq<Value>,
                                            prepare: Answer<PreparedStatementResponse>,
                                            execute: Answer<SQLQueriesResponse>, close: Answer<()>)
    requires ColumnsDeclared(args, prepare)
    ensures var run := StatementExecution(isClosed, query, args, prepare, execute, close);
      (run.outcome == Err(ErrInvalidValuesCount) <==>
         !isClosed && |args| > 0 && prepare.Reply? && |args| % |prepare.payload.columns| != 0) &&
      (run.outcome == Err(ErrInvalidValuesCount) ==> run.sent == [CreatePreparedStatement(query)])
  {
  }

  /** The execute command of the prepared path carries the column count k, the row count
      |args| / k and the column-major matrix, whose column c, row r holds args[r * k + c];
      so column i % k holds args[i] at row i / k. */
  lemma ExecuteCommandCarriesMatrix(query: string, args: seq<Value>, prepare: Answer<PreparedStatementResponse>,
                                    execute: Answer<SQLQueriesResponse>, close: Answer<()>)
    requires |args| > 0 && ColumnsDeclared(args, prepare)
    requires prepare.Reply? && |args| % |prepare.payload.columns| == 0
    ensures var run := StatementExecution(false, query, args, prepare, execute, close);
      var k := |prepare.payload.columns|;
      |run.sent| >= 2 && run.sent[1].ExecutePreparedStatement? &&
      var command := run.sent[1];
      command.statementHandle == prepare.payload.statementHandle &&
      command.columns == prepare.payload.columns &&
      command.numColumns == k == |command.data| && command.numRows == |args| / k &&
      command.data == ColumnMajor(args, k) &&
      (forall c | 0 <= c < k :: |command.data[c]| == command.numRows) &&
      (forall i | 0 <= i < |args| ::
         0 <= i % k < k && 0 <= i / k < command.numRows && command.data[i % k][i / k] == args[i])
  {
    var k := |prepare.payload.columns|;
    var data := ColumnMajor(args, k);
    var command := ExecutePreparedStatement(prepare.payload.statementHandle, prepare.payload.columns,
                                            k, |args| / k, data);
    var prepared := PreparedExecution(prepare.payload, args, execute, close);
    assert |prepared.sent| >= 1 && prepared.sent[0] == command;
    var run := StatementExecution(false, query, args, prepare, execute, close);
    assert run.sent == [CreatePreparedStatement(query)] + prepared.sent;
    assert run.sent[1] == command;
    ColumnMajorShape(args, k);
    forall i | 0 <= i < |args|
      ensures 0 <= i % k < k && 0 <= i / k < |args| / k && data[i % k][i / k] == args[i]
    {
      ColumnMajorAt(args, k, i);
    }
  }

  /** A response that claims no result is malformed data on both paths, and on the
      prepared path the statement is then not closed. */
  lemma ZeroResultsAreMalformed(query: string, args: seq<Value>, prepare: Answer<PreparedStatementResponse>,
                                execute: Answer<SQLQueriesResponse>, close: Answer<()>)
    requires ColumnsDeclared(args, prepare)
    requires |args| > 0 ==> prepare.Reply? && |args| % |prepare.payload.columns| == 0
    requires execute.Reply? && execute.payload.numResults == 0
    ensures var run := StatementExecution(false, query, args, prepare, execute, close);
      run.outcome == Err(ErrMalformData) &&
      forall i | 0 <= i < |run.sent| :: !run.sent[i].ClosePreparedStatement?
  {
  }

  /** An insert with two declared columns and the binds 1, "a", 2, "b": one prepare,
      one execute of two rows carrying the columns [1, 2] and ["a", "b"], one close. */
  lemma InsertTwoRows(handle: int, columns: seq<Column>, close: Answer<()>)
    requires |columns| == 2
    ensures var args := [Int(1), Str("a"), Int(2), Str("b")];
      var query := "INSERT INTO t VALUES (?,?)";
      var response := SQLQueriesResponse(1);
      StatementExecution(false, query, args,
                         Reply(PreparedStatementResponse(handle, 2, columns)), Reply(response), close)
      == Run([CreatePreparedStatement(query),
              ExecutePreparedStatement(handle, columns, 2, 2, [[Int(1), Int(2)], [Str("a"), Str("b")]]),
              ClosePreparedStatement(handle)],
             if close.Failed? then Err(SendError(close.reason)) else Ok(response))
  {
    var args := [Int(1), Str("a"), Int(2), Str("b")];
    var m := ColumnMajor(args, 2);
    assert m[0] == [Int(1), Int(2)];
    assert m[1] == [Str("a"), Str("b")];
    assert m == [[Int(1), Int(2)], [Str("a"), Str("b")]];
  }

  class Connection {
    const config: Config
    var sessionID: int
    var metadata: Option<AuthResponse>
    /** The socket handle is set (`ws != nil`). */
    var transportOpen: bool
    var isClosed: bool
    /** Every command sent on this connection, oldest first. */
    ghost var trace: seq<Command>

    ghost predicate Valid()
      reads this
    {
      ProtocolTrace(trace) &&
      (transportOpen <==> Disconnect !in trace) &&
      (!transportOpen ==> isClosed) &&
      (metadata.Some? ==> sessionID == metadata.value.sessionID)
    }

    /** A dialled connection before the handshake, with the initial closed flag given by
        the caller (`true` for a connection that only a successful `login` may open); the
        session fields hold their zero values. */
    constructor (config: Config, isClosed: bool)
      ensures Valid() && this.config == config
      ensures trace == [] && transportOpen && this.isClosed == isClosed
      ensures sessionID == 0 && metadata == None
    {
      this.config := config;
      sessionID, metadata := 0, None;
      transportOpen, this.isClosed := true, isClosed;
      trace := [];
    }

    /** One request/response exchange: the command goes out and the server's answer
        comes back, as a decoded reply or as the error `send` returns. */
    method Send<P>(command: Command, answer: Answer<P>) returns (err: Option<Error>)
      requires transportOpen
      modifies this`trace
      ensures trace == old(trace) + [command]
      ensures err == ErrorOf(answer)
    {
      trace := trace + [command];
      err := ErrorOf(answer);
    }

    method Prepare(query: string, answer: Answer<PreparedStatementResponse>) returns (r: Result<Statement>)
      requires Valid()
      modifies this`trace
      ensures Valid()
      ensures isClosed ==> r == Err(ErrBadConn) && trace == old(trace)
      ensures !isClosed ==> trace == old(trace) + [CreatePreparedStatement(query)]
      ensures !isClosed && answer.Failed? ==> r == Err(SendError(answer.reason))
      ensures !isClosed && answer.Reply? ==>
        r == Ok(Statement(this, answer.payload.statementHandle, answer.payload.numColumns, answer.payload.columns))
    {
      if isClosed {
        return Err(ErrBadConn);
      }
      ExtendTrace(trace, CreatePreparedStatement(query));
      var err := Send(CreatePreparedStatement(query), answer);
      if err.Some? {
        return Err(err.value);
      }
      var s := answer.payload;
      r := Ok(Statement(this, s.statementHandle, s.numColumns, s.columns));
    }

    method Begin() returns (r: Result<Transaction>)
      ensures isClosed ==> r == Err(ErrBadConn)
      ensures !isClosed ==> (r == Err(ErrAutocommitEnabled) <==> config.autocommit)
      ensures r.Ok? <==> !isClosed && !config.autocommit
      ensures r.Ok? ==> r.value.connection == this
    {
      if isClosed {
        return Err(ErrBadConn);
      }
      if config.autocommit {
        return Err(ErrAutocommitEnabled);
      }
      r := Ok(Transaction(this));
    }

    /** `query`: the response it hands to the row adapter. */
    method Query(query: string, args: seq<Value>, prepare: Answer<PreparedStatementResponse>,
                 execute: Answer<SQLQueriesResponse>, close: Answer<()>) returns (r: Result<SQLQueriesResponse>)
      requires Valid() && ColumnsDeclared(args, prepare)
      modifies this`trace
      ensures Valid()
      ensures var run := StatementExecution(isClosed, query, args, prepare, execute, close);
        trace == old(trace) + run.sent && r == run.outcome
    {
      if isClosed {
        return Err(ErrBadConn);
      }
      if |args| == 0 {
        r := SimpleExec(query, execute);
        return;
      }
      ExtendTrace(trace, CreatePreparedStatement(query));
      var err := Send(CreatePreparedStatement(query), prepare);
      if err.Some? {
        return Err(err.value);
      }
      var result, err' := ExecutePreparedStatement(prepare.payload, args, execute, close);
      if err'.Some? {
        return Err(err'.value);
      }
      r := Ok(result.value);
    }

    /** `exec`: the response it hands to the affected-rows adapter. */
    method Exec(query: string, args: seq<Value>, prepare: Answer<PreparedStatementResponse>,
                execute: Answer<SQLQueriesResponse>, close: Answer<()>) returns (r: Result<SQLQueriesResponse>)
      requires Valid() && ColumnsDeclared(args, prepare)
      modifies this`trace
      ensures Valid()
      ensures var run := StatementExecution(isClosed, query, args, prepare, execute, close);
        trace == old(trace) + run.sent && r == run.outcome
    {
      if isClosed {
        return Err(ErrBadConn);
      }
      if |args| == 0 {
        r := SimpleExec(query, execute);
        return;
      }
      ExtendTrace(trace, CreatePreparedStatement(query));
      var err := Send(CreatePreparedStatement(query), prepare);
      if err.Some? {
        return Err(err.value);
      }
      var result, err' := ExecutePreparedStatement(prepare.payload, args, execute, close);
      if err'.Some? {
        return Err(err'.value);
      }
      r := Ok(result.value);
    }

    method ExecutePreparedStatement(s: PreparedStatementResponse, args: seq<Value>,
                                    execute: Answer<SQLQueriesResponse>, close: Answer<()>)
      returns (result: Option<SQLQueriesResponse>, err: Option<Error>)
      requires Valid() && transportOpen && |s.columns| > 0
      modifies this`trace
      ensures Valid()
      ensures var run := PreparedExecution(s, args, execute, close);
        trace == old(trace) + run.sent && result == run.result && err == run.err
    {
      var columns := s.columns;
      if |args| % |columns| != 0 {
        return None, Some(ErrInvalidValuesCount);
      }
      var data := BuildColumns(args, |columns|);
      ColumnMajorShape(args, |columns|);
      var command := Protocol.ExecutePreparedStatement(s.statementHandle, columns, |columns|, |data[0]|, data);
      ExtendTrace(trace, command);
      var sendErr := Send(command, execute);
      if sendErr.Some? {
        return None, sendErr;
      }
      if execute.payload.numResults == 0 {
        return None, Some(ErrMalformData);
      }
      err := ClosePreparedStatement(s, close);
      result := Some(execute.payload);
    }

    method ClosePreparedStatement(s: PreparedStatementResponse, answer: Answer<()>) returns (err: Option<Error>)
      requires Valid() && transportOpen
      modifies this`trace
      ensures Valid()
      ensures trace == old(trace) + [Protocol.ClosePreparedStatement(s.statementHandle)]
      ensures err == ErrorOf(answer)
    {
      ExtendTrace(trace, Protocol.ClosePreparedStatement(s.statementHandle));
      err := Send(Protocol.ClosePreparedStatement(s.statementHandle), answer);
    }

    method SimpleExec(query: string, answer: Answer<SQLQueriesResponse>) returns (r: Result<SQLQueriesResponse>)
      requires Valid() && transportOpen
      modifies this`trace
      ensures Valid()
      ensures trace == old(trace) + [Execute(query)]
      ensures r == QueriesOutcome(answer)
    {
      ExtendTrace(trace, Execute(query));
      var err := Send(Execute(query), answer);
      if err.Some? {
        return Err(err.value);
      }
      if answer.payload.numResults == 0 {
        return Err(ErrMalformData);
      }
      r := Ok(answer.payload);
    }

    method Close(answer: Answer<()>) returns (err: Option<Error>)
      requires Valid() && transportOpen
      modifies this
      ensures Valid() && isClosed && !transportOpen
      ensures trace == old(trace) + [Disconnect]
      ensures err == ErrorOf(answer)
      ensures sessionID == old(sessionID) && metadata == old(metadata)
    {
      isClosed := true;
      ExtendTrace(trace, Disconnect);
      err := Send(Disconnect, answer);
      transportOpen := false;
    }

    /** The `login` command: the protocol version and the autocommit attribute. */
    function LoginCommand(): (c: Command)
    {
      Protocol.Login(config.apiVersion, config.autocommit)
    }

    /** The authentication command carrying the encrypted password: compression is
        always off, and the client version field repeats the configured client name. */
    function AuthCommand(encryptedPassword: string): (c: Command)
    {
      Authenticate(config.user, encryptedPassword, false, config.clientName, config.clientName, config.autocommit)
    }

    /** The handshake. `encryptedPassword` is the base64 text of the password encrypted
        with the public key of the `login` reply, or None when the encryption fails. */
    method Login(login: Answer<PublicKeyResponse>, encryptedPassword: Option<string>,
                 auth: Answer<AuthResponse>) returns (err: Option<Error>)
      requires Valid() && transportOpen
      modifies this
      ensures Valid() && transportOpen
      ensures err.None? <==> login.Reply? && encryptedPassword.Some? && auth.Reply?
      ensures login.Failed? ==> err == ErrorOf(login) && trace == old(trace) + [LoginCommand()]
      ensures login.Reply? && encryptedPassword.None? ==>
        err == Some(ErrBadConn) && trace == old(trace) + [LoginCommand()]
      ensures login.Reply? && encryptedPassword.Some? ==>
        trace == old(trace) + [LoginCommand(), AuthCommand(encryptedPassword.value)] &&
        (auth.Failed? ==> err == ErrorOf(auth))
      ensures err.None? ==>
        sessionID == auth.payload.sessionID && metadata == Some(auth.payload) && !isClosed
      ensures err.Some? ==>
        sessionID == old(sessionID) && metadata == old(metadata) && isClosed == old(isClosed)
    {
      ExtendTrace(trace, LoginCommand());
      err := Send(LoginCommand(), login);
      if err.Some? {
        return;
      }
      if encryptedPassword.None? {
        return Some(ErrBadConn);
      }
      ExtendTrace(trace, AuthCommand(encryptedPassword.value));
      err := Send(AuthCommand(encryptedPassword.value), auth);
      if err.Some? {
        return;
      }
      sessionID := auth.payload.sessionID;
      metadata := Some(auth.payload);
      isClosed := false;
    }
  }

  /** A connection created closed stays closed when its handshake fails: only the
      handshake's own commands are sent, no session is stored, and `Prepare`, `query`
      and `exec` then fail with the bad-connection error without sending anything. */
  method FailedLoginLeavesClosed(config: Config, login: Answer<PublicKeyResponse>,
                                 encryptedPassword: Option<string>, auth: Answer<AuthResponse>,
                                 query: string, args: seq<Value>,
                                 prepare: Answer<PreparedStatementResponse>,
                                 execute: Answer<SQLQueriesResponse>, close: Answer<()>)
    returns (c: Connection, err: Option<Error>, prepared: Result<Statement>,
             rows: Result<SQLQueriesResponse>, result: Result<SQLQueriesResponse>)
    requires !(login.Reply? && encryptedPassword.Some? && auth.Reply?)
    requires ColumnsDeclared(args, prepare)
    ensures c.Valid() && c.isClosed && c.transportOpen
    ensures err.Some? && c.sessionID == 0 && c.metadata == None
    ensures c.trace == [c.LoginCommand()] ||
      (encryptedPassword.Some? && c.trace == [c.LoginCommand(), c.AuthCommand(encryptedPassword.value)])
    ensures prepared == Err(ErrBadConn) && rows == Err(ErrBadConn) && result == Err(ErrBadConn)
  {
    c := new Connection(config, true);
    err := c.Login(login, encryptedPassword, auth);
    prepared := c.Prepare(query, prepare);
    rows := c.Query(query, args, prepare, execute, close);
    result := c.Exec(query, args, prepare, execute, close);
  }

  /** The lifecycle as a caller sees it: once `close` has run, `Prepare`, `Begin`,
      `query` and `exec` all fail with the bad-connection error, and nothing but the
      `disconnect` command has been sent. */
  method UseAfterClose(c: Connection, query: string, args: seq<Value>,
                       disconnect: Answer<()>, prepare: Answer<PreparedStatementResponse>,
                       execute: Answer<SQLQueriesResponse>, close: Answer<()>)
    returns (prepared: Result<Statement>, transaction: Result<Transaction>,
             rows: Result<SQLQueriesResponse>, result: Result<SQLQueriesResponse>)
    requires c.Valid() && c.transportOpen && ColumnsDeclared(args, prepare)
    modifies c
    ensures c.Valid() && c.isClosed
    ensures c.trace == old(c.trace) + [Disconnect]
    ensures prepared == Err(ErrBadConn) && transaction == Err(ErrBadConn)
    ensures rows == Err(ErrBadConn) && result == Err(ErrBadConn)
  {
    var _ := c.Close(disconnect);
    prepared := c.Prepare(query, prepare);
    transaction := c.Begin();
    rows := c.Query(query, args, prepare, execute, close);
    result := c.Exec(query, args, prepare, execute, close);
  }
}
