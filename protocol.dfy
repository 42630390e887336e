/** The values exchanged between the driver's connection and the database server:
    the command records the driver sends, the server's answers to them, and the
    errors a connection operation can return. */
module Protocol {

  datatype Option<+T> = None | Some(value: T)

  /** A bind value (`driver.Value`); the connection only moves it around. */
  datatype Value = Null | Int(i: int) | Str(s: string) | Bool(b: bool)

  /** A column descriptor as the server reports it for a prepared statement. */
  datatype Column = Column(name: string, dataType: string)

  /** The part of the driver configuration the connection reads. */
  datatype Config = Config(
    user: string,
    password: string,
    apiVersion: int,
    autocommit: bool,
    clientName: string)

  /** One command record, as `send` writes it. For every record but `Authenticate` the
      constructor is the command's discriminator; `Authenticate` tags the authentication
      message, which carries no discriminator on the wire. */
  datatype Command =
    | Login(protocolVersion: int, autocommit: bool)
    | Authenticate(username: string, password: string, useCompression: bool,
                   clientName: string, clientVersion: string, autocommit: bool)
    | Execute(sqlText: string)
    | CreatePreparedStatement(sqlText: string)
    | ExecutePreparedStatement(statementHandle: int, columns: seq<Column>,
                               numColumns: int, numRows: int, data: seq<seq<Value>>)
    | ClosePreparedStatement(statementHandle: int)
    | Disconnect

  /** Answer to `createPreparedStatement`: the handle and the parameter data. */
  datatype PreparedStatementResponse =
    PreparedStatementResponse(statementHandle: int, numColumns: int, columns: seq<Column>)

  /** Answer to `execute` and `executePreparedStatement`; only the result count is inspected. */
  datatype SQLQueriesResponse = SQLQueriesResponse(numResults: int)

  /** Answer to `login`: the server's public key, hex encoded. */
  datatype PublicKeyResponse = PublicKeyResponse(modulus: string, exponent: string)

  /** Answer to the authentication command: the session descriptor. */
  datatype AuthResponse = AuthResponse(sessionID: int)

  /** Why one exchange failed: the transport, the decoding of the reply, or a failure status. */
  datatype SendFailure = TransportFailure | DecodeFailure | StatusFailure(message: string)

  /** What one `send` yields: the decoded reply, or the error `send` returns. */
  datatype Answer<+P> = Reply(payload: P) | Failed(reason: SendFailure)

  /** The errors a connection operation returns. */
  datatype Error =
    | ErrBadConn
    | ErrAutocommitEnabled
    | ErrInvalidValuesCount
    | ErrMalformData
    | SendError(reason: SendFailure)

  datatype Result<+T> = Ok(value: T) | Err(error: Error)

  /** The error `send` returns for an answer, `None` for a reply. */
  function ErrorOf<P>(a: Answer<P>): Option<Error>
  {
    match a
    case Reply(_) => None
    case Failed(reason) => Some(SendError(reason))
  }
}
