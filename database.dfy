/**
 * The part of ADO.NET the migration manager uses: a connection that is
 * opened on demand and a command object that carries its text and type to
 * the server. What the SQL does to the database is not modelled; the
 * connection records each command it sends.
 */
module Database {
  import opened Wrappers

  /** An error the database driver raises, kept verbatim. */
  datatype DbError = DbError(message: string)

  datatype CommandType = Text | StoredProcedure | TableDirect

  /** A command as it reaches the server. */
  datatype Command = Command(text: string, commandType: CommandType)

  class Connection {
    var isOpen: bool
    /** How many times `Open` was called on this connection. */
    ghost var openCount: nat
    /** Every command sent to the server, oldest first. */
    ghost var sent: seq<Command>

    constructor (isOpen: bool)
      ensures this.isOpen == isOpen && openCount == 0 && sent == []
    {
      this.isOpen := isOpen;
      openCount := 0;
      sent := [];
    }

    /** `DbConnection.Open`; the driver refuses to open a connection twice. */
    method Open()
      requires !isOpen
      modifies this
      ensures isOpen && openCount == old(openCount) + 1 && sent == old(sent)
    {
      isOpen := true;
      openCount := openCount + 1;
    }
  }

  /** `DbCommand`, created by `connection.CreateCommand()`. */
  class DbCommand {
    const connection: Connection
    var commandText: string
    var commandType: CommandType

    /** A new command has empty text and type `Text`. */
    constructor (connection: Connection)
      ensures this.connection == connection && commandText == "" && commandType == Text
    {
      this.connection := connection;
      commandText := "";
      commandType := Text;
    }

    /** `ExecuteNonQuery`: sends the command once over an open connection.
        `serverReply` is the database's answer, which the model takes as an
        input; a failure comes back as the driver raised it. */
    method ExecuteNonQuery(serverReply: Outcome<DbError>) returns (r: Outcome<DbError>)
      requires connection.isOpen
      modifies connection
      ensures r == serverReply
      ensures connection.sent == old(connection.sent) + [Command(commandText, commandType)]
      ensures connection.isOpen && connection.openCount == old(connection.openCount)
    {
      connection.sent := connection.sent + [Command(commandText, commandType)];
      r := serverReply;
    }
  }
}
