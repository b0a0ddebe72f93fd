/** Values, records and outcomes shared by the gateway's modules. */
module Common {

  datatype Option<+T> = None | Some(value: T)

  /** A decoded JSON value. The gateway inspects integers and strings;
      every other JSON value is carried along unexamined, by its text. */
  datatype Value = Int(i: int) | Str(s: string) | Other(text: string)

  /** A decoded JSON object. */
  type Dict = map<string, Value>

  /** A team as the team service describes it: TeamData and TeamDataType
      carry these two fields. TeamCreateType and TeamCreatedInput are
      imported but not defined in the schema; the query selection and the
      REST payload read these same two fields from them. */
  datatype TeamRecord = TeamRecord(teamId: int, teamName: string)

  /** A player as the team service describes it (PlayerCreateType,
      PlayerDataName). PlayerDataType is imported but not defined in the
      schema; the get_players selection reads these same two fields. */
  datatype PlayerRecord = PlayerRecord(playerId: int, playerName: string)

  /** The consolidated player: PlayerCreatedInput, handed to the frontend,
      and PlayerCreatedType, returned to the caller, have these four fields. */
  datatype PlayerCreatedRecord = PlayerCreatedRecord(
    playerTeamId: int,
    playerName: string,
    playerTeamName: string,
    playerScore: int)

  /** The exception classes the gateway raises with a message. */
  datatype ErrorClass = TeamError | PlayerError | TeamCreationError | PlayerCreationError

  /** Why an operation raised instead of returning. */
  datatype Failure =
    | Raised(errorClass: ErrorClass, message: string)  // raise <ErrorClass>(message)
    | LookupError        // KeyError or IndexError while reading a reply
    | ValidationError    // a pydantic model refused its fields
    | TypeError          // Record(**reply) with fields the record does not have
    | DecodeError        // json.loads or a field lookup on a stored fragment failed

  /** The value an operation returns, or the exception it raises. */
  datatype Outcome<+T> = Ok(value: T) | Fail(failure: Failure)
}
