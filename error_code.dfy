/** The closed enumeration of application error codes and their metadata messages. */
module ErrorCodes {
  import opened Wrappers

  datatype ErrorCode =
    | E_SCHEMA_PARSE_ERROR
    | E_UNKNOWN_ERROR
    | E_UNEXPECTED_RUNTIME_EXIT_RESULT
    | E_EVENT_DISPATCH
    | E_EVENT_HANDLER

  /** Every code, in declaration order. */
  const AllCodes: seq<ErrorCode> :=
    [E_SCHEMA_PARSE_ERROR, E_UNKNOWN_ERROR, E_UNEXPECTED_RUNTIME_EXIT_RESULT, E_EVENT_DISPATCH, E_EVENT_HANDLER]

  /** The string value of a code; for every code it is the code's own name. */
  function CodeString(c: ErrorCode): (s: string)
    ensures |s| > 2 && s[..2] == "E_"
  {
    match c
    case E_SCHEMA_PARSE_ERROR => "E_SCHEMA_PARSE_ERROR"
    case E_UNKNOWN_ERROR => "E_UNKNOWN_ERROR"
    case E_UNEXPECTED_RUNTIME_EXIT_RESULT => "E_UNEXPECTED_RUNTIME_EXIT_RESULT"
    case E_EVENT_DISPATCH => "E_EVENT_DISPATCH"
    case E_EVENT_HANDLER => "E_EVENT_HANDLER"
  }

  /** Reads a code back from its string value; any other string is no code. */
  function FromString(s: string): (r: Option<ErrorCode>)
    ensures r.Some? ==> CodeString(r.value) == s
  {
    if s == "E_SCHEMA_PARSE_ERROR" then Some(E_SCHEMA_PARSE_ERROR)
    else if s == "E_UNKNOWN_ERROR" then Some(E_UNKNOWN_ERROR)
    else if s == "E_UNEXPECTED_RUNTIME_EXIT_RESULT" then Some(E_UNEXPECTED_RUNTIME_EXIT_RESULT)
    else if s == "E_EVENT_DISPATCH" then Some(E_EVENT_DISPATCH)
    else if s == "E_EVENT_HANDLER" then Some(E_EVENT_HANDLER)
    else None
  }

  /** ERROR_CODE_METADATA: the message of each code. */
  const Metadata: map<ErrorCode, string> := map[
    E_SCHEMA_PARSE_ERROR := "Unknown error occurred while parsing the schema.",
    E_UNKNOWN_ERROR := "Unknown error occurred in the application which is not handled by the application.",
    E_UNEXPECTED_RUNTIME_EXIT_RESULT := "Unexpected runtime exit result returned from the application runtime and not able to be handled.",
    E_EVENT_DISPATCH := "Unexpected error occurred while emitting the event.",
    E_EVENT_HANDLER := "Unexpected error occurred while handling the event."]

  /** The metadata map is total: every code has a non-empty message. */
  lemma MetadataTotal(c: ErrorCode)
    ensures c in Metadata && |Metadata[c]| > 0
  {
  }

  /** The metadata message of a code. */
  function Message(c: ErrorCode): (m: string)
    ensures c in Metadata && m == Metadata[c] && |m| > 0
  {
    MetadataTotal(c);
    Metadata[c]
  }

  /** There are exactly five codes, each listed once. */
  lemma ExactlyFiveCodes()
    ensures |AllCodes| == 5
    ensures forall c: ErrorCode :: c in AllCodes
    ensures forall i, j :: 0 <= i < j < |AllCodes| ==> AllCodes[i] != AllCodes[j]
  {
    forall c: ErrorCode ensures c in AllCodes {
      match c
      case E_SCHEMA_PARSE_ERROR => assert AllCodes[0] == c;
      case E_UNKNOWN_ERROR => assert AllCodes[1] == c;
      case E_UNEXPECTED_RUNTIME_EXIT_RESULT => assert AllCodes[2] == c;
      case E_EVENT_DISPATCH => assert AllCodes[3] == c;
      case E_EVENT_HANDLER => assert AllCodes[4] == c;
    }
  }

  /** The string value identifies the code: reading it back gives the same code. */
  lemma CodeStringRoundTrip(c: ErrorCode)
    ensures FromString(CodeString(c)) == Some(c)
  {
  }

  /** No code's string value contains `]`, so the rendering `[code]` can be split unambiguously. */
  lemma CodeStringHasNoBracket(c: ErrorCode)
    ensures ']' !in CodeString(c)
  {
  }
}
