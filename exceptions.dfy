/**
 * The error vocabulary: the `ErrorCode` enumeration with its banded integer
 * values, the three error kinds (`TalosError`, `TalosConnectionError`,
 * `TalosCommandError`), the classification of a failed command into an error
 * code, the user-facing message of a command error, and `to_dict`.
 */
module Exceptions {
  import opened Wrappers
  import opened Text

  datatype ErrorCode =
    // General errors (1xx)
    | Unknown | InternalError | ConfigurationError
    // Connection errors (2xx)
    | ConnectionFailed | Timeout | AuthenticationFailed | NodeUnreachable
    // Command errors (3xx)
    | CommandFailed | CommandNotFound | InvalidArguments | PermissionDenied | ReadonlyViolation
    // Resource errors (4xx)
    | ResourceNotFound | ResourceUnavailable | ResourceBusy
    // Validation errors (5xx)
    | ValidationFailed | InvalidConfig | SchemaValidationFailed

  /** The band of a code: 1 general, 2 connection, 3 command, 4 resource, 5 validation. */
  function Category(c: ErrorCode): nat {
    match c
    case Unknown | InternalError | ConfigurationError => 1
    case ConnectionFailed | Timeout | AuthenticationFailed | NodeUnreachable => 2
    case CommandFailed | CommandNotFound | InvalidArguments | PermissionDenied | ReadonlyViolation => 3
    case ResourceNotFound | ResourceUnavailable | ResourceBusy => 4
    case ValidationFailed | InvalidConfig | SchemaValidationFailed => 5
  }

  /** `code.value`; every value lies in the hundreds of its band. */
  function Value(c: ErrorCode): (v: int)
    ensures 100 * Category(c) <= v < 100 * Category(c) + 100
  {
    match c
    case Unknown => 100
    case InternalError => 101
    case ConfigurationError => 102
    case ConnectionFailed => 200
    case Timeout => 201
    case AuthenticationFailed => 202
    case NodeUnreachable => 203
    case CommandFailed => 300
    case CommandNotFound => 301
    case InvalidArguments => 302
    case PermissionDenied => 303
    case ReadonlyViolation => 304
    case ResourceNotFound => 400
    case ResourceUnavailable => 401
    case ResourceBusy => 402
    case ValidationFailed => 500
    case InvalidConfig => 501
    case SchemaValidationFailed => 502
  }

  /** `ErrorCode(v)`: the code with value `v`, if there is one. */
  function FromValue(v: int): Option<ErrorCode> {
    if v == 100 then Some(Unknown)
    else if v == 101 then Some(InternalError)
    else if v == 102 then Some(ConfigurationError)
    else if v == 200 then Some(ConnectionFailed)
    else if v == 201 then Some(Timeout)
    else if v == 202 then Some(AuthenticationFailed)
    else if v == 203 then Some(NodeUnreachable)
    else if v == 300 then Some(CommandFailed)
    else if v == 301 then Some(CommandNotFound)
    else if v == 302 then Some(InvalidArguments)
    else if v == 303 then Some(PermissionDenied)
    else if v == 304 then Some(ReadonlyViolation)
    else if v == 400 then Some(ResourceNotFound)
    else if v == 401 then Some(ResourceUnavailable)
    else if v == 402 then Some(ResourceBusy)
    else if v == 500 then Some(ValidationFailed)
    else if v == 501 then Some(InvalidConfig)
    else if v == 502 then Some(SchemaValidationFailed)
    else None
  }

  /** `code.name`. */
  function Name(c: ErrorCode): string {
    match c
    case Unknown => "UNKNOWN"
    case InternalError => "INTERNAL_ERROR"
    case ConfigurationError => "CONFIGURATION_ERROR"
    case ConnectionFailed => "CONNECTION_FAILED"
    case Timeout => "TIMEOUT"
    case AuthenticationFailed => "AUTHENTICATION_FAILED"
    case NodeUnreachable => "NODE_UNREACHABLE"
    case CommandFailed => "COMMAND_FAILED"
    case CommandNotFound => "COMMAND_NOT_FOUND"
    case InvalidArguments => "INVALID_ARGUMENTS"
    case PermissionDenied => "PERMISSION_DENIED"
    case ReadonlyViolation => "READONLY_VIOLATION"
    case ResourceNotFound => "RESOURCE_NOT_FOUND"
    case ResourceUnavailable => "RESOURCE_UNAVAILABLE"
    case ResourceBusy => "RESOURCE_BUSY"
    case ValidationFailed => "VALIDATION_FAILED"
    case InvalidConfig => "INVALID_CONFIG"
    case SchemaValidationFailed => "SCHEMA_VALIDATION_FAILED"
  }

  /** `ErrorCode[s]`: the code named `s`, if there is one. The lookup goes by
      the first letter, then compares the whole name. */
  function FromName(s: string): Option<ErrorCode> {
    if s == [] then None
    else match s[0]
      case 'A' => if s == "AUTHENTICATION_FAILED" then Some(AuthenticationFailed) else None
      case 'C' =>
        if s == "CONFIGURATION_ERROR" then Some(ConfigurationError)
        else if s == "CONNECTION_FAILED" then Some(ConnectionFailed)
        else if s == "COMMAND_FAILED" then Some(CommandFailed)
        else if s == "COMMAND_NOT_FOUND" then Some(CommandNotFound)
        else None
      case 'I' =>
        if s == "INTERNAL_ERROR" then Some(InternalError)
        else if s == "INVALID_ARGUMENTS" then Some(InvalidArguments)
        else if s == "INVALID_CONFIG" then Some(InvalidConfig)
        else None
      case 'N' => if s == "NODE_UNREACHABLE" then Some(NodeUnreachable) else None
      case 'P' => if s == "PERMISSION_DENIED" then Some(PermissionDenied) else None
      case 'R' =>
        if s == "READONLY_VIOLATION" then Some(ReadonlyViolation)
        else if s == "RESOURCE_NOT_FOUND" then Some(ResourceNotFound)
        else if s == "RESOURCE_UNAVAILABLE" then Some(ResourceUnavailable)
        else if s == "RESOURCE_BUSY" then Some(ResourceBusy)
        else None
      case 'S' => if s == "SCHEMA_VALIDATION_FAILED" then Some(SchemaValidationFailed) else None
      case 'T' => if s == "TIMEOUT" then Some(Timeout) else None
      case 'U' => if s == "UNKNOWN" then Some(Unknown) else None
      case 'V' => if s == "VALIDATION_FAILED" then Some(ValidationFailed) else None
      case _ => None
  }

  /** A code is recovered from its value. */
  lemma ValueRoundTrip(c: ErrorCode)
    ensures FromValue(Value(c)) == Some(c)
  {
  }

  /** A code is recovered from its name. */
  lemma NameRoundTrip(c: ErrorCode)
    ensures FromName(Name(c)) == Some(c)
  {
    match c
    case Unknown =>
    case InternalError =>
    case ConfigurationError =>
    case ConnectionFailed =>
    case Timeout =>
    case AuthenticationFailed =>
    case NodeUnreachable =>
    case CommandFailed =>
    case CommandNotFound =>
    case InvalidArguments =>
    case PermissionDenied =>
    case ReadonlyViolation =>
    case ResourceNotFound =>
    case ResourceUnavailable =>
    case ResourceBusy =>
    case ValidationFailed =>
    case InvalidConfig =>
    case SchemaValidationFailed =>
  }

  /** All values are pairwise distinct. */
  lemma ValuesDistinct(c1: ErrorCode, c2: ErrorCode)
    requires c1 != c2
    ensures Value(c1) != Value(c2)
  {
    ValueRoundTrip(c1);
    ValueRoundTrip(c2);
  }

  // ---------------------------------------------------------------------------
  // Classification of a failed command
  // ---------------------------------------------------------------------------

  /** The substring patterns tried on the lower-cased stderr, in order. */
  const ErrorPatterns: seq<(string, ErrorCode)> := [
    ("connection refused", ConnectionFailed),
    ("connection reset", ConnectionFailed),
    ("no route to host", NodeUnreachable),
    ("unreachable", NodeUnreachable),
    ("timeout", Timeout),
    ("deadline exceeded", Timeout),
    ("context deadline", Timeout),
    ("not found", ResourceNotFound),
    ("permission denied", PermissionDenied),
    ("unauthorized", AuthenticationFailed),
    ("authentication failed", AuthenticationFailed),
    ("certificate", AuthenticationFailed),
    ("tls", AuthenticationFailed),
    ("readonly", ReadonlyViolation),
    ("read-only", ReadonlyViolation)
  ]

  /** Pattern `i` occurs in `text` and no earlier pattern does. */
  ghost predicate IsFirstMatch(text: string, patterns: seq<(string, ErrorCode)>, i: int) {
    && 0 <= i < |patterns|
    && Contains(text, patterns[i].0)
    && forall j :: 0 <= j < i ==> !Contains(text, patterns[j].0)
  }

  /** The index of the first pattern that occurs in `text`, if any does. */
  function FirstMatch(text: string, patterns: seq<(string, ErrorCode)>): (r: Option<nat>)
    ensures r != None ==> IsFirstMatch(text, patterns, r.value)
    ensures r == None ==> forall j :: 0 <= j < |patterns| ==> !Contains(text, patterns[j].0)
  {
    if patterns == [] then None
    else if Contains(text, patterns[0].0) then Some(0)
    else match FirstMatch(text, patterns[1..])
      case None => None
      case Some(i) => Some(i + 1)
  }

  /** `_infer_error_code`: an explicit code other than COMMAND_FAILED wins; then the
      exit codes 127, 126 and 124/143; then the first pattern in the stderr; and
      COMMAND_FAILED when nothing matches. */
  function InferErrorCode(code: ErrorCode, returncode: int, stderr: string): (r: ErrorCode)
    ensures code != CommandFailed ==> r == code
    ensures code == CommandFailed && returncode == 127 ==> r == CommandNotFound
    ensures code == CommandFailed && returncode == 126 ==> r == PermissionDenied
    ensures code == CommandFailed && (returncode == 124 || returncode == 143) ==> r == Timeout
    ensures code == CommandFailed && returncode !in {124, 126, 127, 143} ==>
      && (r == CommandFailed <==>
            forall j :: 0 <= j < |ErrorPatterns| ==> !Contains(Lower(stderr), ErrorPatterns[j].0))
      && (r != CommandFailed ==>
            exists i :: IsFirstMatch(Lower(stderr), ErrorPatterns, i) && r == ErrorPatterns[i].1)
  {
    if code != CommandFailed then code
    else if returncode == 127 then CommandNotFound
    else if returncode == 126 then PermissionDenied
    else if returncode == 124 || returncode == 143 then Timeout
    else
      match FirstMatch(Lower(stderr), ErrorPatterns)
      case Some(i) => ErrorPatterns[i].1
      case None => CommandFailed
  }

  // ---------------------------------------------------------------------------
  // User-facing messages
  // ---------------------------------------------------------------------------

  // The templates of `USER_MESSAGES`, one per code that has one.
  const CommandNotFoundTemplate := "talosctl not found in PATH. Please install talosctl from https://talos.dev/install"
  const ConnectionFailedTemplate := "Cannot connect to Talos node. Check if the node is online and network connectivity is available."
  const AuthenticationFailedTemplate := "Authentication failed. Check your talosconfig file has valid certificates and the node trusts your client."
  const PermissionDeniedTemplate := "Permission denied. Your credentials may not have permission to perform this operation."
  const TimeoutTemplate := "Request timed out. The node may be overloaded or network latency is too high. Try again later."
  const ResourceNotFoundTemplate := "Requested resource not found. Verify the resource name and that it exists on the target node."
  const ReadonlyViolationTemplate := "Operation blocked in read-only mode. Set TALOS_MCP_READONLY=false or remove --readonly flag to enable write operations."
  const NodeUnreachableTemplate := "Node is unreachable. Verify the node IP/hostname is correct and the node is running."

  /** `USER_MESSAGES.get(code)`. */
  function UserTemplate(c: ErrorCode): Option<string> {
    match c
    case CommandNotFound => Some(CommandNotFoundTemplate)
    case ConnectionFailed => Some(ConnectionFailedTemplate)
    case AuthenticationFailed => Some(AuthenticationFailedTemplate)
    case PermissionDenied => Some(PermissionDeniedTemplate)
    case Timeout => Some(TimeoutTemplate)
    case ResourceNotFound => Some(ResourceNotFoundTemplate)
    case ReadonlyViolation => Some(ReadonlyViolationTemplate)
    case NodeUnreachable => Some(NodeUnreachableTemplate)
    case _ => None
  }

  /** What precedes the stderr in a user message. */
  function MessagePrefix(c: ErrorCode): string {
    match UserTemplate(c)
    case Some(t) => t + "\n\nTechnical details: "
    case None => "Operation failed: "
  }

  /** `get_user_message`: the template and the technical details, or a generic
      lead-in; the stderr always ends the message, untouched. */
  function UserMessage(c: ErrorCode, stderr: string): (m: string)
    ensures StartsWith(m, MessagePrefix(c)) && m[|MessagePrefix(c)|..] == stderr
    ensures EndsWith(m, stderr)
  {
    MessagePrefix(c) + stderr
  }

  /** Every code the classification can infer from a bare failure has a template. */
  lemma InferredCodesHaveTemplates(returncode: int, stderr: string)
    ensures var c := InferErrorCode(CommandFailed, returncode, stderr);
            c == CommandFailed || UserTemplate(c) != None
  {
    if returncode !in {124, 126, 127, 143} {
      var r := FirstMatch(Lower(stderr), ErrorPatterns);
      if r != None {
        PatternCodeHasTemplate(r.value);
      }
    }
  }

  lemma PatternCodeHasTemplate(i: nat)
    requires i < |ErrorPatterns|
    ensures UserTemplate(ErrorPatterns[i].1) != None
  {
    assert ErrorPatterns[i].1 in {ConnectionFailed, NodeUnreachable, Timeout, ResourceNotFound,
                                  PermissionDenied, AuthenticationFailed, ReadonlyViolation};
  }

  /** A first match is what `FirstMatch` finds. */
  lemma FirstMatchIs(text: string, patterns: seq<(string, ErrorCode)>, i: nat)
    requires IsFirstMatch(text, patterns, i)
    ensures FirstMatch(text, patterns) == Some(i)
  {
  }

  /** Past the exit-code checks, the first pattern found decides the code. */
  lemma InferByFirstMatch(returncode: int, stderr: string, i: nat)
    requires returncode !in {124, 126, 127, 143}
    requires IsFirstMatch(Lower(stderr), ErrorPatterns, i)
    ensures InferErrorCode(CommandFailed, returncode, stderr) == ErrorPatterns[i].1
  {
    FirstMatchIs(Lower(stderr), ErrorPatterns, i);
  }

  /** A stderr that starts with "connection refused", in any case, is a failed
      connection, whatever follows. */
  lemma InferConnectionRefused(returncode: int, stderr: string)
    requires returncode !in {124, 126, 127, 143}
    requires StartsWith(Lower(stderr), "connection refused")
    ensures InferErrorCode(CommandFailed, returncode, stderr) == ConnectionFailed
  {
    PrefixContained(Lower(stderr), "connection refused");
    InferByFirstMatch(returncode, stderr, 0);
  }

  /** Any of the three timeout patterns gives TIMEOUT once the four connection
      patterns before them are absent. */
  lemma InferTimeoutPatterns(returncode: int, stderr: string)
    requires returncode !in {124, 126, 127, 143}
    requires forall j :: 0 <= j < 4 ==> !Contains(Lower(stderr), ErrorPatterns[j].0)
    requires Contains(Lower(stderr), "timeout") || Contains(Lower(stderr), "deadline exceeded")
          || Contains(Lower(stderr), "context deadline")
    ensures InferErrorCode(CommandFailed, returncode, stderr) == Timeout
  {
    var t := Lower(stderr);
    assert ErrorPatterns[4].0 == "timeout" && ErrorPatterns[5].0 == "deadline exceeded";
    assert ErrorPatterns[6].0 == "context deadline";
    if Contains(t, "timeout") {
      assert IsFirstMatch(t, ErrorPatterns, 4);
      InferByFirstMatch(returncode, stderr, 4);
    } else if Contains(t, "deadline exceeded") {
      assert forall j :: 0 <= j < 5 ==> !Contains(t, ErrorPatterns[j].0) by {
        forall j | 0 <= j < 5 ensures !Contains(t, ErrorPatterns[j].0) {
          if j == 4 {
            assert ErrorPatterns[j].0 == "timeout";
          }
        }
      }
      assert IsFirstMatch(t, ErrorPatterns, 5);
      InferByFirstMatch(returncode, stderr, 5);
    } else {
      assert forall j :: 0 <= j < 6 ==> !Contains(t, ErrorPatterns[j].0) by {
        forall j | 0 <= j < 6 ensures !Contains(t, ErrorPatterns[j].0) {
          if j == 4 {
            assert ErrorPatterns[j].0 == "timeout";
          } else if j == 5 {
            assert ErrorPatterns[j].0 == "deadline exceeded";
          }
        }
      }
      assert IsFirstMatch(t, ErrorPatterns, 6);
      InferByFirstMatch(returncode, stderr, 6);
    }
  }

  // ---------------------------------------------------------------------------
  // The exception values
  // ---------------------------------------------------------------------------

  datatype TalosError =
    | BaseError(message: string, code: ErrorCode)
    | ConnectionError(message: string, code: ErrorCode)
    | CommandError(cmd: seq<string>, returncode: int, stderr: string, message: string, code: ErrorCode)

  /** `TalosError(message, code=UNKNOWN)`. */
  function NewTalosError(message: string, code: ErrorCode := Unknown): (e: TalosError)
    ensures e.message == message && e.code == code
  {
    BaseError(message, code)
  }

  /** `TalosConnectionError(message, code=CONNECTION_FAILED)`. */
  function NewConnectionError(message: string, code: ErrorCode := ConnectionFailed): (e: TalosError)
    ensures e.message == message && e.code == code
  {
    ConnectionError(message, code)
  }

  /** The message of a command error. */
  function CommandMessage(returncode: int, stderr: string): string {
    "Command failed with code " + IntToString(returncode) + ": " + stderr
  }

  /** Reads the exit code and the stderr back out of a command error's message. */
  function ParseCommandMessage(m: string): Option<(int, string)> {
    var lead := "Command failed with code ";
    if !StartsWith(m, lead) then None
    else
      var rest := m[|lead|..];
      var number := Split(rest, ':')[0];
      if |number| + 2 <= |rest| then Some((ParseInt(number), rest[|number| + 2..])) else None
  }

  /** The message of a command error determines its exit code and its stderr. */
  lemma CommandMessageRoundTrip(returncode: int, stderr: string)
    ensures ParseCommandMessage(CommandMessage(returncode, stderr)) == Some((returncode, stderr))
  {
    var lead := "Command failed with code ";
    var number := IntToString(returncode);
    var m := CommandMessage(returncode, stderr);
    var rest := number + [':'] + (" " + stderr);
    assert m == lead + rest;
    assert m[|lead|..] == rest;
    IntToStringHasNoColon(returncode);
    SplitAtFirstSeparator(number, ':', " " + stderr);
    ParseIntToString(returncode);
    assert rest[|number| + 2..] == stderr;
  }

  /** `TalosCommandError(cmd, returncode, stderr, code=COMMAND_FAILED)`: the three
      inputs kept as given, the code inferred, and the message built from the exit
      code and the stderr. */
  function NewCommandError(cmd: seq<string>, returncode: int, stderr: string,
                           code: ErrorCode := CommandFailed): (e: TalosError)
    ensures e.CommandError? && e.cmd == cmd && e.returncode == returncode && e.stderr == stderr
    ensures e.code == InferErrorCode(code, returncode, stderr)
    ensures ParseCommandMessage(e.message) == Some((returncode, stderr))
  {
    CommandMessageRoundTrip(returncode, stderr);
    CommandError(cmd, returncode, stderr, CommandMessage(returncode, stderr),
                 InferErrorCode(code, returncode, stderr))
  }

  /** `get_user_message` of a command error. */
  function GetUserMessage(e: TalosError): (m: string)
    requires e.CommandError?
    ensures EndsWith(m, e.stderr)
  {
    UserMessage(e.code, e.stderr)
  }

  /** A value of the dictionary `to_dict` returns. */
  datatype DictValue = Str(s: string) | Int(i: int) | StrList(l: seq<string>)

  /** `to_dict`: message, code value and code name; for a command error also the
      command, the exit code, the stderr and the user message. */
  function ToDict(e: TalosError): (d: map<string, DictValue>)
    ensures d.Keys == if e.CommandError?
                      then {"error", "code", "code_name", "command", "returncode", "stderr", "user_message"}
                      else {"error", "code", "code_name"}
    ensures "error" in d && d["error"] == Str(e.message)
    ensures e.CommandError? ==> "command" in d && d["command"] == StrList(e.cmd)
    ensures e.CommandError? ==> "returncode" in d && d["returncode"] == Int(e.returncode)
    ensures e.CommandError? ==> "stderr" in d && d["stderr"] == Str(e.stderr)
    ensures e.CommandError? ==> "user_message" in d && d["user_message"] == Str(GetUserMessage(e))
  {
    var base := map["error" := Str(e.message), "code" := Int(Value(e.code)), "code_name" := Str(Name(e.code))];
    if e.CommandError? then
      base["command" := StrList(e.cmd)]["returncode" := Int(e.returncode)]
          ["stderr" := Str(e.stderr)]["user_message" := Str(GetUserMessage(e))]
    else base
  }

  /** The code is recovered from either of its two renderings in `to_dict`. */
  lemma ToDictCode(e: TalosError)
    ensures "code" in ToDict(e) && ToDict(e)["code"].Int?
    ensures FromValue(ToDict(e)["code"].i) == Some(e.code)
    ensures "code_name" in ToDict(e) && ToDict(e)["code_name"].Str?
    ensures FromName(ToDict(e)["code_name"].s) == Some(e.code)
  {
    ValueRoundTrip(e.code);
    NameRoundTrip(e.code);
  }
}
