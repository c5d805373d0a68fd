/** The stdio facade: bounded line framing, and the message loop with its lifecycle
    (JSON-RPC 2.0; Lifecycle section of the MCP specification, 2025-03-26). */
module StdioFacade {
  import opened JsonValues

  type byte = x | 0 <= x < 256

  const NEWLINE: byte := 10
  const MAX_LINE: nat := 1_048_576
  const MAX_ID_CHARS: nat := 256
  const MAX_INTEGER: int := 0x7FFF_FFFF_FFFF_FFFF

  // ---- Lines -------------------------------------------------------------------------------

  /** Through the first newline, or everything. */
  function NextLine(b: seq<byte>): (line: seq<byte>)
    ensures |line| <= |b| && b == line + b[|line|..]
    ensures b != [] ==> line != []
  {
    if b == [] then [] else if b[0] == NEWLINE then [b[0]] else [b[0]] + NextLine(b[1..])
  }

  /** The plain splitting of a whole stream. */
  function Lines(b: seq<byte>): seq<seq<byte>>
    decreases |b|
  {
    if b == [] then [] else [NextLine(b)] + Lines(b[|NextLine(b)|..])
  }

  predicate EndsLine(b: seq<byte>) { b != [] && b[|b| - 1] == NEWLINE }

  function Join(lines: seq<seq<byte>>): seq<byte> {
    if lines == [] then [] else lines[0] + Join(lines[1..])
  }

  lemma {:induction false} NextLineEnd(b: seq<byte>)
    ensures forall i | 0 <= i < |NextLine(b)| - 1 :: NextLine(b)[i] != NEWLINE
    ensures EndsLine(NextLine(b)) || NextLine(b) == b
  {
    if b != [] && b[0] != NEWLINE {
      NextLineEnd(b[1..]);
      assert NextLine(b) == [b[0]] + NextLine(b[1..]);
      if NextLine(b[1..]) == b[1..] {
        assert NextLine(b) == b;
      }
    }
  }

  /** The splitting loses nothing, and cuts at the newlines only. */
  lemma {:induction false} LinesSplitTheStream(b: seq<byte>)
    ensures Join(Lines(b)) == b
    ensures forall i | 0 <= i < |Lines(b)| ::
              Lines(b)[i] != [] && forall j | 0 <= j < |Lines(b)[i]| - 1 :: Lines(b)[i][j] != NEWLINE
    ensures forall i | 0 <= i < |Lines(b)| - 1 :: EndsLine(Lines(b)[i])
    decreases |b|
  {
    if b != [] {
      NextLineEnd(b);
      var rest := b[|NextLine(b)|..];
      LinesSplitTheStream(rest);
      assert Lines(b)[1..] == Lines(rest);
      forall i | 0 <= i < |Lines(b)| - 1 ensures EndsLine(Lines(b)[i]) {
        if i > 0 { assert Lines(b)[i] == Lines(rest)[i - 1]; }
      }
      forall i | 0 <= i < |Lines(b)|
        ensures Lines(b)[i] != [] && forall j | 0 <= j < |Lines(b)[i]| - 1 :: Lines(b)[i][j] != NEWLINE
      {
        if i > 0 { assert Lines(b)[i] == Lines(rest)[i - 1]; }
      }
    }
  }

  /** From the middle of a line on, the rest of it is the next line. */
  lemma {:induction false} MiddleOfLine(b: seq<byte>, k: nat)
    requires k < |NextLine(b)|
    ensures NextLine(b[k..]) == NextLine(b)[k..]
    decreases k
  {
    if k > 0 {
      assert b[k..] == b[1..][k - 1..];
      assert NextLine(b)[k..] == NextLine(b[1..])[k - 1..];
      MiddleOfLine(b[1..], k - 1);
    } else {
      assert b[0..] == b && NextLine(b)[0..] == NextLine(b);
    }
  }

  /** A line cut after `n` bytes either was complete or goes on with the next line of the rest. */
  lemma RestOfLine(b: seq<byte>, n: nat)
    requires 0 < n <= |NextLine(b)|
    ensures EndsLine(NextLine(b)[..n]) ==> b[n..] == b[|NextLine(b)|..]
    ensures !EndsLine(NextLine(b)[..n]) ==> b[n..][|NextLine(b[n..])|..] == b[|NextLine(b)|..]
  {
    NextLineEnd(b);
    var line := NextLine(b);
    assert line[..n][n - 1] == line[n - 1];
    if n < |line| {
      MiddleOfLine(b, n);
      assert b[n..][|line| - n..] == b[|line|..];
    } else {
      assert line[..n] == line;
    }
  }

  // ---- Messages -----------------------------------------------------------------------------

  datatype Decoded = NotText | Blank | NotJson | Parsed(message: Json)

  datatype ToolOutcome = ToolResult(value: Json) | PolicyError | Crashed

  /** Library code and the engine behind the tools: UTF-8 and JSON decoding, the size limits,
      and what the n-th call of a tool returns. */
  datatype Library = Library(
    decode: seq<byte> -> Decoded,
    strict: Json -> bool,
    call: (nat, string, map<string, Json>) -> ToolOutcome)

  datatype Lifecycle = New | InitializeResponded | Ready

  datatype Server = Server(state: Lifecycle, calls: nat)

  datatype Response = ResultFor(id: Json, value: Json) | ErrorFor(id: Json, code: int)

  predicate ValidId(id: Json) {
    match id
    case Null => true
    case Str(text) => |text| <= MAX_ID_CHARS
    case Int(n) => -MAX_INTEGER - 1 <= n <= MAX_INTEGER
    case Float(_) => Finite(id) && -9007199254740992.0 <= NumberOf(id) <= 9007199254740992.0
    case _ => false
  }

  function Member(m: map<string, Json>, name: string, default: Json): Json {
    if name in m then m[name] else default
  }

  /** `_require_args`. */
  predicate ArgumentsOk(m: map<string, Json>, allowed: set<string>, required: set<string>) {
    m.Keys <= allowed && required <= m.Keys
  }

  const REQUEST_FIELDS: set<string> := {"action", "parameters", "context", "idempotency_key"}

  /** Allowed and required arguments of each tool. */
  function ToolArguments(name: string): Option<(set<string>, set<string>)> {
    if name == "list_actions" then Some(({}, {}))
    else if name == "explain_action" then Some(({"action"}, {"action"}))
    else if name == "request_action" then Some((REQUEST_FIELDS + {"minimum_control"}, REQUEST_FIELDS))
    else if name == "get_request" || name == "cancel_request" then Some(({"request_id"}, {"request_id"}))
    else None
  }

  predicate InitializeParamsOk(lib: Library, params: Json) {
    && params.Obj?
    && ArgumentsOk(params.members, {"protocolVersion", "capabilities", "clientInfo", "_meta"}, {"protocolVersion"})
    && params.members["protocolVersion"].Str?
    && (forall name | name in {"capabilities", "clientInfo", "_meta"} && name in params.members ::
           params.members[name].Obj?)
    && lib.strict(params)
  }

  const SUPPORTED: set<string> := {"2024-11-05", "2025-03-26", "2025-06-18"}

  function Protocol(requested: string): string {
    if requested in SUPPORTED then requested else "2025-03-26"
  }

  /** The result objects; only the negotiated version matters here. */
  function InitializeResult(requested: string): Json { Obj(map["protocolVersion" := Str(Protocol(requested))]) }

  const TOOL_LIST: Json :=
    Obj(map["tools" := Arr([Str("list_actions"), Str("explain_action"), Str("request_action"), Str("get_request"),
                            Str("cancel_request")])])

  function ToolCall(lib: Library, s: Server, id: Json, params: Json): (Server, Response) {
    if !params.Obj? || !ArgumentsOk(params.members, {"name", "arguments"}, {"name", "arguments"}) then
      (s, ErrorFor(id, -32602))
    else
      var name, arguments := params.members["name"], params.members["arguments"];
      if !arguments.Obj? || !name.Str? || ToolArguments(name.text).None?
         || !ArgumentsOk(arguments.members, ToolArguments(name.text).value.0, ToolArguments(name.text).value.1)
      then (s, ErrorFor(id, -32602))
      else
        var s' := s.(calls := s.calls + 1);
        match lib.call(s.calls, name.text, arguments.members)
        case ToolResult(value) => (s', ResultFor(id, value))
        case PolicyError => (s', ErrorFor(id, -32602))
        case Crashed => (s', ErrorFor(id, -32603))
  }

  predicate EmptyObject(params: Json) { params == Obj(map[]) }

  /** A request: it has an id. */
  function Dispatch(lib: Library, s: Server, id: Json, rpc: string, params: Json): (Server, Response) {
    if rpc == "initialize" then
      if s.state != New then (s, ErrorFor(id, -32600))
      else if !InitializeParamsOk(lib, params) then (s, ErrorFor(id, -32602))
      else (s.(state := InitializeResponded), ResultFor(id, InitializeResult(params.members["protocolVersion"].text)))
    else if rpc == "ping" then
      (s, if EmptyObject(params) then ResultFor(id, Obj(map[])) else ErrorFor(id, -32602))
    else if rpc == "tools/list" then
      (s, if s.state != Ready then ErrorFor(id, -32002)
          else if EmptyObject(params) then ResultFor(id, TOOL_LIST)
          else ErrorFor(id, -32602))
    else if rpc == "tools/call" then
      if s.state != Ready then (s, ErrorFor(id, -32002)) else ToolCall(lib, s, id, params)
    else (s, ErrorFor(id, -32601))
  }

  /** `process_message` with the lifecycle enforced. */
  function Process(lib: Library, s: Server, message: Json): (Server, Option<Response>) {
    if !message.Obj? || !lib.strict(message) then (s, Some(ErrorFor(Null, -32600)))
    else
      var m := message.members;
      var id := Member(m, "id", Null);
      if Member(m, "jsonrpc", Null) != Str("2.0") then (s, Some(ErrorFor(if ValidId(id) then id else Null, -32600)))
      else if !ValidId(id) then (s, Some(ErrorFor(Null, -32600)))
      else if !Member(m, "method", Null).Str? then (s, if "id" in m then Some(ErrorFor(id, -32600)) else None)
      else if "id" !in m then
        (if m["method"].text == "notifications/initialized" && s.state == InitializeResponded
         then s.(state := Ready) else s, None)
      else
        var (s', response) := Dispatch(lib, s, id, m["method"].text, Member(m, "params", Obj(map[])));
        (s', Some(response))
  }

  /** A result that is not strict JSON is replaced by an internal error. */
  function Encodable(r: Response): Response {
    if r.ResultFor? && !Finite(r.value) then ErrorFor(r.id, -32603) else r
  }

  function HandleLine(lib: Library, s: Server, line: seq<byte>): (Server, seq<Response>) {
    match lib.decode(line)
    case Blank => (s, [])
    case Parsed(message) =>
      var (s', response) := Process(lib, s, message);
      (s', if response.Some? then [Encodable(response.value)] else [])
    case _ => (s, [ErrorFor(Null, -32700)])
  }

  /** An over-long line is one parse error. */
  function ServeLine(lib: Library, s: Server, line: seq<byte>): (Server, seq<Response>) {
    if |line| > MAX_LINE then (s, [ErrorFor(Null, -32700)]) else HandleLine(lib, s, line)
  }

  /** The reference: the lines of the plainly split stream answered one by one. */
  function Replies(lib: Library, s: Server, lines: seq<seq<byte>>): seq<Response>
    decreases |lines|
  {
    if lines == [] then []
    else
      var (s', out) := ServeLine(lib, s, lines[0]);
      out + Replies(lib, s', lines[1..])
  }

  // ---- Lifecycle over a session ----------------------------------------------------------------

  predicate WellFormed(lib: Library, message: Json) {
    message.Obj? && lib.strict(message) && Member(message.members, "jsonrpc", Null) == Str("2.0")
  }

  predicate Notification(lib: Library, message: Json) {
    WellFormed(lib, message) && "id" !in message.members
  }

  /** The id an answer must carry: the message's own where that is a valid one. */
  function AnswerId(lib: Library, message: Json): Json {
    if message.Obj? && lib.strict(message) && ValidId(Member(message.members, "id", Null))
    then Member(message.members, "id", Null) else Null
  }

  predicate Is(message: Json, rpc: string) {
    message.Obj? && Member(message.members, "method", Null) == Str(rpc)
  }

  /** The server before message `k` of a session. */
  function ServerAt(lib: Library, messages: seq<Json>, k: nat): Server
    requires k <= |messages|
  {
    if k == 0 then Server(New, 0) else Process(lib, ServerAt(lib, messages, k - 1), messages[k - 1]).0
  }

  function AnswerAt(lib: Library, messages: seq<Json>, k: nat): Option<Response>
    requires k < |messages|
  {
    Process(lib, ServerAt(lib, messages, k), messages[k]).1
  }

  /** Message `i` is an initialize request and was answered with a result. */
  predicate Initializes(lib: Library, messages: seq<Json>, i: nat)
    requires i < |messages|
  {
    var answer := AnswerAt(lib, messages, i);
    Is(messages[i], "initialize") && answer.Some? && answer.value.ResultFor?
  }

  predicate ToolResultAt(lib: Library, messages: seq<Json>, k: nat)
    requires k < |messages|
  {
    var answer := AnswerAt(lib, messages, k);
    (Is(messages[k], "tools/list") || Is(messages[k], "tools/call")) && answer.Some? && answer.value.ResultFor?
  }

  predicate Confirms(lib: Library, message: Json) {
    Notification(lib, message) && Is(message, "notifications/initialized")
  }

  /** Before message `k` the handshake has been completed. */
  ghost predicate HandshakeDone(lib: Library, messages: seq<Json>, k: nat)
    requires k <= |messages|
  {
    exists i, j | 0 <= i < j < k :: Initializes(lib, messages, i) && Confirms(lib, messages[j])
  }

  /** What one message does to the lifecycle. */
  lemma MessageMoves(lib: Library, s: Server, message: Json)
    ensures var (s', answer) := Process(lib, s, message);
            && (answer.None? <==> Notification(lib, message))
            && (answer.Some? ==> answer.value.id == AnswerId(lib, message))
            && (s'.state != s.state <==>
                  || (Is(message, "initialize") && answer.Some? && answer.value.ResultFor?)
                  || (s.state == InitializeResponded && Confirms(lib, message)))
            && (Is(message, "initialize") && answer.Some? && answer.value.ResultFor? ==>
                   s.state == New && s'.state == InitializeResponded)
            && (s.state == InitializeResponded && Confirms(lib, message) ==> s'.state == Ready)
            && (s.state != Ready ==> s'.calls == s.calls)
  {
  }

  /** The server is ready exactly when some initialize request was answered and, later, the
      initialized notification came; and initialize is answered at most once. */
  lemma {:induction false} ReadyIffHandshakeDone(lib: Library, messages: seq<Json>, k: nat)
    requires k <= |messages|
    ensures ServerAt(lib, messages, k).state == New <==> forall i | 0 <= i < k :: !Initializes(lib, messages, i)
    ensures ServerAt(lib, messages, k).state == Ready <==> HandshakeDone(lib, messages, k)
    ensures forall i, j | 0 <= i < j < k :: !(Initializes(lib, messages, i) && Initializes(lib, messages, j))
    ensures ServerAt(lib, messages, k).calls > 0 ==> HandshakeDone(lib, messages, k)
  {
    hide Process, Confirms;
    if k > 0 {
      ReadyIffHandshakeDone(lib, messages, k - 1);
      var s := ServerAt(lib, messages, k - 1);
      MessageMoves(lib, s, messages[k - 1]);
      assert ServerAt(lib, messages, k).state == New <==> s.state == New && !Initializes(lib, messages, k - 1);
      if s.state != New {
        var i :| 0 <= i < k - 1 && Initializes(lib, messages, i);
      }
      if HandshakeDone(lib, messages, k - 1) {
        var i, j :| 0 <= i < j < k - 1 && Initializes(lib, messages, i) && Confirms(lib, messages[j]);
        assert HandshakeDone(lib, messages, k);
      }
      if s.state == InitializeResponded && Confirms(lib, messages[k - 1]) {
        var i :| 0 <= i < k - 1 && Initializes(lib, messages, i);
        assert HandshakeDone(lib, messages, k);
      }
      if HandshakeDone(lib, messages, k) {
        var i, j :| 0 <= i < j < k && Initializes(lib, messages, i) && Confirms(lib, messages[j]);
        if j < k - 1 { assert HandshakeDone(lib, messages, k - 1); }
      }
    }
  }

  /** A session answers every message but the notifications, with its own id; and lists or
      calls tools only after the handshake: until then the engine is not reached. */
  lemma SessionAnswers(lib: Library, messages: seq<Json>, k: nat)
    requires k < |messages|
    ensures AnswerAt(lib, messages, k).None? <==> Notification(lib, messages[k])
    ensures AnswerAt(lib, messages, k).Some? ==> AnswerAt(lib, messages, k).value.id == AnswerId(lib, messages[k])
    ensures ToolResultAt(lib, messages, k) ==> HandshakeDone(lib, messages, k)
    ensures ServerAt(lib, messages, k).calls > 0 ==> HandshakeDone(lib, messages, k)
  {
    MessageMoves(lib, ServerAt(lib, messages, k), messages[k]);
    ReadyIffHandshakeDone(lib, messages, k);
  }

  /** A well-formed request for one of the five tools, with that tool's arguments, once ready. */
  predicate CallsTool(lib: Library, s: Server, message: Json) {
    && WellFormed(lib, message) && "id" in message.members && ValidId(message.members["id"])
    && Is(message, "tools/call") && s.state == Ready && "params" in message.members
    && var params := message.members["params"];
       && params.Obj? && params.members.Keys == {"name", "arguments"}
       && params.members["name"].Str? && params.members["arguments"].Obj?
       && var name, given := params.members["name"].text, params.members["arguments"].members.Keys;
          || (name == "list_actions" && given == {})
          || (name == "explain_action" && given == {"action"})
          || (name in {"get_request", "cancel_request"} && given == {"request_id"})
          || (name == "request_action"
              && (given == REQUEST_FIELDS || given == REQUEST_FIELDS + {"minimum_control"}))
  }

  /** The engine is reached by exactly those messages, once each, with the arguments as sent, and
      the caller is told how the call ended. */
  lemma ToolIsCalledIff(lib: Library, s: Server, message: Json)
    ensures var (s', answer) := Process(lib, s, message);
            && s'.calls == s.calls + (if CallsTool(lib, s, message) then 1 else 0)
            && (CallsTool(lib, s, message) ==>
                  && var m := message.members;
                     var outcome := lib.call(s.calls, m["params"].members["name"].text,
                                             m["params"].members["arguments"].members);
                     answer == Some(match outcome
                                    case ToolResult(value) => ResultFor(m["id"], value)
                                    case PolicyError => ErrorFor(m["id"], -32602)
                                    case Crashed => ErrorFor(m["id"], -32603)))
  {
  }

  // ---- The reader ------------------------------------------------------------------------------

  class ByteStream {
    var rest: seq<byte>

    constructor (bytes: seq<byte>)
      ensures rest == bytes
    {
      rest := bytes;
    }

    /** `readline(limit)`. */
    method ReadLine(limit: nat) returns (line: seq<byte>)
      modifies this
      ensures line == if limit < |NextLine(old(rest))| then NextLine(old(rest))[..limit] else NextLine(old(rest))
      ensures |line| <= |old(rest)| && rest == old(rest)[|line|..]
    {
      ghost var start := rest;
      ghost var whole := NextLine(start);
      line := [];
      while rest != [] && |line| < limit && !EndsLine(line)
        invariant |line| <= limit && |line| <= |whole| && line == whole[..|line|]
        invariant rest == start[|line|..]
        invariant EndsLine(line) ==> line == whole
        decreases |rest|
      {
        NextLineEnd(start);
        assert |line| < |whole| by { assert whole[..|whole|] == whole; }
        assert whole == start[..|whole|];
        line := line + [rest[0]];
        rest := rest[1..];
        assert line[|line| - 1] == whole[|line| - 1];
      }
      NextLineEnd(start);
    }
  }

  class SemanticGateMCP {
    const lib: Library
    var server: Server

    constructor (lib: Library)
      ensures this.lib == lib
    {
      this.lib, server := lib, Server(New, 0);
    }

    /** `call_tool` and its errors. */
    method CallTool(id: Json, params: Json) returns (response: Response)
      modifies this
      ensures (server, response) == ToolCall(lib, old(server), id, params)
    {
      if !params.Obj? || params.members.Keys != {"name", "arguments"} {
        return ErrorFor(id, -32602);
      }
      var name, arguments := params.members["name"], params.members["arguments"];
      if !name.Str? || !arguments.Obj? {
        return ErrorFor(id, -32602);
      }
      var given, ok := arguments.members.Keys, false;
      if name.text == "list_actions" {
        ok := given == {};
      } else if name.text == "explain_action" {
        ok := given == {"action"};
      } else if name.text == "request_action" {
        var fields: set<string> := {"action", "parameters", "context", "idempotency_key"};
        ok := given == fields || given == fields + {"minimum_control"};
      } else if name.text == "get_request" || name.text == "cancel_request" {
        ok := given == {"request_id"};
      }
      if !ok {
        return ErrorFor(id, -32602);
      }
      var outcome := lib.call(server.calls, name.text, arguments.members);
      server := Server(server.state, server.calls + 1);
      match outcome
      case ToolResult(value) => response := ResultFor(id, value);
      case PolicyError => response := ErrorFor(id, -32602);
      case Crashed => response := ErrorFor(id, -32603);
    }

    method Initialize(id: Json, params: Json) returns (response: Response)
      modifies this
      ensures (server, response) == Dispatch(lib, old(server), id, "initialize", params)
    {
      if server.state != New {
        return ErrorFor(id, -32600);
      }
      if !params.Obj? || "protocolVersion" !in params.members
         || !(params.members.Keys <= {"protocolVersion", "capabilities", "clientInfo", "_meta"})
         || !params.members["protocolVersion"].Str?
         || ("capabilities" in params.members && !params.members["capabilities"].Obj?)
         || ("clientInfo" in params.members && !params.members["clientInfo"].Obj?)
         || ("_meta" in params.members && !params.members["_meta"].Obj?)
         || !lib.strict(params) {
        return ErrorFor(id, -32602);
      }
      var requested := params.members["protocolVersion"].text;
      var version :=
        if requested == "2024-11-05" || requested == "2025-03-26" || requested == "2025-06-18" then requested
        else "2025-03-26";
      server := Server(InitializeResponded, server.calls);
      response := ResultFor(id, Obj(map["protocolVersion" := Str(version)]));
    }

    /** The part of `process_message` that answers a request. */
    method AnswerRequest(id: Json, rpc: string, params: Json) returns (response: Response)
      modifies this
      ensures (server, response) == Dispatch(lib, old(server), id, rpc, params)
    {
      hide ToolCall;
      if rpc == "initialize" {
        response := Initialize(id, params);
      } else if rpc == "ping" {
        response := if params == Obj(map[]) then ResultFor(id, params) else ErrorFor(id, -32602);
      } else if rpc == "tools/list" {
        if server.state != Ready {
          return ErrorFor(id, -32002);
        }
        response := if params == Obj(map[]) then ResultFor(id, TOOL_LIST) else ErrorFor(id, -32602);
      } else if rpc == "tools/call" {
        if server.state != Ready {
          return ErrorFor(id, -32002);
        }
        response := CallTool(id, params);
      } else {
        response := ErrorFor(id, -32601);
      }
    }

    method CheckId(id: Json) returns (valid: bool)
      ensures valid == ValidId(id)
    {
      match id
      case Null => valid := true;
      case Str(text) => valid := |text| <= 256;
      case Int(n) => valid := -9223372036854775808 <= n <= 9223372036854775807;
      case Float(x) => valid := Finite(id) && -9007199254740992.0 <= NumberOf(id) <= 9007199254740992.0;
      case _ => valid := false;
    }

    /** `process_message`; only a notification gets no answer. */
    method ProcessMessage(message: Json) returns (response: Option<Response>)
      modifies this
      ensures (server, response) == Process(lib, old(server), message)
    {
      hide Dispatch, ValidId;
      if !message.Obj? || !lib.strict(message) {
        return Some(ErrorFor(Null, -32600));
      }
      var m := message.members;
      var id := if "id" in m then m["id"] else Null;
      var valid := CheckId(id);
      if "jsonrpc" !in m || m["jsonrpc"] != Str("2.0") {
        return Some(ErrorFor(if valid then id else Null, -32600));
      }
      if !valid {
        return Some(ErrorFor(Null, -32600));
      }
      if "method" !in m || !m["method"].Str? {
        return if "id" in m then Some(ErrorFor(id, -32600)) else None;
      }
      if "id" !in m {
        if m["method"].text == "notifications/initialized" && server.state == InitializeResponded {
          server := Server(Ready, server.calls);
        }
        return None;
      }
      var params := if "params" in m then m["params"] else Obj(map[]);
      var answer := AnswerRequest(id, m["method"].text, params);
      response := Some(answer);
    }

    /** Answers one line; blank lines and notifications get no answer. */
    method Answer(line: seq<byte>) returns (out: seq<Response>)
      modifies this
      ensures (server, out) == HandleLine(lib, old(server), line)
    {
      hide Process;
      out := [];
      match lib.decode(line)
      case Blank =>
      case Parsed(message) =>
        var response := ProcessMessage(message);
        if response.Some? {
          var id := response.value.id;
          var strict := response.value.ErrorFor? || Finite(response.value.value);
          out := [if strict then response.value else ErrorFor(id, -32603)];
        }
      case _ => out := [ErrorFor(Null, -32700)];
    }

    /** Reads the rest of a line of which `chunk` was the beginning. */
    method SkipLine(incoming: ByteStream, chunk: seq<byte>)
      requires chunk != []
      modifies incoming
      ensures EndsLine(chunk) ==> incoming.rest == old(incoming.rest)
      ensures !EndsLine(chunk) ==> incoming.rest == old(incoming.rest)[|NextLine(old(incoming.rest))|..]
    {
      ghost var after := incoming.rest[|NextLine(incoming.rest)|..];
      var raw := chunk;
      while raw != [] && !EndsLine(raw)
        invariant EndsLine(chunk) ==> raw == chunk && incoming.rest == old(incoming.rest)
        invariant !EndsLine(chunk) && (raw == [] || EndsLine(raw)) ==> incoming.rest == after
        invariant raw != [] && !EndsLine(raw) ==> incoming.rest[|NextLine(incoming.rest)|..] == after
        decreases |incoming.rest|, |raw|
      {
        ghost var before := incoming.rest;
        raw := incoming.ReadLine(MAX_LINE + 1);
        if raw != [] {
          RestOfLine(before, |raw|);
        }
      }
    }

    /** One line, read in chunks; `more` is false at the end of the stream. */
    method ReadAndAnswer(incoming: ByteStream) returns (more: bool, answer: seq<Response>)
      modifies this, incoming
      ensures more == (old(incoming.rest) != [])
      ensures !more ==> incoming.rest == old(incoming.rest) && answer == [] && server == old(server)
      ensures more ==> incoming.rest == old(incoming.rest)[|NextLine(old(incoming.rest))|..]
      ensures more ==> (server, answer) == ServeLine(lib, old(server), NextLine(old(incoming.rest)))
    {
      hide HandleLine, Process;
      ghost var start := incoming.rest;
      var raw := incoming.ReadLine(MAX_LINE + 1);
      if raw == [] {
        return false, [];
      }
      more := true;
      if |raw| > MAX_LINE {
        RestOfLine(start, |raw|);
        SkipLine(incoming, raw);
        answer := [ErrorFor(Null, -32700)];
      } else {
        answer := Answer(raw);
      }
    }

    /** For every byte stream the chunked, bounded loop answers as the plainly split stream is
        answered: an over-long line costs one parse error and reading resumes after its newline. */
    method ServeBinary(incoming: ByteStream) returns (out: seq<Response>)
      modifies this, incoming
      ensures out == Replies(lib, Server(New, 0), Lines(old(incoming.rest)))
    {
      hide ServeLine;
      server := Server(New, 0);
      out := [];
      while true
        invariant Replies(lib, Server(New, 0), Lines(old(incoming.rest)))
                  == out + Replies(lib, server, Lines(incoming.rest))
        decreases |incoming.rest|
      {
        var more, answer := ReadAndAnswer(incoming);
        if !more {
          break;
        }
        out := out + answer;
      }
    }
  }
}
