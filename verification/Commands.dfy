/** src/zmq_relay.cpp:301-317: `ProcessCommand`, over a foreign parser and foreign handlers. */
module Commands {
  import opened Json
  import RelayMachine
  import RelayCommands

  datatype ParseResult = Parsed(document: Value) | ParseError(what: string)

  datatype HandlerResult = Answered(reply: string) | Raised(what: string)

  /** `typeError` is the text of the exception for a document without a textual member `command`. */
  datatype Library = Library(
    parse: string -> ParseResult,
    typeError: Value -> string,
    handlers: map<string, (nat, Value) -> HandlerResult>)

  function ErrorReply(what: string): string {
    "{\"error\": \"" + what + "\"}"
  }

  const UNKNOWN_COMMAND: string := "{\"error\": \"Unknown command\"}"

  /** The reply at the given time: every exception becomes an error reply. */
  function ProcessCommand(lib: Library, time: nat, text: string): string {
    match lib.parse(text)
    case ParseError(what) => ErrorReply(what)
    case Parsed(document) =>
      var name := At(document, Command);
      if name.None? || !name.value.JString? then ErrorReply(lib.typeError(document))
      else if name.value.text !in lib.handlers then UNKNOWN_COMMAND
      else
        var params := At(document, Params);
        match lib.handlers[name.value.text](time, if params.None? then JObject(map[]) else params.value)
        case Answered(reply) => reply
        case Raised(what) => ErrorReply(what)
  }

  /** A registered handler gets the parameters, or an empty object, and its answer is the reply as it is. */
  lemma HandlerAnswers(lib: Library, time: nat, text: string, document: Value, name: string)
    requires lib.parse(text) == Parsed(document) && document.JObject? && name in lib.handlers
    requires Command in document.members && document.members[Command] == JString(name)
    ensures var params := if Params in document.members then document.members[Params] else JObject(map[]);
      match lib.handlers[name](time, params)
      case Answered(reply) => ProcessCommand(lib, time, text) == reply
      case Raised(what) => ProcessCommand(lib, time, text) == "{\"error\": \"" + what + "\"}"
  {
  }

  /** A name that no handler is registered for gets a fixed reply. */
  lemma UnknownCommand(lib: Library, time: nat, text: string, document: Value, name: string)
    requires lib.parse(text) == Parsed(document) && document.JObject? && name !in lib.handlers
    requires Command in document.members && document.members[Command] == JString(name)
    ensures ProcessCommand(lib, time, text) == "{\"error\": \"Unknown command\"}"
  {
  }

  /** A text that does not parse, or has no textual `command`, gets the text of the exception. */
  lemma MalformedCommand(lib: Library, time: nat, text: string)
    ensures lib.parse(text).ParseError? ==>
      ProcessCommand(lib, time, text) == "{\"error\": \"" + lib.parse(text).what + "\"}"
    ensures lib.parse(text).Parsed? ==>
      var document := lib.parse(text).document;
      !(document.JObject? && Command in document.members && document.members[Command].JString?) ==>
        ProcessCommand(lib, time, text) == "{\"error\": \"" + lib.typeError(document) + "\"}"
  {
  }

  /**
    The k-th reply of a relay that processes its commands like this: what the registered handler answered
    to the k-th request, or the error it gives rise to.
   */
  lemma RepliesAreProcessedRequests(lib: Library, c: RelayMachine.Config, s: RelayMachine.State, k: nat)
    requires RelayMachine.Reachable(c, s) && k < |s.command.replies|
    requires forall time, text :: c.respond(time, text) == ProcessCommand(lib, time, text)
    ensures k < |s.command.requests| && k < |s.command.ticks|
    ensures var text, time, reply := s.command.requests[k], s.command.ticks[k], s.command.replies[k];
      match lib.parse(text)
      case ParseError(what) => reply == "{\"error\": \"" + what + "\"}"
      case Parsed(document) =>
        if !(document.JObject? && Command in document.members && document.members[Command].JString?) then
          reply == "{\"error\": \"" + lib.typeError(document) + "\"}"
        else if document.members[Command].text !in lib.handlers then
          reply == "{\"error\": \"Unknown command\"}"
        else
          var params := if Params in document.members then document.members[Params] else JObject(map[]);
          match lib.handlers[document.members[Command].text](time, params)
          case Answered(r) => reply == r
          case Raised(what) => reply == "{\"error\": \"" + what + "\"}"
  {
    RelayCommands.CommandsInLockStep(c, s);
    var text, time := s.command.requests[k], s.command.ticks[k];
    assert s.command.replies[k] == ProcessCommand(lib, time, text);
    MalformedCommand(lib, time, text);
  }
}
