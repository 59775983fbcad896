/** The client-side proxy of lib/elgame/service/provider.rb: it asks a service for its
    protocols, commands and command descriptions under the baseline tag `Service/1.0`, checks its
    health with SEND-HUGZ, and forwards any other method call as a request once the service's
    command list names it. The socket is left out: each method is given the message it
    receives and returns the messages it sends. */
module Provider {
  import opened Outcomes
  import opened Text
  import opened Frames
  import Basic
  import LegacyService

  const SERVICE_PROTOCOL := "Service/1.0"

  const PROTOCOLS_REQUEST: Message := [SERVICE_PROTOCOL, "PROTOCOLS"]
  const COMMANDS_REQUEST: Message := [SERVICE_PROTOCOL, "COMMANDS"]
  const HUGZ_REQUEST: Message := [SERVICE_PROTOCOL, "SEND-HUGZ"]

  /** `Command = Struct.new :arity, :parameters`. */
  datatype Command = Command(arity: Option<string>, parameters: seq<string>)

  /** The requests a memoised call sent, its result, and the memo after it. */
  datatype FetchStep = FetchStep(sent: seq<Message>, result: Outcome<seq<string>>, memo: Option<seq<string>>)

  datatype DescribeStep = DescribeStep(sent: seq<Message>, result: Outcome<Command>, descriptions: map<string, Command>)

  datatype CallStep = CallStep(sent: seq<Message>, result: Outcome<Option<Message>>, commands: Option<seq<string>>)

  // ---------------------------------------------------------------- reading replies

  /** `protocols!` and `commands!` on the reply: the frames after the baseline tag and the
      expected header, or the empty list when either differs. Calling `casecmp` on the nil
      that a missing frame pops raises NoMethodError. */
  function ListReply(header: string, received: Message): Outcome<seq<string>> {
    if received == [] then Raised(NO_METHOD_ERROR)
    else if !CaseEq(received[0], SERVICE_PROTOCOL) then Returned([])
    else if |received| < 2 then Raised(NO_METHOD_ERROR)
    else if !CaseEq(received[1], header) then Returned([])
    else Returned(received[2..])
  }

  /** `describe!` on the reply: the frame after DESCRIPTION is the arity (nil when missing), the
      rest are the parameter names. On any other tag or header it returns nil, which breaks its
      `=> Command` contract and raises a ContractError, an ArgumentError. */
  function Description(received: Message): Outcome<Command> {
    if received == [] then Raised(NO_METHOD_ERROR)
    else if !CaseEq(received[0], SERVICE_PROTOCOL) then Raised(ARGUMENT_ERROR)
    else if |received| < 2 then Raised(NO_METHOD_ERROR)
    else if !CaseEq(received[1], "DESCRIPTION") then Raised(ARGUMENT_ERROR)
    else if |received| == 2 then Returned(Command(None, []))
    else Returned(Command(Some(received[2]), received[3..]))
  }

  /** `healthy?` on the reply: nil under another tag, otherwise whether the next frame is HUGZ. */
  function Health(received: Message): Outcome<Option<bool>> {
    if received == [] then Raised(NO_METHOD_ERROR)
    else if !CaseEq(received[0], SERVICE_PROTOCOL) then Returned(None)
    else if |received| < 2 then Raised(NO_METHOD_ERROR)
    else Returned(Some(CaseEq(received[1], "HUGZ")))
  }

  /** `available?`: `socket.writable? && healthy?`. Its `=> Bool` contract refuses the nil
      `healthy?` gives under another tag. */
  function Availability(writable: bool, received: Message): Outcome<bool> {
    if !writable then Returned(false)
    else match Health(received)
      case Raised(e) => Raised(e)
      case Returned(h) => if h.None? then Raised(ARGUMENT_ERROR) else Returned(h.value)
  }

  // ---------------------------------------------------------------- memoised lookups

  /** `@memo ||= fetch!`: an existing value (the empty list included) is returned without a
      request; a fetch that raises leaves the memo unset. */
  function Fetched(memo: Option<seq<string>>, request: Message, header: string, received: Message): FetchStep {
    if memo.Some? then FetchStep([], Returned(memo.value), memo)
    else
      var r := ListReply(header, received);
      FetchStep([request], r, if r.Returned? then Some(r.value) else None)
  }

  /** `describe(command)`: `descriptions[command.capitalize] ||= describe! command`. */
  function Described(descriptions: map<string, Command>, command: string, received: Message): DescribeStep {
    var key := Capitalize(command);
    if key in descriptions then DescribeStep([], Returned(descriptions[key]), descriptions)
    else
      var d := Description(received);
      DescribeStep([[SERVICE_PROTOCOL, "DESCRIBE", command]], d,
                   if d.Returned? then descriptions[key := d.value] else descriptions)
  }

  // ---------------------------------------------------------------- forwarded calls

  /** `respond_to_missing?`: the commands list names the method, ignoring case. */
  predicate RespondsTo(commands: seq<string>, symbol: string) {
    AnyCaseEq(symbol, commands)
  }

  /** The lookup the command names call for, hyphens read as underscores as the services' own
      dispatch reads them (see Findings). */
  predicate RespondsToTranslated(commands: seq<string>, symbol: string) {
    AnyCaseEq(symbol, MapTr(commands))
  }

  function DefaultProtocol(symbol: string): string {
    symbol + "/1.0"
  }

  /** `method_missing` on the reply: the frames after the tag when the tag is the call's
      protocol, nil otherwise. */
  function CallReply(protocol: string, received: Message): Outcome<Option<Message>> {
    if received == [] then Raised(NO_METHOD_ERROR)
    else if CaseEq(received[0], protocol) then Returned(Some(received[1..]))
    else Returned(None)
  }

  /** `method_missing(symbol, *args, protocol:)`. The lookup first fetches `commands` (unless
      memoised), answering with `commandsReceived`; a method the list does not name goes to
      `super`, which raises NoMethodError. The call itself is answered with `received`.
      `translated` chooses the corrected lookup of the Findings; the code as written does not
      translate. */
  function Call(commands: Option<seq<string>>, symbol: string, args: seq<string>, protocol: Option<string>,
                translated: bool, commandsReceived: Message, received: Message): CallStep {
    var f := Fetched(commands, COMMANDS_REQUEST, "COMMANDS", commandsReceived);
    if f.result.Raised? then CallStep(f.sent, Raised(f.result.error), f.memo)
    else if !(if translated then RespondsToTranslated(f.result.value, symbol) else RespondsTo(f.result.value, symbol)) then
      CallStep(f.sent, Raised(NO_METHOD_ERROR), f.memo)
    else
      var p := if protocol.Some? then protocol.value else DefaultProtocol(symbol);
      CallStep(f.sent + [[p, symbol] + args], CallReply(p, received), f.memo)
  }

  class Provider {
    var protocols: Option<seq<string>>
    var commands: Option<seq<string>>
    var descriptions: map<string, Command>

    constructor ()
      ensures protocols == None && commands == None && descriptions == map[]
    {
      protocols := None;
      commands := None;
      descriptions := map[];
    }

    /** `protocols`. */
    method Protocols(received: Message) returns (sent: seq<Message>, result: Outcome<seq<string>>)
      modifies this
      ensures FetchStep(sent, result, protocols) == Fetched(old(protocols), PROTOCOLS_REQUEST, "PROTOCOLS", received)
      ensures commands == old(commands) && descriptions == old(descriptions)
    {
      if protocols.Some? {
        return [], Returned(protocols.value);
      }
      sent := [PROTOCOLS_REQUEST];
      result := ReadList("PROTOCOLS", received);
      if result.Returned? {
        protocols := Some(result.value);
      }
    }

    /** `commands`. */
    method Commands(received: Message) returns (sent: seq<Message>, result: Outcome<seq<string>>)
      modifies this
      ensures FetchStep(sent, result, commands) == Fetched(old(commands), COMMANDS_REQUEST, "COMMANDS", received)
      ensures protocols == old(protocols) && descriptions == old(descriptions)
    {
      if commands.Some? {
        return [], Returned(commands.value);
      }
      sent := [COMMANDS_REQUEST];
      result := ReadList("COMMANDS", received);
      if result.Returned? {
        commands := Some(result.value);
      }
    }

    /** The pops of `protocols!` and `commands!`. */
    method ReadList(header: string, received: Message) returns (result: Outcome<seq<string>>)
      ensures result == ListReply(header, received)
    {
      var response := new Msg(received);
      var tag := response.Pop();
      if tag.None? {
        return Raised(NO_METHOD_ERROR);
      }
      if !CaseEq(tag.value, SERVICE_PROTOCOL) {
        return Returned([]);
      }
      var head := response.Pop();
      if head.None? {
        return Raised(NO_METHOD_ERROR);
      }
      if !CaseEq(head.value, header) {
        return Returned([]);
      }
      assert response.frames == received[2..];
      result := Returned(response.frames);
    }

    /** `describe(command)`. */
    method Describe(command: string, received: Message) returns (sent: seq<Message>, result: Outcome<Command>)
      modifies this
      ensures DescribeStep(sent, result, descriptions) == Described(old(descriptions), command, received)
      ensures protocols == old(protocols) && commands == old(commands)
    {
      var key := Capitalize(command);
      if key in descriptions {
        return [], Returned(descriptions[key]);
      }
      sent := [[SERVICE_PROTOCOL, "DESCRIBE", command]];
      result := Description(received);
      if result.Returned? {
        descriptions := descriptions[key := result.value];
      }
    }

    /** `healthy?`. */
    method Healthy(received: Message) returns (sent: seq<Message>, result: Outcome<Option<bool>>)
      ensures sent == [HUGZ_REQUEST] && result == Health(received)
    {
      sent := [HUGZ_REQUEST];
      var response := new Msg(received);
      var tag := response.Pop();
      if tag.None? {
        return sent, Raised(NO_METHOD_ERROR);
      }
      if !CaseEq(tag.value, SERVICE_PROTOCOL) {
        return sent, Returned(None);
      }
      var hugz := response.Pop();
      if hugz.None? {
        return sent, Raised(NO_METHOD_ERROR);
      }
      result := Returned(Some(CaseEq(hugz.value, "HUGZ")));
    }

    /** `available?`; `writable` is what the socket answers. */
    method Available(writable: bool, received: Message) returns (sent: seq<Message>, result: Outcome<bool>)
      ensures sent == (if writable then [HUGZ_REQUEST] else [])
      ensures result == Availability(writable, received)
    {
      if !writable {
        return [], Returned(false);
      }
      var healthy;
      sent, healthy := Healthy(received);
      if healthy.Raised? {
        return sent, Raised(healthy.error);
      }
      if healthy.value.None? {
        return sent, Raised(ARGUMENT_ERROR);
      }
      result := Returned(healthy.value.value);
    }

    /** `method_missing(symbol, *args, protocol:)`. */
    method MethodMissing(symbol: string, args: seq<string>, protocol: Option<string>, translated: bool,
                         commandsReceived: Message, received: Message)
      returns (sent: seq<Message>, result: Outcome<Option<Message>>)
      modifies this
      ensures CallStep(sent, result, commands) == Call(old(commands), symbol, args, protocol, translated, commandsReceived, received)
      ensures protocols == old(protocols) && descriptions == old(descriptions)
    {
      var list;
      sent, list := Commands(commandsReceived);
      if list.Raised? {
        return sent, Raised(list.error);
      }
      var known := if translated then RespondsToTranslated(list.value, symbol) else RespondsTo(list.value, symbol);
      if !known {
        return sent, Raised(NO_METHOD_ERROR);
      }
      var p := if protocol.Some? then protocol.value else DefaultProtocol(symbol);
      sent := sent + [[p, symbol] + args];
      result := CallReply(p, received);
    }
  }

  // ---------------------------------------------------------------- properties

  /** A list is returned exactly when both the tag and the header match, and then it is every
      frame after them. */
  lemma ListReplyIff(header: string, received: Message, xs: seq<string>)
    requires xs != []
    ensures ListReply(header, received) == Returned(xs) <==>
      |received| >= 2 && CaseEq(received[0], SERVICE_PROTOCOL) && CaseEq(received[1], header) && received[2..] == xs
  {
  }

  /** A memoised lookup is fetched at most once: after a fetch that returned, the next one sends
      nothing and returns the same list, whatever it would have received. */
  lemma FetchedOnce(memo: Option<seq<string>>, request: Message, header: string, r1: Message, r2: Message)
    requires Fetched(memo, request, header, r1).result.Returned?
    ensures var first := Fetched(memo, request, header, r1);
      Fetched(first.memo, request, header, r2) == FetchStep([], first.result, first.memo)
  {
  }

  /** Descriptions are cached under the capitalised name, so asking again under any spelling
      with the same capitalisation sends nothing. */
  lemma DescribedOnce(descriptions: map<string, Command>, c1: string, c2: string, r1: Message, r2: Message)
    requires Capitalize(c1) == Capitalize(c2)
    requires Described(descriptions, c1, r1).result.Returned?
    ensures var first := Described(descriptions, c1, r1);
      Described(first.descriptions, c2, r2) == DescribeStep([], first.result, first.descriptions)
  {
  }

  /** A forwarded call yields a reply exactly when the method is listed and the reply comes back
      under the call's protocol; the reply is then the frames after the tag. */
  lemma CallRepliesIff(commands: Option<seq<string>>, symbol: string, args: seq<string>, protocol: Option<string>,
                       translated: bool, commandsReceived: Message, received: Message, m: Message)
    ensures var f := Fetched(commands, COMMANDS_REQUEST, "COMMANDS", commandsReceived);
      var p := if protocol.Some? then protocol.value else DefaultProtocol(symbol);
      Call(commands, symbol, args, protocol, translated, commandsReceived, received).result == Returned(Some(m)) <==>
        && f.result.Returned?
        && (if translated then RespondsToTranslated(f.result.value, symbol) else RespondsTo(f.result.value, symbol))
        && received != [] && CaseEq(received[0], p) && m == received[1..]
  {
  }

  /** Without the hyphen translation a hyphenated command can never be forwarded under the
      underscored name a Ruby method has; with it, it can. */
  lemma HyphenatedNamesNeedTranslation(commands: seq<string>, c: string)
    requires c in commands && '-' in c
    ensures !RespondsTo([c], Tr(Lower(c)))
    ensures RespondsToTranslated(commands, Tr(Lower(c)))
  {
    var k :| 0 <= k < |c| && c[k] == '-';
    assert Lower(Tr(Lower(c)))[k] == '_' && Lower(c)[k] == '-';
    var i :| 0 <= i < |commands| && commands[i] == c;
    assert MapTr(commands)[i] == Tr(c);
    LowerOfTr(c);
  }

  // ---------------------------------------------------------------- against Basic services

  /** `protocols!` reads back what a Basic service's `protocols` sends: the baseline and the
      class's PROTOCOL. */
  lemma ProtocolsRoundTrip(sk: Basic.Skeleton)
    ensures ListReply("PROTOCOLS", Basic.Protocols(sk)) == Returned([SERVICE_PROTOCOL] + OptionToSeq(sk.protocol))
  {
    var m := Basic.Protocols(sk);
    assert m[2..] == [SERVICE_PROTOCOL] + OptionToSeq(sk.protocol);
  }

  /** `commands!` reads back the builtin names and the class's own commands. */
  lemma CommandsRoundTrip(sk: Basic.Skeleton)
    ensures ListReply("COMMANDS", Basic.Commands(sk)) == Returned(Basic.BUILTIN_COMMANDS + sk.ownCommands)
  {
    var m := Basic.Commands(sk);
    assert m[2..] == Basic.BUILTIN_COMMANDS + sk.ownCommands;
  }

  /** `healthy?` is true on a Basic service's SEND-HUGZ reply. */
  lemma HealthyOnHugz()
    ensures Health(Basic.SendHugz()) == Returned(Some(true))
  {
  }

  /** `protocols!` reads the older Service class's reply too: the baseline and `speaks`. */
  lemma LegacyProtocolsRoundTrip(sv: LegacyService.Service)
    ensures ListReply("PROTOCOLS", LegacyService.Protocols(sv)) == Returned([SERVICE_PROTOCOL] + OptionToSeq(sv.speaks))
  {
    var m := LegacyService.Protocols(sv);
    assert m[2..] == [SERVICE_PROTOCOL] + OptionToSeq(sv.speaks);
  }
}
