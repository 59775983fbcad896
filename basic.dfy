/** The generic service skeleton of lib/elgame/service/basic.rb: protocol negotiation,
    the command table, the introspection replies and the dispatch of one request. */
module Basic {
  import opened Outcomes
  import opened Text
  import opened Frames

  const SERVICE_PROTOCOL := "Service/1.0"

  /** The command names every Basic service answers, as `commands` lists them after its header. */
  const BUILTIN_COMMANDS: seq<string> := ["SEND-HUGZ", "PROTOCOLS", "COMMANDS", "DESCRIBE"]

  /** A service class built on Basic, as far as the skeleton sees it: its PROTOCOL constant,
      when the class defines one, and the command names its `commands` override appends. */
  datatype Skeleton = Skeleton(protocol: Option<string>, ownCommands: seq<string>)

  /** Basic itself: no PROTOCOL constant, no commands of its own. */
  const BASIC := Skeleton(None, [])

  /** What `handle` does with one request: the reply it returns, the exception it lets
      escape, or the subclass command it calls with the remaining frames. */
  datatype Handled =
    | Replied(msg: Message)
    | Crashed(error: string)
    | Dispatched(command: string, args: seq<string>)

  function ServiceMessage(): Message {
    [SERVICE_PROTOCOL]
  }

  function SendHugz(): Message {
    ServiceMessage() + ["HUGZ"]
  }

  function Protocols(sk: Skeleton): Message {
    ServiceMessage() + ["PROTOCOLS", SERVICE_PROTOCOL] + OptionToSeq(sk.protocol)
  }

  function Commands(sk: Skeleton): Message {
    ServiceMessage() + ["COMMANDS"] + BUILTIN_COMMANDS + sk.ownCommands
  }

  /** `services`: each frame of `['SERVICES', *protocols.to_a.drop(2)]` cut at its first slash,
      after the baseline tag. A tag made only of slashes yields nil, which the message's `<<`
      refuses with an ArgumentError. */
  function Services(sk: Skeleton): Outcome<Message> {
    var cut := CutAll(["SERVICES"] + Protocols(sk)[2..]);
    if cut.Some? then Returned(ServiceMessage() + cut.value) else Raised(ARGUMENT_ERROR)
  }

  /** `map { |service| service.split('/').first }`, or None when one of the names gives nil. */
  function CutAll(names: seq<string>): Option<seq<string>> {
    if forall i :: 0 <= i < |names| ==> BeforeSlash(names[i]).Some? then
      Some(seq(|names|, i requires 0 <= i < |names| => BeforeSlash(names[i]).value))
    else None
  }

  /** `preferred_protocol`: the last entry of `protocols`. */
  function PreferredProtocol(sk: Skeleton): string {
    var p := Protocols(sk);
    p[|p| - 1]
  }

  /** `message(*frames)`: the preferred protocol tag, then the frames. */
  function Tagged(sk: Skeleton, frames: seq<string>): Message {
    [PreferredProtocol(sk)] + frames
  }

  /** `error(context)`. */
  function Error(sk: Skeleton, context: string): (r: Message)
    ensures r == [PreferredProtocol(sk), "WTF", context]
  {
    Tagged(sk, ["WTF", context])
  }

  /** `speaks?`: the tag equals, ignoring case, an entry of `protocols` after its two header frames. */
  predicate Speaks(sk: Skeleton, tag: string) {
    AnyCaseEq(tag, Protocols(sk)[2..])
  }

  /** `handles?`: the name equals, ignoring case, an entry of `commands` after its two header
      frames with hyphens turned into underscores. */
  predicate Handles(sk: Skeleton, command: string) {
    exists i :: 2 <= i < |Commands(sk)| && CaseEq(command, Tr(Commands(sk)[i]))
  }

  /** `provides?`: the name equals, ignoring case, one of the service names Basic's own
      `services` lists. The registry service overrides `services` with the set of registered
      services (the `services` field of Directory.DirState), which this function does not read. */
  function Provides(sk: Skeleton, service: string): Outcome<bool> {
    match Services(sk)
    case Raised(e) => Raised(e)
    case Returned(m) => Returned(AnyCaseEq(service, m[2..]))
  }

  /** The method names the table resolves to: `commands` entries normalised. */
  function HandlerNames(sk: Skeleton): seq<string> {
    MapNormalize(Commands(sk)[2..])
  }

  function MapNormalize(xs: seq<string>): seq<string> {
    seq(|xs|, i requires 0 <= i < |xs| => Normalize(xs[i]))
  }

  /** The builtin handlers and their arities; Dispatched for a subclass command. An
      ArgumentError (wrong number of arguments) is rescued into a WTF reply. The builtin
      `describe` reaches a misspelt `paraameters` call (or, for a name with no method, a failed
      method lookup), a NameError that nothing rescues. */
  function Dispatch(sk: Skeleton, command: string, args: seq<string>): Handled {
    if command == "send_hugz" then
      if |args| == 0 then Replied(SendHugz()) else Replied(Error(sk, ArityMessage(|args|, 0, 0, true)))
    else if command == "protocols" then
      if |args| == 0 then Replied(Protocols(sk)) else Replied(Error(sk, ArityMessage(|args|, 0, 0, true)))
    else if command == "commands" then
      if |args| == 0 then Replied(Commands(sk)) else Replied(Error(sk, ArityMessage(|args|, 0, 0, true)))
    else if command == "describe" then
      if |args| == 1 then Crashed(NAME_ERROR) else Replied(Error(sk, ArityMessage(|args|, 1, 1, true)))
    else Dispatched(command, args)
  }

  /** `handle`: at least two frames, a spoken protocol tag, a handled command, then dispatch. */
  function Handle(sk: Skeleton, request: Message): Handled {
    if |request| < 2 then Replied(Error(sk, "I expected more than that..."))
    else if !Speaks(sk, request[0]) then Replied(Error(sk, "I do not speak " + request[0]))
    else
      var command := Normalize(request[1]);
      if !Handles(sk, command) then Replied(Error(sk, "I do not handle " + command))
      else Dispatch(sk, command, request[2..])
  }

  /** The validation `handle` performs before dispatching. */
  predicate Accepted(sk: Skeleton, request: Message) {
    |request| >= 2 && Speaks(sk, request[0]) && Handles(sk, Normalize(request[1]))
  }

  /** `handle` on a request in hand: pops the protocol tag and the command off the request,
      then dispatches with what is left. */
  method HandleRequest(sk: Skeleton, request: Msg) returns (h: Handled)
    modifies request
    ensures h == Handle(sk, old(request.frames))
    ensures |old(request.frames)| < 2 ==> request.frames == old(request.frames)
    ensures |old(request.frames)| >= 2 && !Speaks(sk, old(request.frames)[0]) ==> request.frames == old(request.frames)[1..]
    ensures |old(request.frames)| >= 2 && Speaks(sk, old(request.frames)[0]) ==> request.frames == old(request.frames)[2..]
  {
    if |request.frames| < 2 {
      return Replied(Error(sk, "I expected more than that..."));
    }
    ghost var frames := request.frames;
    var protocol := request.Pop();
    if !Speaks(sk, protocol.value) {
      return Replied(Error(sk, "I do not speak " + protocol.value));
    }
    var tag := request.Pop();
    var command := Normalize(tag.value);
    if !Handles(sk, command) {
      return Replied(Error(sk, "I do not handle " + command));
    }
    assert request.frames == frames[2..];
    h := Dispatch(sk, command, request.frames);
  }

  // ---------------------------------------------------------------- properties

  /** The reply tag of every error is the last protocol `protocols` lists: the class PROTOCOL
      when there is one, else the baseline. */
  lemma PreferredProtocolIsLast(sk: Skeleton)
    ensures PreferredProtocol(sk) == if sk.protocol.Some? then sk.protocol.value else SERVICE_PROTOCOL
  {
  }

  /** The tag is accepted iff it is the baseline `Service/1.0` or the class PROTOCOL, ignoring case. */
  lemma SpeaksIff(sk: Skeleton, tag: string)
    ensures Speaks(sk, tag) <==> CaseEq(tag, SERVICE_PROTOCOL) || (sk.protocol.Some? && CaseEq(tag, sk.protocol.value))
  {
    var tags := Protocols(sk)[2..];
    assert tags == [SERVICE_PROTOCOL] + OptionToSeq(sk.protocol);
    if sk.protocol.Some? && CaseEq(tag, sk.protocol.value) {
      assert CaseEq(tag, tags[1]);
    }
    if CaseEq(tag, SERVICE_PROTOCOL) {
      assert CaseEq(tag, tags[0]);
    }
  }

  /** A normalised command name is handled iff it is one of the normalised table entries. */
  lemma HandlesIff(sk: Skeleton, command: string)
    requires Normalize(command) == command
    ensures Handles(sk, command) <==> command in HandlerNames(sk)
  {
    var cs := Commands(sk);
    var names := HandlerNames(sk);
    NormalizeIdempotent(command);
    assert Lower(command) == command;
    if Handles(sk, command) {
      var i :| 2 <= i < |cs| && CaseEq(command, Tr(cs[i]));
      LowerOfTr(cs[i]);
      assert names[i - 2] == command;
    }
    if command in names {
      var k :| 0 <= k < |names| && names[k] == command;
      LowerOfTr(cs[k + 2]);
      NormalizeIdempotent(cs[k + 2]);
      assert CaseEq(command, Tr(cs[k + 2]));
    }
  }

  /** A request that fails validation gets a `WTF` reply under the preferred tag and is not
      dispatched; fewer than two frames always gives the reply "I expected more than that...". */
  lemma HandleRejects(sk: Skeleton, request: Message)
    requires !Accepted(sk, request)
    ensures Handle(sk, request).Replied?
    ensures Handle(sk, request).msg[..2] == [PreferredProtocol(sk), "WTF"]
    ensures |request| < 2 ==> Handle(sk, request) == Replied(Error(sk, "I expected more than that..."))
  {
  }

  /** An accepted request is dispatched on its normalised command with the frames after it. */
  lemma HandleAccepts(sk: Skeleton, request: Message)
    requires Accepted(sk, request)
    ensures Handle(sk, request) == Dispatch(sk, Normalize(request[1]), request[2..])
  {
  }

  /** Argument errors never escape dispatch: the only exception is the one `describe` raises. */
  lemma DispatchCrashesOnlyOnDescribe(sk: Skeleton, command: string, args: seq<string>)
    ensures Dispatch(sk, command, args).Crashed? <==> command == "describe" && |args| == 1
    ensures Dispatch(sk, command, args).Dispatched? <==> command !in MapNormalize(BUILTIN_COMMANDS)
  {
    BuiltinHandlerNames();
  }

  /** The method names the builtin table entries resolve to. */
  lemma BuiltinHandlerNames()
    ensures MapNormalize(BUILTIN_COMMANDS) == ["send_hugz", "protocols", "commands", "describe"]
  {
    assert Normalize("SEND-HUGZ") == "send_hugz";
    assert Normalize("PROTOCOLS") == "protocols";
    assert Normalize("COMMANDS") == "commands";
    assert Normalize("DESCRIBE") == "describe";
  }

  /** Basic on its own never hands a request to a subclass: every command it accepts is builtin. */
  lemma BasicNeverDelegates(request: Message)
    ensures !Handle(BASIC, request).Dispatched?
  {
    if Accepted(BASIC, request) {
      var command := Normalize(request[1]);
      NormalizeIdempotent(request[1]);
      HandlesIff(BASIC, command);
      assert HandlerNames(BASIC) == MapNormalize(BUILTIN_COMMANDS);
      DispatchCrashesOnlyOnDescribe(BASIC, command, request[2..]);
    }
  }

  /** `services` names, in order, the part before the slash of every spoken protocol. */
  lemma ServicesNamesProtocols(sk: Skeleton)
    requires sk.protocol.Some? ==> BeforeSlash(sk.protocol.value).Some?
    ensures sk.protocol.None? ==> Services(sk) == Returned([SERVICE_PROTOCOL, "SERVICES", "Service"])
    ensures sk.protocol.Some? ==>
      Services(sk) == Returned([SERVICE_PROTOCOL, "SERVICES", "Service", BeforeSlash(sk.protocol.value).value])
  {
    BeforeSlashWithoutSlash("SERVICES");
    BaselineServiceName();
    var names := ["SERVICES"] + Protocols(sk)[2..];
    var cut := CutAll(names);
    if sk.protocol.Some? {
      assert names == ["SERVICES", SERVICE_PROTOCOL, sk.protocol.value];
      assert cut.Some?;
      var want := ["SERVICES", "Service", BeforeSlash(sk.protocol.value).value];
      assert cut.value == want by {
        assert cut.value[0] == want[0] && cut.value[1] == want[1] && cut.value[2] == want[2];
      }
      var m := ServiceMessage() + cut.value;
      assert m == [SERVICE_PROTOCOL, "SERVICES", "Service", BeforeSlash(sk.protocol.value).value];
      assert Services(sk) == Returned(m);
    } else {
      assert names == ["SERVICES", SERVICE_PROTOCOL];
      assert cut.Some?;
      assert cut.value == ["SERVICES", "Service"] by {
        assert cut.value[0] == "SERVICES" && cut.value[1] == "Service";
      }
      var m := ServiceMessage() + cut.value;
      assert m == [SERVICE_PROTOCOL, "SERVICES", "Service"];
      assert Services(sk) == Returned(m);
    }
  }

  /** The baseline tag names the service `Service`. */
  lemma BaselineServiceName()
    ensures BeforeSlash(SERVICE_PROTOCOL) == Some("Service")
  {
    BeforeSlashAt(SERVICE_PROTOCOL, 7);
    assert SERVICE_PROTOCOL[..7] == "Service";
  }

  /** `provides?` accepts exactly the service names `services` lists, ignoring case. */
  lemma ProvidesIff(sk: Skeleton, service: string)
    requires sk.protocol.Some? ==> BeforeSlash(sk.protocol.value).Some?
    ensures Provides(sk, service).Returned?
    ensures Provides(sk, service).value <==>
      CaseEq(service, "Service") || (sk.protocol.Some? && CaseEq(service, BeforeSlash(sk.protocol.value).value))
  {
    ServicesNamesProtocols(sk);
    var m := Services(sk).value;
    if CaseEq(service, "Service") {
      assert CaseEq(service, m[2..][0]);
    }
    if sk.protocol.Some? && CaseEq(service, BeforeSlash(sk.protocol.value).value) {
      assert CaseEq(service, m[2..][1]);
    }
  }
}
