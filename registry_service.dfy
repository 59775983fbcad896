/** The registry service of lib/elgame/service/registry.rb: a Basic service speaking
    `Registry/1.1` whose own commands OHAI, BAI, WHO-DOES and ALL-THE-THINGS run on the directory
    it keeps in three fields. */
module RegistryService {
  import opened Outcomes
  import opened Text
  import opened Frames
  import opened Basic
  import D = Directory

  const OWN_COMMANDS: seq<string> := ["OHAI", "BAI", "WHO-DOES", "ALL-THE-THINGS"]

  /** The Registry class as the Basic skeleton sees it. */
  const REGISTRY := Skeleton(Some(D.REGISTRY_PROTOCOL), OWN_COMMANDS)

  /** The outcome of one request and the directory after it. */
  datatype Answer = Answer(outcome: Outcome<Message>, state: D.DirState)

  /** The registry's own commands, called by Basic's dispatch with the frames after the command.
      They are contracted methods, so a wrong number of arguments raises an ArgumentError (the
      Contracts library's ContractError for surplus ones), which `handle` turns into a WTF reply.
      An empty service or provider gets `error` with no context. */
  function RunCommand(st: D.DirState, command: string, args: seq<string>, token: string): Answer {
    if command == "ohai" then
      if |args| != 2 then Answer(Returned(Error(REGISTRY, ArityMessage(|args|, 2, 2, true))), st)
      else if args[0] == "" || args[1] == "" then Answer(Returned(Error(REGISTRY, "")), st)
      else
        var step := D.Ohai(st, args[0], args[1], token);
        Answer(Returned(step.reply), step.state)
    else if command == "bai" then
      if |args| != 1 then Answer(Returned(Error(REGISTRY, ArityMessage(|args|, 1, 1, true))), st)
      else
        var step := D.Bai(st, args[0]);
        Answer(Returned(step.reply), step.state)
    else if command == "who_does" then
      if |args| != 1 then Answer(Returned(Error(REGISTRY, ArityMessage(|args|, 1, 1, true))), st)
      else Answer(Returned(D.WhoDoes(st, args[0])), st)
    else if command == "all_the_things" then
      if |args| != 0 then Answer(Returned(Error(REGISTRY, ArityMessage(|args|, 0, 0, true))), st)
      else Answer(Returned(D.AllTheThings(st)), st)
    else Answer(Raised(NO_METHOD_ERROR), st)
  }

  /** `handle(request)` on a registry in state `st`; `token` is the UUID a registration would get. */
  function Serve(st: D.DirState, request: Message, token: string): Answer {
    match Handle(REGISTRY, request)
    case Replied(m) => Answer(Returned(m), st)
    case Crashed(e) => Answer(Raised(e), st)
    case Dispatched(command, args) => RunCommand(st, command, args, token)
  }

  class Registry {
    var services: seq<string>
    var providers: map<string, seq<string>>
    var tokens: map<string, D.Entry>

    function State(): D.DirState
      reads this
    {
      D.DirState(services, providers, tokens)
    }

    predicate Valid()
      reads this
    {
      D.Valid(State())
    }

    constructor ()
      ensures State() == D.EMPTY && Valid()
    {
      services := [];
      providers := map[];
      tokens := map[];
    }

    function ProvidersOf(service: string): (r: seq<string>)
      reads this
      ensures r == D.ProvidersOf(State(), service)
    {
      if service in providers then providers[service] else []
    }

    /** `ohai(service, provider)` with `token` as the UUID it draws. */
    method Ohai(service: string, provider: string, token: string) returns (reply: Message)
      requires Valid()
      modifies this
      ensures Valid()
      ensures service == "" || provider == "" ==> reply == Error(REGISTRY, "") && State() == old(State())
      ensures service != "" && provider != "" ==> D.Step(State(), reply) == D.Ohai(old(State()), service, provider, token)
    {
      if service == "" || provider == "" {
        return Error(REGISTRY, "");
      }
      var s := Upper(service);
      var ps := ProvidersOf(s);
      if provider in ps {
        return Tagged(REGISTRY, ["WELCOME-BACK"]);
      }
      providers := providers[s := D.SetAdd(ps, provider)];
      services := D.SetAdd(services, s);
      tokens := tokens[token := D.Entry(s, provider)];
      reply := Tagged(REGISTRY, ["WELCOME", token]);
      D.OhaiPreservesValid(old(State()), service, provider, token);
    }

    method Bai(token: string) returns (reply: Message)
      requires Valid()
      modifies this
      ensures Valid()
      ensures D.Step(State(), reply) == D.Bai(old(State()), token)
    {
      if token !in tokens {
        return Tagged(REGISTRY, ["GTFO"]);
      }
      var e := tokens[token];
      var ps := D.Remove(ProvidersOf(e.service), e.provider);
      providers := providers[e.service := ps];
      if ps == [] {
        services := D.Remove(services, e.service);
      }
      reply := Tagged(REGISTRY, ["GTFO"]);
      D.BaiPreservesValid(old(State()), token);
    }

    method WhoDoes(service: string) returns (reply: Message)
      ensures reply == D.WhoDoes(State(), service)
    {
      reply := Tagged(REGISTRY, ["PROVIDERS"] + ProvidersOf(Upper(service)));
    }

    method AllTheThings() returns (reply: Message)
      ensures reply == D.AllTheThings(State())
    {
      reply := Tagged(REGISTRY, ["SERVICES"] + services);
    }

    /** `handle(request)`: Basic's validation and builtins, then the registry's own commands. */
    method Handle(request: Msg, token: string) returns (outcome: Outcome<Message>)
      requires Valid()
      modifies this, request
      ensures Valid()
      ensures Answer(outcome, State()) == Serve(old(State()), old(request.frames), token)
      ensures |old(request.frames)| < 2 ==> request.frames == old(request.frames)
      ensures |old(request.frames)| >= 2 && !Speaks(REGISTRY, old(request.frames)[0]) ==> request.frames == old(request.frames)[1..]
      ensures |old(request.frames)| >= 2 && Speaks(REGISTRY, old(request.frames)[0]) ==> request.frames == old(request.frames)[2..]
    {
      ServePreservesValid(State(), request.frames, token);
      var h := HandleRequest(REGISTRY, request);
      match h
      case Replied(m) => outcome := Returned(m);
      case Crashed(e) => outcome := Raised(e);
      case Dispatched(command, args) =>
        if command == "ohai" && |args| == 2 {
          var m := Ohai(args[0], args[1], token);
          outcome := Returned(m);
        } else if command == "bai" && |args| == 1 {
          var m := Bai(args[0]);
          outcome := Returned(m);
        } else if command == "who_does" && |args| == 1 {
          var m := WhoDoes(args[0]);
          outcome := Returned(m);
        } else if command == "all_the_things" && |args| == 0 {
          var m := AllTheThings();
          outcome := Returned(m);
        } else {
          outcome := RunCommand(State(), command, args, token).outcome;
        }
    }
  }

  // ---------------------------------------------------------------- properties

  /** Every request keeps the directory invariant. */
  lemma ServePreservesValid(st: D.DirState, request: Message, token: string)
    requires D.Valid(st)
    ensures D.Valid(Serve(st, request, token).state)
  {
    var h := Handle(REGISTRY, request);
    if h.Dispatched? && h.command == "ohai" && |h.args| == 2 {
      D.OhaiPreservesValid(st, h.args[0], h.args[1], token);
    }
    if h.Dispatched? && h.command == "bai" && |h.args| == 1 {
      D.BaiPreservesValid(st, h.args[0]);
    }
  }

  /** The four registry commands, hyphenated on the wire, are the handler names the table adds. */
  lemma RegistryHandlerNames()
    ensures HandlerNames(REGISTRY) == ["send_hugz", "protocols", "commands", "describe",
                                       "ohai", "bai", "who_does", "all_the_things"]
  {
    BuiltinHandlerNames();
    assert Normalize("OHAI") == "ohai";
    assert Normalize("BAI") == "bai";
    assert Normalize("WHO-DOES") == "who_does";
    assert Normalize("ALL-THE-THINGS") == "all_the_things";
    assert HandlerNames(REGISTRY) == MapNormalize(BUILTIN_COMMANDS) + MapNormalize(OWN_COMMANDS);
  }

  /** A request under the registry tag whose command names one of the registry's own
      commands, in any case and with hyphens or underscores, reaches that command. */
  lemma ServeRoutes(st: D.DirState, request: Message, token: string)
    requires |request| >= 2 && CaseEq(request[0], D.REGISTRY_PROTOCOL)
    requires Normalize(request[1]) in ["ohai", "bai", "who_does", "all_the_things"]
    ensures Serve(st, request, token) == RunCommand(st, Normalize(request[1]), request[2..], token)
  {
    var command := Normalize(request[1]);
    SpeaksIff(REGISTRY, request[0]);
    NormalizeIdempotent(request[1]);
    RegistryHandlerNames();
    HandlesIff(REGISTRY, command);
    HandleAccepts(REGISTRY, request);
  }

  /** Only an accepted OHAI or BAI can change the directory. */
  lemma OnlyOhaiAndBaiWrite(st: D.DirState, request: Message, token: string)
    requires Serve(st, request, token).state != st
    ensures Accepted(REGISTRY, request) && Normalize(request[1]) in ["ohai", "bai"]
  {
    if !Accepted(REGISTRY, request) {
      HandleRejects(REGISTRY, request);
    } else {
      HandleAccepts(REGISTRY, request);
      DispatchCrashesOnlyOnDescribe(REGISTRY, Normalize(request[1]), request[2..]);
    }
  }

  /** An OHAI with an empty service or provider gets `[Registry/1.1, WTF, ""]` and changes nothing. */
  lemma EmptyOhaiRejected(st: D.DirState, tag: string, command: string, service: string, provider: string, token: string)
    requires CaseEq(tag, D.REGISTRY_PROTOCOL) && Normalize(command) == "ohai"
    requires service == "" || provider == ""
    ensures Serve(st, [tag, command, service, provider], token) == Answer(Returned([D.REGISTRY_PROTOCOL, "WTF", ""]), st)
  {
    ServeRoutes(st, [tag, command, service, provider], token);
    PreferredProtocolIsLast(REGISTRY);
  }

  /** A command with the wrong number of arguments is answered with a WTF reply naming the
      arity problem, and the directory is unchanged. */
  lemma WrongArityRejected(st: D.DirState, request: Message, token: string)
    requires |request| >= 2 && CaseEq(request[0], D.REGISTRY_PROTOCOL)
    requires var c := Normalize(request[1]);
      (c == "ohai" && |request| != 4) || (c == "bai" && |request| != 3)
      || (c == "who_does" && |request| != 3) || (c == "all_the_things" && |request| != 2)
    ensures Serve(st, request, token).state == st
    ensures Serve(st, request, token).outcome.Returned?
    ensures Serve(st, request, token).outcome.value[..2] == [D.REGISTRY_PROTOCOL, "WTF"]
  {
    ServeRoutes(st, request, token);
    PreferredProtocolIsLast(REGISTRY);
  }
}
