/** The standalone registry of lib/elgame/service/registry/server.rb. It keeps the same directory
    as the Basic-based registry, but its `handle` is its own. A wrong protocol tag gets an
    "Unsupported Protocol" reply, and the request is then carried out anyway. The command frame is
    turned into a method name, `send` calls it with the remaining frames, and nothing is rescued.
    The REP socket takes one reply per request: after a mismatch, handing the dispatch's reply to
    `reply` raises a SystemCallError, which ends `listen` once the directory has changed. */
module RegistryServer {
  import opened Outcomes
  import opened Text
  import opened Frames
  import D = Directory
  import RS = RegistryService

  /** What one `handle` does: the replies the socket delivers, in order, the exception that ends
      it (if any) and the directory after it. */
  datatype Exchange = Exchange(sent: seq<Message>, raised: Option<string>, state: D.DirState)

  /** `error(description)`: it takes exactly one argument. */
  function Error(description: string): Message {
    D.Reply(["WTF", description])
  }

  /** `session` carries on from the replies already sent. */
  function Done(sent: seq<Message>, reply: Message, st: D.DirState): Exchange {
    Exchange(sent + [reply], None, st)
  }

  function Fail(sent: seq<Message>, error: string, st: D.DirState): Exchange {
    Exchange(sent, Some(error), st)
  }

  /** Private helpers that `send` also reaches and that return something other than a message,
      so that `reply`'s contract raises a ContractError (an ArgumentError) on their result, if a
      wrong number of arguments has not raised one already. */
  const VALUE_HELPERS: seq<string> := ["protocol", "address", "services", "providers", "tokens"]

  /** `send(name, *args)` for the methods the protocol reaches: the four commands, and the
      private `error` and `message`, which `send` reaches too. A wrong number of arguments
      raises an ArgumentError; `ohai` with an empty argument calls `error` with none, which
      raises one as well. Any other name is taken to have no method. */
  function Send(st: D.DirState, sent: seq<Message>, name: string, args: seq<string>, token: string): Exchange {
    if name == "ohai" then
      if |args| != 2 || args[0] == "" || args[1] == "" then Fail(sent, ARGUMENT_ERROR, st)
      else
        var step := D.Ohai(st, args[0], args[1], token);
        Done(sent, step.reply, step.state)
    else if name == "bai" then
      if |args| != 1 then Fail(sent, ARGUMENT_ERROR, st)
      else
        var step := D.Bai(st, args[0]);
        Done(sent, step.reply, step.state)
    else if name == "who_does" then
      if |args| != 1 then Fail(sent, ARGUMENT_ERROR, st) else Done(sent, D.WhoDoes(st, args[0]), st)
    else if name == "all_the_things" then
      if |args| != 0 then Fail(sent, ARGUMENT_ERROR, st) else Done(sent, D.AllTheThings(st), st)
    else if name == "error" then
      if |args| != 1 then Fail(sent, ARGUMENT_ERROR, st) else Done(sent, Error(args[0]), st)
    else if name == "message" then
      if |args| != 0 then Fail(sent, ARGUMENT_ERROR, st) else Done(sent, D.Reply([]), st)
    else if name in VALUE_HELPERS then Fail(sent, ARGUMENT_ERROR, st)
    // `reply` and `handle` declare a message argument, so their contracts refuse strings.
    else if name == "reply" || name == "handle" then Fail(sent, ARGUMENT_ERROR, st)
    else Fail(sent, NO_METHOD_ERROR, st)
  }

  /** `handle(request)`. A missing tag or command frame is nil, and calling `casecmp` or
      `downcase` on nil raises NoMethodError. After an "Unsupported Protocol" reply the REP
      socket refuses a second send before the next receive, so a dispatch that returns a
      message ends in a SystemCallError from `reply`, with the directory already changed. */
  function Serve(st: D.DirState, request: Message, token: string): Exchange {
    if request == [] then Fail([], NO_METHOD_ERROR, st)
    else
      var mismatch := !CaseEq(request[0], D.REGISTRY_PROTOCOL);
      var sent := if mismatch then [Error("Unsupported Protocol")] else [];
      if |request| < 2 then Fail(sent, NO_METHOD_ERROR, st)
      else
        var x := Send(st, sent, Normalize(request[1]), request[2..], token);
        if mismatch && x.raised.None? then Fail(sent, SYSTEM_CALL_ERROR, x.state) else x
  }

  class Server {
    var services: seq<string>
    var providers: map<string, seq<string>>
    var tokens: map<string, D.Entry>

    function State(): D.DirState
      reads this
    {
      D.DirState(services, providers, tokens)
    }

    predicate Valid()
      reads this
    {
      D.Valid(State())
    }

    constructor ()
      ensures State() == D.EMPTY && Valid()
    {
      services := [];
      providers := map[];
      tokens := map[];
    }

    function ProvidersOf(service: string): (r: seq<string>)
      reads this
      ensures r == D.ProvidersOf(State(), service)
    {
      if service in providers then providers[service] else []
    }

    /** `ohai(service, provider)`, drawing `token` as its UUID. */
    method Ohai(service: string, provider: string, token: string) returns (reply: Outcome<Message>)
      requires Valid()
      modifies this
      ensures Valid()
      ensures service == "" || provider == "" ==> reply == Raised(ARGUMENT_ERROR) && State() == old(State())
      ensures service != "" && provider != "" ==>
        reply.Returned? && D.Step(State(), reply.value) == D.Ohai(old(State()), service, provider, token)
    {
      if service == "" || provider == "" {
        return Raised(ARGUMENT_ERROR);
      }
      var s := Upper(service);
      var ps := ProvidersOf(s);
      if provider in ps {
        return Returned(D.Reply(["WELCOME-BACK"]));
      }
      providers := providers[s := D.SetAdd(ps, provider)];
      services := D.SetAdd(services, s);
      tokens := tokens[token := D.Entry(s, provider)];
      reply := Returned(D.Reply(["WELCOME", token]));
      D.OhaiPreservesValid(old(State()), service, provider, token);
    }

    method Bai(token: string) returns (reply: Message)
      requires Valid()
      modifies this
      ensures Valid()
      ensures D.Step(State(), reply) == D.Bai(old(State()), token)
    {
      if token !in tokens {
        return D.Reply(["GTFO"]);
      }
      var e := tokens[token];
      var ps := D.Remove(ProvidersOf(e.service), e.provider);
      providers := providers[e.service := ps];
      if ps == [] {
        services := D.Remove(services, e.service);
      }
      reply := D.Reply(["GTFO"]);
      D.BaiPreservesValid(old(State()), token);
    }

    method WhoDoes(service: string) returns (reply: Message)
      ensures reply == D.WhoDoes(State(), service)
    {
      reply := D.Reply(["PROVIDERS"] + ProvidersOf(Upper(service)));
    }

    method AllTheThings() returns (reply: Message)
      ensures reply == D.AllTheThings(State())
    {
      reply := D.Reply(["SERVICES"] + services);
    }

    /** `handle(request)`: pops the tag, pops the command and puts its method name back in front,
        then sends the request's frames as a method call. */
    method Handle(request: Msg, token: string) returns (sent: seq<Message>, raised: Option<string>)
      requires Valid()
      modifies this, request
      ensures Valid()
      ensures Exchange(sent, raised, State()) == Serve(old(State()), old(request.frames), token)
      ensures |old(request.frames)| < 2 ==> request.frames == []
      ensures |old(request.frames)| >= 2 ==> request.frames == [Normalize(old(request.frames)[1])] + old(request.frames)[2..]
    {
      ghost var frames := request.frames;
      ServePreservesValid(State(), request.frames, token);
      sent := [];
      var tag := request.Pop();
      if tag.None? {
        return [], Some(NO_METHOD_ERROR);
      }
      var mismatch := !CaseEq(tag.value, D.REGISTRY_PROTOCOL);
      if mismatch {
        sent := [Error("Unsupported Protocol")];
      }
      var command := request.Pop();
      if command.None? {
        return sent, Some(NO_METHOD_ERROR);
      }
      request.Prepend(Normalize(command.value));
      var name := request.frames[0];
      var args := request.frames[1..];
      assert args == frames[2..];
      raised := None;
      if name == "ohai" && |args| == 2 {
        var r := Ohai(args[0], args[1], token);
        if r.Raised? {
          raised := Some(r.error);
        } else {
          sent := sent + [r.value];
        }
      } else if name == "bai" && |args| == 1 {
        var r := Bai(args[0]);
        sent := sent + [r];
      } else if name == "who_does" && |args| == 1 {
        var r := WhoDoes(args[0]);
        sent := sent + [r];
      } else if name == "all_the_things" && |args| == 0 {
        var r := AllTheThings();
        sent := sent + [r];
      } else {
        var x := Send(State(), sent, name, args, token);
        sent, raised := x.sent, x.raised;
      }
      if mismatch && raised.None? {
        // the socket has already replied once to this request
        sent, raised := [Error("Unsupported Protocol")], Some(SYSTEM_CALL_ERROR);
      }
    }
  }

  // ---------------------------------------------------------------- properties

  /** Every request keeps the directory invariant, whatever it raises. */
  lemma ServePreservesValid(st: D.DirState, request: Message, token: string)
    requires D.Valid(st)
    ensures D.Valid(Serve(st, request, token).state)
  {
    if |request| >= 2 {
      var name := Normalize(request[1]);
      var args := request[2..];
      if name == "ohai" && |args| == 2 {
        D.OhaiPreservesValid(st, args[0], args[1], token);
      }
      if name == "bai" && |args| == 1 {
        D.BaiPreservesValid(st, args[0]);
      }
    }
  }

  /** A wrong tag draws an "Unsupported Protocol" reply, the only one delivered. The request is
      then carried out exactly as it would be under the right tag, changing the directory the
      same way, and the server ends: with the dispatch's own exception, or else with the
      SystemCallError of the second `reply`. */
  lemma MismatchStillDispatches(st: D.DirState, request: Message, token: string)
    requires |request| >= 2 && !CaseEq(request[0], D.REGISTRY_PROTOCOL)
    ensures var right := Serve(st, [D.REGISTRY_PROTOCOL] + request[1..], token);
      Serve(st, request, token) == Exchange([[D.REGISTRY_PROTOCOL, "WTF", "Unsupported Protocol"]],
        if right.raised.None? then Some(SYSTEM_CALL_ERROR) else right.raised, right.state)
  {
    var right := [D.REGISTRY_PROTOCOL] + request[1..];
    assert right[1] == request[1] && right[2..] == request[2..];
    assert CaseEq(right[0], D.REGISTRY_PROTOCOL);
    SendKeepsSent(st, [Error("Unsupported Protocol")], Normalize(request[1]), request[2..], token);
    assert Error("Unsupported Protocol") == [D.REGISTRY_PROTOCOL, "WTF", "Unsupported Protocol"];
  }

  /** What `send` does does not depend on the replies already sent. */
  lemma SendKeepsSent(st: D.DirState, sent: seq<Message>, name: string, args: seq<string>, token: string)
    ensures var x := Send(st, [], name, args, token);
      Send(st, sent, name, args, token) == Exchange(sent + x.sent, x.raised, x.state)
  {
  }

  /** Under the right tag every command that is carried out sends exactly one reply. */
  lemma OneReplyUnderRightTag(st: D.DirState, request: Message, token: string)
    requires |request| >= 1 && CaseEq(request[0], D.REGISTRY_PROTOCOL)
    ensures var x := Serve(st, request, token); |x.sent| <= 1 && (x.raised.None? <==> |x.sent| == 1)
  {
  }

  /** OHAI with an empty service or provider raises ArgumentError and leaves the directory alone. */
  lemma EmptyOhaiRaises(st: D.DirState, tag: string, command: string, service: string, provider: string, token: string)
    requires CaseEq(tag, D.REGISTRY_PROTOCOL) && Normalize(command) == "ohai"
    requires service == "" || provider == ""
    ensures Serve(st, [tag, command, service, provider], token) == Exchange([], Some(ARGUMENT_ERROR), st)
  {
    var request := [tag, command, service, provider];
    assert request[2..] == [service, provider];
  }

  /** `handle` reaches the private `error` through `send`: `[Registry/1.1, ERROR, x]` is answered
      with `[Registry/1.1, WTF, x]`. */
  lemma ErrorIsReachable(st: D.DirState, tag: string, command: string, x: string, token: string)
    requires CaseEq(tag, D.REGISTRY_PROTOCOL) && Normalize(command) == "error"
    ensures Serve(st, [tag, command, x], token) == Exchange([[D.REGISTRY_PROTOCOL, "WTF", x]], None, st)
  {
    var request := [tag, command, x];
    assert request[2..] == [x];
    assert Send(st, [], "error", [x], token) == Done([], Error(x), st);
    assert Error(x) == [D.REGISTRY_PROTOCOL, "WTF", x];
  }

  /** The two registries agree on every well-formed request: under the registry tag, a command
      with the right number of non-empty arguments gets the same single reply and leaves the
      same directory from both. */
  lemma ServersAgree(st: D.DirState, request: Message, token: string)
    requires |request| >= 2 && CaseEq(request[0], D.REGISTRY_PROTOCOL)
    requires var c := Normalize(request[1]);
      (c == "ohai" && |request| == 4 && request[2] != "" && request[3] != "") || (c == "bai" && |request| == 3)
      || (c == "who_does" && |request| == 3) || (c == "all_the_things" && |request| == 2)
    ensures var x := Serve(st, request, token); var a := RS.Serve(st, request, token);
      x.raised.None? && a.outcome.Returned? && x.sent == [a.outcome.value] && x.state == a.state
  {
    RS.ServeRoutes(st, request, token);
  }
}
