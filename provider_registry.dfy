/** The registry proxy of lib/elgame/service/provider/registry.rb: a Provider whose registry
    calls (`ohai`, `bai`, `all_the_things`, `who_does`) are forwarded by `method_missing`, and
    which remembers the token of every service it registered. The Ruby subclass is modelled by
    composition: `base` holds the Provider state it inherits.

    Each operation takes `fixed`. With `fixed` false it is the code as written; with `fixed`
    true the forwarded calls carry the registry's tag `Registry/1.1` and the command lookup
    reads hyphens as underscores, the two corrections the Findings describe. */
module ProviderRegistry {
  import opened Outcomes
  import opened Text
  import opened Frames
  import P = Provider
  import Basic
  import D = Directory
  import RS = RegistryService

  const REGISTRY_PROTOCOL := "Registry/1.1"

  /** The messages an operation sent, its result, the Provider's command memo and the tokens
      after it. */
  datatype TokenStep = TokenStep(sent: seq<Message>, result: Outcome<Option<string>>,
                                 commands: Option<seq<string>>, tokens: map<string, string>)

  datatype ListStep = ListStep(sent: seq<Message>, result: Outcome<seq<string>>, commands: Option<seq<string>>)

  /** The `protocol:` option a forwarded call passes: none as written. */
  function Protocol(fixed: bool): Option<string> {
    if fixed then Some(REGISTRY_PROTOCOL) else None
  }

  /** `register!(service, provider)`: forwards `ohai`, then pops the response; a nil response
      (the reply came back under another tag) raises NoMethodError on `pop`. */
  function Registration(commands: Option<seq<string>>, tokens: map<string, string>, service: string, provider: string,
                        fixed: bool, commandsReceived: Message, received: Message): TokenStep {
    var c := P.Call(commands, "ohai", [service, provider], Protocol(fixed), fixed, commandsReceived, received);
    match c.result
    case Raised(e) => TokenStep(c.sent, Raised(e), c.commands, tokens)
    case Returned(reply) =>
      if reply.None? || reply.value == [] then TokenStep(c.sent, Raised(NO_METHOD_ERROR), c.commands, tokens)
      else if !CaseEq(reply.value[0], "WELCOME") || |reply.value| < 2 then TokenStep(c.sent, Returned(None), c.commands, tokens)
      else TokenStep(c.sent, Returned(Some(reply.value[1])), c.commands, tokens[service := reply.value[1]])
  }

  /** `deregister!(service)`: nothing is sent for a service without a token; a GTFO deletes the
      token and returns it. */
  function Deregistration(commands: Option<seq<string>>, tokens: map<string, string>, service: string,
                          fixed: bool, commandsReceived: Message, received: Message): TokenStep {
    if service !in tokens then TokenStep([], Returned(None), commands, tokens)
    else
      var token := tokens[service];
      var c := P.Call(commands, "bai", [token], Protocol(fixed), fixed, commandsReceived, received);
      match c.result
      case Raised(e) => TokenStep(c.sent, Raised(e), c.commands, tokens)
      case Returned(reply) =>
        if reply.None? || reply.value == [] then TokenStep(c.sent, Raised(NO_METHOD_ERROR), c.commands, tokens)
        else if CaseEq(reply.value[0], "GTFO") then TokenStep(c.sent, Returned(Some(token)), c.commands, tokens - {service})
        else TokenStep(c.sent, Returned(None), c.commands, tokens)
  }

  /** `services` and `providers(service)`: forwards the call, then the frames after the
      expected header, or nothing under another header. */
  function Listed(commands: Option<seq<string>>, symbol: string, args: seq<string>, header: string,
                  fixed: bool, commandsReceived: Message, received: Message): ListStep {
    var c := P.Call(commands, symbol, args, Protocol(fixed), fixed, commandsReceived, received);
    match c.result
    case Raised(e) => ListStep(c.sent, Raised(e), c.commands)
    case Returned(reply) =>
      if reply.None? || reply.value == [] then ListStep(c.sent, Raised(NO_METHOD_ERROR), c.commands)
      else if CaseEq(reply.value[0], header) then ListStep(c.sent, Returned(reply.value[1..]), c.commands)
      else ListStep(c.sent, Returned([]), c.commands)
  }

  class Registry {
    var base: P.Provider
    var tokens: map<string, string>

    constructor ()
      ensures fresh(base) && base.protocols == None && base.commands == None && base.descriptions == map[]
      ensures tokens == map[]
    {
      base := new P.Provider();
      tokens := map[];
    }

    function Registered(): (r: bool)
      reads this
      ensures r <==> exists s :: s in tokens
    {
      if tokens == map[] then false
      else
        var s :| s in tokens;
        true
    }

    method Register(service: string, provider: string, fixed: bool, commandsReceived: Message, received: Message)
      returns (sent: seq<Message>, result: Outcome<Option<string>>)
      modifies this, base
      ensures base == old(base) && base.protocols == old(base.protocols) && base.descriptions == old(base.descriptions)
      ensures TokenStep(sent, result, base.commands, tokens) ==
        Registration(old(base.commands), old(tokens), service, provider, fixed, commandsReceived, received)
    {
      var reply;
      sent, reply := base.MethodMissing("ohai", [service, provider], Protocol(fixed), fixed, commandsReceived, received);
      if reply.Raised? {
        return sent, Raised(reply.error);
      }
      if reply.value.None? {
        return sent, Raised(NO_METHOD_ERROR);
      }
      var response := new Msg(reply.value.value);
      var welcome := response.Pop();
      if welcome.None? {
        return sent, Raised(NO_METHOD_ERROR);
      }
      result := Returned(None);
      if CaseEq(welcome.value, "WELCOME") {
        var token := response.Pop();
        if token.Some? {
          tokens := tokens[service := token.value];
          result := Returned(Some(token.value));
        }
      }
    }

    method Deregister(service: string, fixed: bool, commandsReceived: Message, received: Message)
      returns (sent: seq<Message>, result: Outcome<Option<string>>)
      modifies this, base
      ensures base == old(base) && base.protocols == old(base.protocols) && base.descriptions == old(base.descriptions)
      ensures TokenStep(sent, result, base.commands, tokens) ==
        Deregistration(old(base.commands), old(tokens), service, fixed, commandsReceived, received)
    {
      if service !in tokens {
        return [], Returned(None);
      }
      var token := tokens[service];
      var reply;
      sent, reply := base.MethodMissing("bai", [token], Protocol(fixed), fixed, commandsReceived, received);
      if reply.Raised? {
        return sent, Raised(reply.error);
      }
      if reply.value.None? {
        return sent, Raised(NO_METHOD_ERROR);
      }
      var response := new Msg(reply.value.value);
      var gtfo := response.Pop();
      if gtfo.None? {
        return sent, Raised(NO_METHOD_ERROR);
      }
      result := Returned(None);
      if CaseEq(gtfo.value, "GTFO") {
        tokens := tokens - {service};
        result := Returned(Some(token));
      }
    }

    /** The forwarded call and header test `services` and `providers(service)` share. */
    method List(symbol: string, args: seq<string>, header: string, fixed: bool, commandsReceived: Message, received: Message)
      returns (sent: seq<Message>, result: Outcome<seq<string>>)
      modifies base
      ensures base.protocols == old(base.protocols) && base.descriptions == old(base.descriptions)
      ensures ListStep(sent, result, base.commands) == Listed(old(base.commands), symbol, args, header, fixed, commandsReceived, received)
    {
      var reply;
      sent, reply := base.MethodMissing(symbol, args, Protocol(fixed), fixed, commandsReceived, received);
      if reply.Raised? {
        return sent, Raised(reply.error);
      }
      if reply.value.None? || reply.value.value == [] {
        return sent, Raised(NO_METHOD_ERROR);
      }
      var response := reply.value.value;
      if CaseEq(response[0], header) {
        result := Returned(response[1..]);
      } else {
        result := Returned([]);
      }
    }

    method Services(fixed: bool, commandsReceived: Message, received: Message)
      returns (sent: seq<Message>, result: Outcome<seq<string>>)
      modifies base
      ensures base.protocols == old(base.protocols) && base.descriptions == old(base.descriptions)
      ensures ListStep(sent, result, base.commands) == Listed(old(base.commands), "all_the_things", [], "SERVICES", fixed, commandsReceived, received)
    {
      sent, result := List("all_the_things", [], "SERVICES", fixed, commandsReceived, received);
    }

    method Providers(service: string, fixed: bool, commandsReceived: Message, received: Message)
      returns (sent: seq<Message>, result: Outcome<seq<string>>)
      modifies base
      ensures base.protocols == old(base.protocols) && base.descriptions == old(base.descriptions)
      ensures ListStep(sent, result, base.commands) == Listed(old(base.commands), "who_does", [service], "PROVIDERS", fixed, commandsReceived, received)
    {
      sent, result := List("who_does", [service], "PROVIDERS", fixed, commandsReceived, received);
    }

    /** `provider(service)`: one listed provider, drawn by `choice`, or nil. */
    method Provider(service: string, fixed: bool, commandsReceived: Message, received: Message, choice: nat)
      returns (sent: seq<Message>, result: Outcome<Option<string>>)
      modifies base
      ensures base.protocols == old(base.protocols) && base.descriptions == old(base.descriptions)
      ensures var l := Listed(old(base.commands), "who_does", [service], "PROVIDERS", fixed, commandsReceived, received);
        && sent == l.sent && base.commands == l.commands
        && (l.result.Raised? ==> result == Raised(l.result.error))
        && (l.result.Returned? ==> result.Returned? && (result.value.None? <==> l.result.value == [])
                                   && (result.value.Some? ==> result.value.value in l.result.value))
    {
      var providers;
      sent, providers := Providers(service, fixed, commandsReceived, received);
      if providers.Raised? {
        return sent, Raised(providers.error);
      }
      if providers.value == [] {
        return sent, Returned(None);
      }
      result := Returned(Some(providers.value[choice % |providers.value|]));
    }
  }

  // ---------------------------------------------------------------- against the registry service

  /** What the registry service lists in its `commands` reply. */
  const REGISTRY_COMMANDS: seq<string> :=
    ["SEND-HUGZ", "PROTOCOLS", "COMMANDS", "DESCRIBE", "OHAI", "BAI", "WHO-DOES", "ALL-THE-THINGS"]

  /** The registry service answers the Provider's COMMANDS request, which it accepts under the
      baseline tag, with its command list, and changes nothing. */
  lemma RegistryAnswersCommands(st: D.DirState, token: string)
    ensures RS.Serve(st, P.COMMANDS_REQUEST, token) == RS.Answer(Returned(Basic.Commands(RS.REGISTRY)), st)
    ensures P.ListReply("COMMANDS", Basic.Commands(RS.REGISTRY)) == Returned(REGISTRY_COMMANDS)
  {
    var request := P.COMMANDS_REQUEST;
    Basic.SpeaksIff(RS.REGISTRY, request[0]);
    assert Normalize("COMMANDS") == "commands";
    RS.RegistryHandlerNames();
    Basic.HandlesIff(RS.REGISTRY, "commands");
    Basic.HandleAccepts(RS.REGISTRY, request);
    assert request[2..] == [];
    RegistryCommandsRead();
  }

  /** The Provider reads the registry's `commands` reply as the registry's command list. */
  lemma RegistryCommandsRead()
    ensures P.ListReply("COMMANDS", Basic.Commands(RS.REGISTRY)) == Returned(REGISTRY_COMMANDS)
  {
    P.CommandsRoundTrip(RS.REGISTRY);
    assert Basic.BUILTIN_COMMANDS + RS.OWN_COMMANDS == REGISTRY_COMMANDS;
  }

  /** A corrected forwarded call on a fresh proxy: the COMMANDS request, then the call under the
      registry's tag, whose reply under that tag is handed back without it. */
  lemma FixedCall(symbol: string, args: seq<string>, m: Message)
    requires P.RespondsToTranslated(REGISTRY_COMMANDS, symbol)
    requires m != [] && m[0] == REGISTRY_PROTOCOL
    ensures P.Call(None, symbol, args, Protocol(true), true, Basic.Commands(RS.REGISTRY), m)
      == P.CallStep([P.COMMANDS_REQUEST, [REGISTRY_PROTOCOL, symbol] + args], Returned(Some(m[1..])), Some(REGISTRY_COMMANDS))
  {
    RegistryCommandsRead();
  }

  /** A forwarded call under its default tag `symbol/1.0` is refused by the registry service,
      which answers under its own tag; the proxy then sees nil. */
  lemma DefaultTagRefused(st: D.DirState, symbol: string, args: seq<string>, token: string)
    requires !CaseEq(P.DefaultProtocol(symbol), Basic.SERVICE_PROTOCOL) && !CaseEq(P.DefaultProtocol(symbol), REGISTRY_PROTOCOL)
    ensures var request := [P.DefaultProtocol(symbol), symbol] + args;
      var a := RS.Serve(st, request, token);
      a.state == st && a.outcome.Returned? && P.CallReply(P.DefaultProtocol(symbol), a.outcome.value) == Returned(None)
  {
    var tag := P.DefaultProtocol(symbol);
    var request := [tag, symbol] + args;
    Basic.SpeaksIff(RS.REGISTRY, tag);
    Basic.PreferredProtocolIsLast(RS.REGISTRY);
    var m := RS.Serve(st, request, token).outcome.value;
    assert m[0] == REGISTRY_PROTOCOL;
  }

  /** The default tags of the four forwarded registry calls are neither tag the registry speaks,
      so DefaultTagRefused applies to each of them. */
  lemma RegistryCallTagsUnspoken(symbol: string)
    requires symbol in ["ohai", "bai", "who_does", "all_the_things"]
    ensures !CaseEq(P.DefaultProtocol(symbol), Basic.SERVICE_PROTOCOL) && !CaseEq(P.DefaultProtocol(symbol), REGISTRY_PROTOCOL)
  {
    var tag := P.DefaultProtocol(symbol);
    if symbol == "who_does" {
      assert Lower(tag)[11] == '0' != Lower(REGISTRY_PROTOCOL)[11];
      assert |Lower(tag)| != |Lower(Basic.SERVICE_PROTOCOL)|;
    } else {
      assert |Lower(tag)| != |Lower(Basic.SERVICE_PROTOCOL)| && |Lower(tag)| != |Lower(REGISTRY_PROTOCOL)|;
    }
  }

  /** `deregister!` sends nothing for a service without a token. With one, it sends BAI with the
      token, and the cache loses exactly that service iff the reply comes back under the tag
      sent and says GTFO; the token is then returned. Otherwise the cache is as before. */
  lemma DeregistrationDeletesOnGtfo(commands: Option<seq<string>>, tokens: map<string, string>, service: string,
                                    fixed: bool, commandsReceived: Message, received: Message)
    ensures var d := Deregistration(commands, tokens, service, fixed, commandsReceived, received);
      && (service !in tokens ==> d.sent == [] && d.result == Returned(None) && d.tokens == tokens)
      && (service in tokens ==>
        var c := P.Call(commands, "bai", [tokens[service]], Protocol(fixed), fixed, commandsReceived, received);
        && d.sent == c.sent && d.commands == c.commands
        && (d.tokens == tokens - {service} <==>
              c.result.Returned? && c.result.value.Some? && c.result.value.value != [] && CaseEq(c.result.value.value[0], "GTFO"))
        && (d.tokens == tokens - {service} ==> d.result == Returned(Some(tokens[service])))
        && (d.tokens != tokens - {service} ==> d.tokens == tokens))
  {
    if service in tokens {
      assert service !in tokens - {service};
    }
  }

  /** The command lookup, as written, finds OHAI and BAI but neither hyphenated command. */
  lemma LookupAsWritten()
    ensures P.RespondsTo(REGISTRY_COMMANDS, "ohai") && P.RespondsTo(REGISTRY_COMMANDS, "bai")
    ensures !P.RespondsTo(REGISTRY_COMMANDS, "who_does") && !P.RespondsTo(REGISTRY_COMMANDS, "all_the_things")
  {
    var cs := REGISTRY_COMMANDS;
    assert CaseEq("ohai", cs[4]) && CaseEq("bai", cs[5]);
    forall i | 0 <= i < |cs|
      ensures !CaseEq("who_does", cs[i]) && !CaseEq("all_the_things", cs[i])
    {
      if i == 6 {
        assert Lower("who_does")[3] != Lower(cs[6])[3];
      } else if i == 7 {
        assert Lower("all_the_things")[3] != Lower(cs[7])[3];
      } else {
        assert |Lower(cs[i])| != 8 || i == 2 || i == 3;
        assert |cs[i]| != 14;
        assert Lower("who_does")[0] != Lower(cs[i])[0] || |cs[i]| != 8;
      }
    }
  }

  /** With hyphens read as underscores, all four registry commands are found. */
  lemma LookupTranslated()
    ensures forall symbol | symbol in ["ohai", "bai", "who_does", "all_the_things"] :: P.RespondsToTranslated(REGISTRY_COMMANDS, symbol)
  {
    var ts := MapTr(REGISTRY_COMMANDS);
    assert CaseEq("ohai", ts[4]) && CaseEq("bai", ts[5]);
    assert Tr("WHO-DOES") == "WHO_DOES" && Tr("ALL-THE-THINGS") == "ALL_THE_THINGS";
    assert CaseEq("who_does", ts[6]) && CaseEq("all_the_things", ts[7]);
  }

  /** As written, `register!` on a fresh proxy fails against the registry service: `ohai` goes
      out under `ohai/1.0`, the registry refuses it, and `pop` on the nil that comes back raises
      NoMethodError. Nothing is registered on either side. */
  lemma RegisterFailsAsWritten(st: D.DirState, service: string, provider: string, token: string)
    ensures RS.Serve(st, P.COMMANDS_REQUEST, token).outcome == Returned(Basic.Commands(RS.REGISTRY))
    ensures var request := ["ohai/1.0", "ohai", service, provider];
      var a := RS.Serve(st, request, token);
      && a.state == st && a.outcome.Returned?
      && var r := Registration(None, map[], service, provider, false, Basic.Commands(RS.REGISTRY), a.outcome.value);
      && r.sent == [P.COMMANDS_REQUEST, request] && r.result == Raised(NO_METHOD_ERROR) && r.tokens == map[]
  {
    RegistryAnswersCommands(st, token);
    assert P.DefaultProtocol("ohai") == "ohai/1.0";
    DefaultTagRefused(st, "ohai", [service, provider], token);
    var a := RS.Serve(st, ["ohai/1.0", "ohai"] + [service, provider], token);
    assert ["ohai/1.0", "ohai"] + [service, provider] == ["ohai/1.0", "ohai", service, provider];
    RegistrationRefused(service, provider, a.outcome.value);
  }

  /** As written, a registration whose reply comes back under another tag than `ohai/1.0`
      raises NoMethodError after sending the COMMANDS request and the `ohai` call. */
  lemma RegistrationRefused(service: string, provider: string, m: Message)
    requires P.CallReply("ohai/1.0", m) == Returned(None)
    ensures var r := Registration(None, map[], service, provider, false, Basic.Commands(RS.REGISTRY), m);
      r.sent == [P.COMMANDS_REQUEST, ["ohai/1.0", "ohai", service, provider]] && r.result == Raised(NO_METHOD_ERROR) && r.tokens == map[]
  {
    RegistryCommandsRead();
    LookupAsWritten();
    assert P.DefaultProtocol("ohai") == "ohai/1.0";
    assert ["ohai/1.0", "ohai"] + [service, provider] == ["ohai/1.0", "ohai", service, provider];
  }

  /** With the registry's tag, `register!` of a new provider is welcomed with the registry's
      token, which both sides now hold. */
  lemma RegisterWelcomesWhenFixed(st: D.DirState, service: string, provider: string, token: string)
    requires service != "" && provider != "" && provider !in D.ProvidersOf(st, Upper(service))
    ensures RS.Serve(st, P.COMMANDS_REQUEST, token).outcome == Returned(Basic.Commands(RS.REGISTRY))
    ensures var request := [REGISTRY_PROTOCOL, "ohai", service, provider];
      var a := RS.Serve(st, request, token);
      && a.outcome.Returned?
      && var r := Registration(None, map[], service, provider, true, Basic.Commands(RS.REGISTRY), a.outcome.value);
      && a.state == D.Ohai(st, service, provider, token).state
      && r.sent == [P.COMMANDS_REQUEST, request]
      && r.result == Returned(Some(token)) && r.tokens == map[service := token]
      && a.state.tokens[token] == D.Entry(Upper(service), provider)
  {
    RegistryAnswersCommands(st, token);
    FixedOhaiServed(st, service, provider, token);
    RegistrationWelcomed(service, provider, token);
  }

  /** Corrected, a registration answered with WELCOME and a token under the registry's tag
      returns the token and records it for the service. */
  lemma RegistrationWelcomed(service: string, provider: string, token: string)
    ensures var r := Registration(None, map[], service, provider, true, Basic.Commands(RS.REGISTRY), [REGISTRY_PROTOCOL, "WELCOME", token]);
      && r.sent == [P.COMMANDS_REQUEST, [REGISTRY_PROTOCOL, "ohai", service, provider]]
      && r.result == Returned(Some(token)) && r.tokens == map[service := token]
  {
    LookupTranslated();
    var m := [REGISTRY_PROTOCOL, "WELCOME", token];
    FixedCall("ohai", [service, provider], m);
    assert [REGISTRY_PROTOCOL, "ohai"] + [service, provider] == [REGISTRY_PROTOCOL, "ohai", service, provider];
    assert m[1..] == ["WELCOME", token];
    CaseEqEquivalence("WELCOME", "WELCOME", "WELCOME");
  }

  lemma FixedOhaiServed(st: D.DirState, service: string, provider: string, token: string)
    requires service != "" && provider != "" && provider !in D.ProvidersOf(st, Upper(service))
    ensures RS.Serve(st, [REGISTRY_PROTOCOL, "ohai", service, provider], token)
      == RS.Answer(Returned([REGISTRY_PROTOCOL, "WELCOME", token]), D.Ohai(st, service, provider, token).state)
    ensures D.Ohai(st, service, provider, token).state.tokens[token] == D.Entry(Upper(service), provider)
  {
    var request := [REGISTRY_PROTOCOL, "ohai", service, provider];
    assert Normalize("ohai") == "ohai";
    RS.ServeRoutes(st, request, token);
    assert request[2..] == [service, provider];
    D.OhaiWelcomesNew(st, service, provider, token);
  }

  /** As written, `services` on a fresh proxy never reaches the registry: `all_the_things` is not
      in the command list as the lookup reads it, so `method_missing` raises NoMethodError. */
  lemma ServicesFailAsWritten(st: D.DirState, token: string, received: Message)
    ensures RS.Serve(st, P.COMMANDS_REQUEST, token).outcome == Returned(Basic.Commands(RS.REGISTRY))
    ensures var l := Listed(None, "all_the_things", [], "SERVICES", false, Basic.Commands(RS.REGISTRY), received);
      l.sent == [P.COMMANDS_REQUEST] && l.result == Raised(NO_METHOD_ERROR)
  {
    RegistryAnswersCommands(st, token);
    LookupAsWritten();
  }

  /** With both corrections, `services` lists what the registry's directory holds. */
  lemma ServicesListedWhenFixed(st: D.DirState, token: string)
    ensures RS.Serve(st, P.COMMANDS_REQUEST, token).outcome == Returned(Basic.Commands(RS.REGISTRY))
    ensures var request := [REGISTRY_PROTOCOL, "all_the_things"];
      var a := RS.Serve(st, request, token);
      && a.state == st && a.outcome.Returned?
      && var l := Listed(None, "all_the_things", [], "SERVICES", true, Basic.Commands(RS.REGISTRY), a.outcome.value);
      && l.sent == [P.COMMANDS_REQUEST, request] && l.result == Returned(st.services)
  {
    RegistryAnswersCommands(st, token);
    LookupTranslated();
    ServicesServed(st, token);
    assert [REGISTRY_PROTOCOL, "all_the_things"] + [] == [REGISTRY_PROTOCOL, "all_the_things"];
    ListedWhenFixed("all_the_things", [], "SERVICES", st.services);
  }

  /** With both corrections, `providers(service)` lists the directory's providers of the
      service, whatever its case. */
  lemma ProvidersListedWhenFixed(st: D.DirState, service: string, token: string)
    ensures RS.Serve(st, P.COMMANDS_REQUEST, token).outcome == Returned(Basic.Commands(RS.REGISTRY))
    ensures var request := [REGISTRY_PROTOCOL, "who_does", service];
      var a := RS.Serve(st, request, token);
      && a.state == st && a.outcome.Returned?
      && var l := Listed(None, "who_does", [service], "PROVIDERS", true, Basic.Commands(RS.REGISTRY), a.outcome.value);
      && l.sent == [P.COMMANDS_REQUEST, request] && l.result == Returned(D.ProvidersOf(st, Upper(service)))
  {
    RegistryAnswersCommands(st, token);
    LookupTranslated();
    ProvidersServed(st, service, token);
    assert [REGISTRY_PROTOCOL, "who_does"] + [service] == [REGISTRY_PROTOCOL, "who_does", service];
    ListedWhenFixed("who_does", [service], "PROVIDERS", D.ProvidersOf(st, Upper(service)));
  }

  /** A corrected listing on a fresh proxy whose call is answered under the registry's tag with
      the expected header hands back the items after the header. */
  lemma ListedWhenFixed(symbol: string, args: seq<string>, header: string, items: seq<string>)
    requires P.RespondsToTranslated(REGISTRY_COMMANDS, symbol)
    ensures var l := Listed(None, symbol, args, header, true, Basic.Commands(RS.REGISTRY), D.Reply([header] + items));
      l.sent == [P.COMMANDS_REQUEST, [REGISTRY_PROTOCOL, symbol] + args] && l.result == Returned(items)
  {
    var m := D.Reply([header] + items);
    FixedCall(symbol, args, m);
    assert m[1..] == [header] + items;
    CaseEqEquivalence(header, header, header);
  }
  /** The registry service answers `all_the_things` under its own tag and changes nothing. */
  lemma ServicesServed(st: D.DirState, token: string)
    ensures RS.Serve(st, [REGISTRY_PROTOCOL, "all_the_things"], token) == RS.Answer(Returned(D.Reply(["SERVICES"] + st.services)), st)
  {
    var request := [REGISTRY_PROTOCOL, "all_the_things"];
    assert Normalize("all_the_things") == "all_the_things";
    RS.ServeRoutes(st, request, token);
    assert request[2..] == [];
  }

  /** The registry service answers `who_does` under its own tag and changes nothing. */
  lemma ProvidersServed(st: D.DirState, service: string, token: string)
    ensures RS.Serve(st, [REGISTRY_PROTOCOL, "who_does", service], token)
      == RS.Answer(Returned(D.Reply(["PROVIDERS"] + D.ProvidersOf(st, Upper(service)))), st)
  {
    var request := [REGISTRY_PROTOCOL, "who_does", service];
    assert Normalize("who_does") == "who_does";
    RS.ServeRoutes(st, request, token);
    assert request[2..] == [service];
  }
}
