/** The registry client of lib/elgame/service/registry/client.rb. It builds `Registry/1.1`
    requests, reads the reply the socket hands back, and remembers the token of every service it
    registered. The socket is left out: each method is given the message it receives and returns
    the message it sends. */
module RegistryClient {
  import opened Outcomes
  import opened Text
  import opened Frames

  const PROTOCOL := "Registry/1.1"

  // ---------------------------------------------------------------- requests

  function OhaiRequest(service: string, provider: string): Message {
    [PROTOCOL, "OHAI", service, provider]
  }

  function BaiRequest(token: string): Message {
    [PROTOCOL, "BAI", token]
  }

  function WhoDoesRequest(service: string): Message {
    [PROTOCOL, "WHO-DOES", service]
  }

  function AllTheThingsRequest(): Message {
    [PROTOCOL, "ALL-THE-THINGS"]
  }

  // ---------------------------------------------------------------- replies

  /** `reply`: pops the tag off the received message; nil when it is not the registry's tag.
      Calling `casecmp` on the nil an empty message pops raises NoMethodError. */
  function Reply(received: Message): Outcome<Option<Message>> {
    if received == [] then Raised(NO_METHOD_ERROR)
    else if !CaseEq(received[0], PROTOCOL) then Returned(None)
    else Returned(Some(received[1..]))
  }

  /** `to_a` of a reply, nil giving the empty list. */
  function ToA(reply: Option<Message>): Message {
    if reply.None? then [] else reply.value
  }

  /** `register!`'s result: the token that a WELCOME reply carries. A missing first frame is
      nil, and `casecmp` on it raises NoMethodError. */
  function Registration(received: Message): Outcome<Option<string>> {
    match Reply(received)
    case Raised(e) => Raised(e)
    case Returned(reply) =>
      var fs := ToA(reply);
      if fs == [] then Raised(NO_METHOD_ERROR)
      else if CaseEq(fs[0], "WELCOME") && |fs| >= 2 then Returned(Some(fs[1]))
      else Returned(None)
  }

  /** Whether `deregister!` deletes its token: the first frame of the reply answers GTFO. A nil
      reply, or a reply with nothing after the tag, raises NoMethodError. */
  function Deregistration(received: Message): Outcome<bool> {
    match Reply(received)
    case Raised(e) => Raised(e)
    case Returned(reply) =>
      if reply.None? || reply.value == [] then Raised(NO_METHOD_ERROR)
      else Returned(CaseEq(reply.value[0], "GTFO"))
  }

  /** `services` and `providers(service)`: the frames after the expected header, or nothing
      under any other header. */
  function Listing(header: string, received: Message): Outcome<seq<string>> {
    match Reply(received)
    case Raised(e) => Raised(e)
    case Returned(reply) =>
      var fs := ToA(reply);
      if fs == [] then Raised(NO_METHOD_ERROR)
      else if CaseEq(fs[0], header) then Returned(fs[1..])
      else Returned([])
  }

  /** `Array#sample` with the random draw made explicit. */
  function Sample(xs: seq<string>, choice: nat): (r: Option<string>)
    ensures r.None? <==> xs == []
    ensures r.Some? ==> r.value in xs
  {
    if xs == [] then None else Some(xs[choice % |xs|])
  }

  class Client {
    /** Service name to the token its registration was given. */
    var tokens: map<string, string>

    constructor ()
      ensures tokens == map[]
    {
      tokens := map[];
    }

    function Registered(): (r: bool)
      reads this
      ensures r <==> exists s :: s in tokens
    {
      if tokens == map[] then false
      else
        var s :| s in tokens;
        true
    }

    /** `reply` on the message the socket received. */
    method ReadReply(received: Message) returns (reply: Outcome<Option<Message>>)
      ensures reply == Reply(received)
    {
      var m := new Msg(received);
      var tag := m.Pop();
      if tag.None? {
        return Raised(NO_METHOD_ERROR);
      }
      if !CaseEq(tag.value, PROTOCOL) {
        return Returned(None);
      }
      reply := Returned(Some(m.frames));
    }

    /** `register!(service, provider)`. */
    method Register(service: string, provider: string, received: Message) returns (sent: Message, result: Outcome<Option<string>>)
      modifies this
      ensures sent == OhaiRequest(service, provider)
      ensures result == Registration(received)
      ensures tokens == (if result.Returned? && result.value.Some? then old(tokens)[service := result.value.value] else old(tokens))
    {
      var request := new Msg([PROTOCOL]);
      request.Append("OHAI");
      request.Append(service);
      request.Append(provider);
      sent := request.frames;
      var reply := ReadReply(received);
      if reply.Raised? {
        return sent, Raised(reply.error);
      }
      var fs := ToA(reply.value);
      if fs == [] {
        return sent, Raised(NO_METHOD_ERROR);
      }
      result := Returned(None);
      if CaseEq(fs[0], "WELCOME") && |fs| >= 2 {
        tokens := tokens[service := fs[1]];
        result := Returned(Some(fs[1]));
      }
    }

    /** `deregister!(service)`: nothing is sent for a service without a token. */
    method Deregister(service: string, received: Message) returns (sent: Option<Message>, result: Outcome<Option<string>>)
      modifies this
      ensures service !in old(tokens) ==> sent == None && result == Returned(None) && tokens == old(tokens)
      ensures service in old(tokens) ==> sent == Some(BaiRequest(old(tokens)[service]))
      ensures service in old(tokens) ==> match Deregistration(received)
        case Raised(e) => result == Raised(e) && tokens == old(tokens)
        case Returned(gone) =>
          if gone then result == Returned(Some(old(tokens)[service])) && tokens == old(tokens) - {service}
          else result == Returned(None) && tokens == old(tokens)
    {
      if service !in tokens {
        return None, Returned(None);
      }
      var token := tokens[service];
      var request := new Msg([PROTOCOL]);
      assert request.frames == [PROTOCOL];
      request.Append("BAI");
      assert request.frames == [PROTOCOL, "BAI"];
      request.Append(token);
      assert request.frames == [PROTOCOL, "BAI", token];
      sent := Some(request.frames);
      assert sent == Some(BaiRequest(token));
      var reply := ReadReply(received);
      if reply.Raised? {
        return sent, Raised(reply.error);
      }
      if reply.value.None? {
        return sent, Raised(NO_METHOD_ERROR);
      }
      var m := new Msg(reply.value.value);
      var response := m.Pop();
      if response.None? {
        return sent, Raised(NO_METHOD_ERROR);
      }
      result := Returned(None);
      if CaseEq(response.value, "GTFO") {
        tokens := tokens - {service};
        result := Returned(Some(token));
      }
    }

    method Services(received: Message) returns (sent: Message, result: Outcome<seq<string>>)
      ensures sent == AllTheThingsRequest()
      ensures result == Listing("SERVICES", received)
    {
      var request := new Msg([PROTOCOL]);
      request.Append("ALL-THE-THINGS");
      sent := request.frames;
      result := ReadListing("SERVICES", received);
    }

    method Providers(service: string, received: Message) returns (sent: Message, result: Outcome<seq<string>>)
      ensures sent == WhoDoesRequest(service)
      ensures result == Listing("PROVIDERS", received)
    {
      var request := new Msg([PROTOCOL]);
      request.Append("WHO-DOES");
      request.Append(service);
      sent := request.frames;
      result := ReadListing("PROVIDERS", received);
    }

    /** `provider(service)`: one of the listed providers, drawn by `choice`, or nil. */
    method Provider(service: string, received: Message, choice: nat) returns (sent: Message, result: Outcome<Option<string>>)
      ensures sent == WhoDoesRequest(service)
      ensures Listing("PROVIDERS", received).Raised? ==> result == Raised(Listing("PROVIDERS", received).error)
      ensures Listing("PROVIDERS", received).Returned? ==>
        && result.Returned?
        && (result.value.None? <==> Listing("PROVIDERS", received).value == [])
        && (result.value.Some? ==> result.value.value in Listing("PROVIDERS", received).value)
    {
      var providers;
      sent, providers := Providers(service, received);
      if providers.Raised? {
        return sent, Raised(providers.error);
      }
      result := Returned(Sample(providers.value, choice));
    }

    /** The destructuring `response, *rest = reply.to_a` followed by the header test. */
    method ReadListing(header: string, received: Message) returns (result: Outcome<seq<string>>)
      ensures result == Listing(header, received)
    {
      var reply := ReadReply(received);
      if reply.Raised? {
        return Raised(reply.error);
      }
      var fs := ToA(reply.value);
      if fs == [] {
        return Raised(NO_METHOD_ERROR);
      }
      if CaseEq(fs[0], header) {
        result := Returned(fs[1..]);
      } else {
        result := Returned([]);
      }
    }
  }

  // ---------------------------------------------------------------- properties

  /** `register!` yields a token exactly when the registry's WELCOME carries one. */
  lemma RegistrationIff(received: Message, token: string)
    ensures Registration(received) == Returned(Some(token)) <==>
      |received| >= 3 && CaseEq(received[0], PROTOCOL) && CaseEq(received[1], "WELCOME") && received[2] == token
  {
  }

  /** A reply under another protocol is ignored by `reply`, and every reader then fails on the
      nil it gets. */
  lemma ForeignReplyIgnored(received: Message, header: string)
    requires received != [] && !CaseEq(received[0], PROTOCOL)
    ensures Reply(received) == Returned(None)
    ensures Registration(received) == Raised(NO_METHOD_ERROR)
    ensures Deregistration(received) == Raised(NO_METHOD_ERROR)
    ensures Listing(header, received) == Raised(NO_METHOD_ERROR)
  {
  }

  /** A listing under the expected header returns every frame after it, in order. */
  lemma ListingIff(header: string, received: Message, xs: seq<string>)
    requires xs != []
    ensures Listing(header, received) == Returned(xs) <==>
      |received| >= 2 && CaseEq(received[0], PROTOCOL) && CaseEq(received[1], header) && received[2..] == xs
  {
    if Listing(header, received) == Returned(xs) {
      assert received[1..][1..] == received[2..];
    }
    if |received| >= 2 && CaseEq(received[0], PROTOCOL) && CaseEq(received[1], header) && received[2..] == xs {
      assert received[1..][1..] == received[2..];
    }
  }
}
