/** The older service base class of lib/elgame/service.rb. A subclass names the one protocol
    it `speaks` and the one command it `provides`; the base class answers neither (both nil).
    Error replies are tagged with `speaks`, so on the base class every error reply fails to
    build: CZTop's `<<` refuses a nil frame with an ArgumentError, and this `handle` rescues
    nothing. */
module LegacyService {
  import opened Outcomes
  import opened Text
  import opened Frames
  import opened Basic

  /** A subclass of the old Service as `handle` sees it: its `speaks` and `provides` overrides
      (the second field is named `provided`, `provides` being a Dafny keyword). */
  datatype Service = Service(speaks: Option<string>, provided: Option<string>)

  /** The base class itself. */
  const BASE := Service(None, None)

  function Protocols(sv: Service): Message {
    [SERVICE_PROTOCOL, "PROTOCOLS", SERVICE_PROTOCOL] + OptionToSeq(sv.speaks)
  }

  /** `commands`: the builtin names and `provides`, all upper-cased, after the two headers. */
  function Commands(sv: Service): Message {
    [SERVICE_PROTOCOL, "COMMANDS"] + MapUpper(BUILTIN_COMMANDS + OptionToSeq(sv.provided))
  }

  function MapUpper(xs: seq<string>): seq<string> {
    seq(|xs|, i requires 0 <= i < |xs| => Upper(xs[i]))
  }

  /** `speaks?`: the tag equals, ignoring case, `speaks` or the baseline tag. */
  predicate Speaks(sv: Service, tag: string) {
    AnyCaseEq(tag, OptionToSeq(sv.speaks) + [SERVICE_PROTOCOL])
  }

  /** The names `provides?` compares against: the `commands` entries after the headers, then
      `provides` once more, each with hyphens turned into underscores. */
  function ProvidedNames(sv: Service): seq<string> {
    var names := Commands(sv)[2..] + OptionToSeq(sv.provided);
    seq(|names|, i requires 0 <= i < |names| => Tr(names[i]))
  }

  /** `provides?`. */
  predicate Provides(sv: Service, command: string) {
    AnyCaseEq(command, ProvidedNames(sv))
  }

  /** `error(context)`: `[speaks, 'WTF', context]`; raises when `speaks` is nil. */
  function Error(sv: Service, context: string): Outcome<Message> {
    if sv.speaks.None? then Raised(ARGUMENT_ERROR) else Returned([sv.speaks.value, "WTF", context])
  }

  /** An error reply as `handle` returns it: the message, or the exception building it raised. */
  function Reject(sv: Service, context: string): Handled {
    match Error(sv, context)
    case Returned(m) => Replied(m)
    case Raised(e) => Crashed(e)
  }

  /** `send command, *args` for a command `provides?` let through. The builtins are contracted
      methods, so a wrong number of arguments raises (an ArgumentError, or the Contracts
      library's ContractError, a subclass of it), which escapes. `describe` itself answers by
      reflection and the provided command belongs to the subclass: both are handed on. */
  function Dispatch(sv: Service, command: string, args: seq<string>): Handled {
    if command == "send_hugz" then
      if |args| == 0 then Replied(SendHugz()) else Crashed(ARGUMENT_ERROR)
    else if command == "protocols" then
      if |args| == 0 then Replied(Protocols(sv)) else Crashed(ARGUMENT_ERROR)
    else if command == "commands" then
      if |args| == 0 then Replied(Commands(sv)) else Crashed(ARGUMENT_ERROR)
    else if command == "describe" then
      if |args| == 1 then Dispatched(command, args) else Crashed(ARGUMENT_ERROR)
    else Dispatched(command, args)
  }

  function ProvidesText(sv: Service): string {
    if sv.provided.Some? then sv.provided.value else ""
  }

  function SpeaksText(sv: Service): string {
    if sv.speaks.Some? then sv.speaks.value else ""
  }

  /** `handle`. */
  function Handle(sv: Service, request: Message): Handled {
    if |request| < 2 then Reject(sv, "I expected more than that...")
    else if !Speaks(sv, request[0]) then Reject(sv, "I speak " + SpeaksText(sv))
    else
      var command := Normalize(request[1]);
      if !Provides(sv, command) then Reject(sv, "I provide " + ProvidesText(sv))
      else Dispatch(sv, command, request[2..])
  }

  /** `handle` on a request in hand, popping the tag and the command off it. */
  method HandleRequest(sv: Service, request: Msg) returns (h: Handled)
    modifies request
    ensures h == Handle(sv, old(request.frames))
    ensures |old(request.frames)| < 2 ==> request.frames == old(request.frames)
    ensures |old(request.frames)| >= 2 && !Speaks(sv, old(request.frames)[0]) ==> request.frames == old(request.frames)[1..]
    ensures |old(request.frames)| >= 2 && Speaks(sv, old(request.frames)[0]) ==> request.frames == old(request.frames)[2..]
  {
    if |request.frames| < 2 {
      return Reject(sv, "I expected more than that...");
    }
    ghost var frames := request.frames;
    var protocol := request.Pop();
    if !Speaks(sv, protocol.value) {
      return Reject(sv, "I speak " + SpeaksText(sv));
    }
    var tag := request.Pop();
    var command := Normalize(tag.value);
    if !Provides(sv, command) {
      return Reject(sv, "I provide " + ProvidesText(sv));
    }
    assert request.frames == frames[2..];
    h := Dispatch(sv, command, request.frames);
  }

  // ---------------------------------------------------------------- properties

  /** Fewer than two frames is never dispatched: a subclass that speaks a protocol replies with
      its `WTF`, the base class raises. */
  lemma ShortRequestRejected(sv: Service, request: Message)
    requires |request| < 2
    ensures sv.speaks.Some? ==> Handle(sv, request) == Replied([sv.speaks.value, "WTF", "I expected more than that..."])
    ensures sv.speaks.None? ==> Handle(sv, request) == Crashed(ARGUMENT_ERROR)
  {
  }

  /** `speaks?` accepts exactly the tags the `protocols` reply lists after its headers: the
      baseline and `speaks`, ignoring case. */
  lemma SpeaksIff(sv: Service, tag: string)
    ensures Speaks(sv, tag) <==> AnyCaseEq(tag, Protocols(sv)[2..])
    ensures Speaks(sv, tag) <==> CaseEq(tag, SERVICE_PROTOCOL) || (sv.speaks.Some? && CaseEq(tag, sv.speaks.value))
  {
    var own := OptionToSeq(sv.speaks) + [SERVICE_PROTOCOL];
    var listed := Protocols(sv)[2..];
    assert listed == [SERVICE_PROTOCOL] + OptionToSeq(sv.speaks);
    if CaseEq(tag, SERVICE_PROTOCOL) {
      assert CaseEq(tag, own[|own| - 1]) && CaseEq(tag, listed[0]);
    }
    if sv.speaks.Some? && CaseEq(tag, sv.speaks.value) {
      assert CaseEq(tag, own[0]) && CaseEq(tag, listed[1]);
    }
  }

  /** The `commands` reply: the four builtin names, then `provides` upper-cased. */
  lemma CommandsReply(sv: Service)
    ensures Commands(sv) == [SERVICE_PROTOCOL, "COMMANDS", "SEND-HUGZ", "PROTOCOLS", "COMMANDS", "DESCRIBE"]
                            + (if sv.provided.Some? then [Upper(sv.provided.value)] else [])
  {
    assert Upper("SEND-HUGZ") == "SEND-HUGZ";
    assert Upper("PROTOCOLS") == "PROTOCOLS";
    assert Upper("COMMANDS") == "COMMANDS";
    assert Upper("DESCRIBE") == "DESCRIBE";
  }

  /** `provides?` accepts a name iff it equals, ignoring case, a builtin command or `provides`,
      each with hyphens turned into underscores. */
  lemma ProvidesIff(sv: Service, command: string)
    ensures Provides(sv, command) <==>
      AnyCaseEq(command, MapTr(BUILTIN_COMMANDS)) || (sv.provided.Some? && CaseEq(command, Tr(sv.provided.value)))
  {
    var names := ProvidedNames(sv);
    var builtins := MapTr(BUILTIN_COMMANDS);
    CommandsReply(sv);
    assert |names| == 4 + 2 * |OptionToSeq(sv.provided)|;
    forall i | 0 <= i < 4
      ensures names[i] == builtins[i]
    {
    }
    if sv.provided.Some? {
      var p := sv.provided.value;
      UpperThenTr(p);
      assert names[4] == Tr(Upper(p)) && names[5] == Tr(p);
      if CaseEq(command, Tr(p)) {
        assert CaseEq(command, names[5]);
      }
      if Provides(sv, command) {
        var i :| 0 <= i < |names| && CaseEq(command, names[i]);
        if i >= 4 {
          assert CaseEq(command, Tr(p));
        } else {
          assert CaseEq(command, builtins[i]);
        }
      }
    }
    if AnyCaseEq(command, builtins) {
      var i :| 0 <= i < |builtins| && CaseEq(command, builtins[i]);
      assert CaseEq(command, names[i]);
    }
  }

  /** Upper-casing before turning hyphens into underscores changes nothing ignoring case. */
  lemma UpperThenTr(s: string)
    ensures CaseEq(Tr(Upper(s)), Tr(s))
  {
    assert Lower(Tr(Upper(s))) == Lower(Tr(s)) by {
      forall i | 0 <= i < |s|
        ensures Lower(Tr(Upper(s)))[i] == Lower(Tr(s))[i]
      {
      }
    }
  }

  /** An accepted request is dispatched on its normalised command with the remaining frames. */
  lemma HandleAccepts(sv: Service, request: Message)
    requires |request| >= 2 && Speaks(sv, request[0]) && Provides(sv, Normalize(request[1]))
    ensures Handle(sv, request) == Dispatch(sv, Normalize(request[1]), request[2..])
  {
  }

  /** On the base class every request is either answered by a builtin or crashes: nothing it
      accepts is handed on except `describe`, and no error reply can be built. */
  lemma BaseRejectionsCrash(request: Message)
    requires |request| < 2 || !Speaks(BASE, request[0]) || !Provides(BASE, Normalize(request[1]))
    ensures Handle(BASE, request) == Crashed(ARGUMENT_ERROR)
  {
  }

  /** The old skeleton and the new one agree on what they accept: a Basic service whose PROTOCOL
      is `speaks` and whose own command is `provides` upper-cased speaks the same tags and
      handles the same commands. */
  lemma AgreesWithBasic(sv: Service, tag: string, command: string)
    ensures Basic.Speaks(Skeleton(sv.speaks, MapUpper(OptionToSeq(sv.provided))), tag) <==> Speaks(sv, tag)
    ensures Basic.Handles(Skeleton(sv.speaks, MapUpper(OptionToSeq(sv.provided))), command) <==> Provides(sv, command)
  {
    var sk := Skeleton(sv.speaks, MapUpper(OptionToSeq(sv.provided)));
    Basic.SpeaksIff(sk, tag);
    SpeaksIff(sv, tag);
    ProvidesIff(sv, command);
    var cs := Basic.Commands(sk);
    assert cs[2..] == BUILTIN_COMMANDS + MapUpper(OptionToSeq(sv.provided));
    if Basic.Handles(sk, command) {
      var i :| 2 <= i < |cs| && CaseEq(command, Tr(cs[i]));
      if i < 6 {
        assert CaseEq(command, MapTr(BUILTIN_COMMANDS)[i - 2]);
      } else {
        UpperThenTr(sv.provided.value);
      }
    }
    if AnyCaseEq(command, MapTr(BUILTIN_COMMANDS)) {
      var i :| 0 <= i < 4 && CaseEq(command, MapTr(BUILTIN_COMMANDS)[i]);
      assert CaseEq(command, Tr(cs[i + 2]));
    }
    if sv.provided.Some? && CaseEq(command, Tr(sv.provided.value)) {
      UpperThenTr(sv.provided.value);
      assert CaseEq(command, Tr(cs[6]));
    }
  }
}
