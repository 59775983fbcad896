# elgame in Dafny

A model of the protocol core of elgame, written in Ruby. elgame is a small request-reply command framework over ZeroMQ and a grid game built on it. Every message is an ordered list of string frames (`Frames.Message`, a `seq<string>`). `<<` appends a frame. `pop` removes the first frame. The model has these parts:

- **Service skeletons.** `Basic` models `ElGame::Service::Basic` and `LegacyService` models the older `ElGame::Service`. Each checks a request's protocol tag and command case-insensitively. It then answers `WTF`, dispatches to a builtin, or hands the command on to the subclass. Each also builds the fixed introspection replies (`HUGZ`, `PROTOCOLS`, `COMMANDS`, `SERVICES`). `handle` pops the request in place, so it is a method on a `Frames.Msg` object. That method is proved equal to a function on the frames it started from.
- **The registry directory.** It answers `OHAI`, `BAI`, `WHO-DOES` and `ALL-THE-THINGS`.
  - `Directory` holds one value-level specification: the service list, the provider list of each service and the token entries.
  - Both implementations are classes that update their fields in place and are proved against that specification:
    - `RegistryService.Registry`, the `Basic` subclass;
    - `RegistryServer.Server`, the standalone duplicate in `registry/server.rb`.
  - Invariant: a service is listed iff it has a provider, and no list holds a duplicate.
  - Quirk kept: `BAI` never deletes the token entry.
- **Registry clients.**
  - `RegistryClient.Client` is the plain REQ client.
  - `ProviderRegistry.Registry` is the Provider subclass. Its calls go through `method_missing`.
  - Both keep a service-to-token cache that changes only on `WELCOME` and `GTFO` replies.
  - The remote side is the received reply, passed in as a parameter.
  - For the Provider subclass, that reply is also composed with the registry model. This shows what actually happens against the real registry.
- **The provider proxy.** `Provider.Provider` parses introspection replies and memoises `protocols`, `commands` and per-command descriptions. It forwards unknown calls under a protocol tag and returns the reply only when the reply's tag matches.
- **The game server (`server.rb`).**
  - `GameRules`: the constants, the compass arithmetic of `relative_direction`, the bounds test and the request checks.
  - `GameState`: the state, the world grid and each command as a function from state to (state, reply).
  - `GameLaws`: the invariant every request keeps, and other properties.
  - `GameServer.Server`: the class whose `array2` world and maps change in place, proved against `GameState`.

Randomness becomes parameters:
- the registry's fresh UUID (`token`);
- the game's fresh UUID;
- the spawn draws, a sequence of in-world cells with at least one free;
- the orientation draw;
- the edge;
- the element `sample` picks.

An exception that escapes a Ruby method is an `Outcomes.Outcome` value, `Raised(class name)`.

Four known defects of `server.rb` are selected by a flag `fixed`: false is the code as written, true is the correction. The provider-registry client uses the same flag, for its two defects (see Findings). Both halves are stated and proved.

Some behaviours of the code that the model keeps:
- `pop` takes the first frame, not the last.
- `BAI` keeps the token entry.
- Provider and service lists keep insertion order.
- `describe` in `basic.rb` always raises, because of the misspelt `paraameters` or an undefined method.
- `describe!` returning nil breaks its `=> Command` contract, so it raises.
- The standalone registry server sends its protocol-mismatch error and then dispatches anyway. Its REP socket refuses the second reply, so `reply` raises a SystemCallError after the directory change, and `listen` ends.
- Calling its one-argument `error` with no argument raises.

## Model

| member | source | states |
|---|---|---|
| Basic.Error | lib/elgame/service/basic.rb:101-109 | an error reply is the preferred protocol, then `WTF`, then the context |
| Basic.PreferredProtocolIsLast | lib/elgame/service/basic.rb:76-79 | the preferred protocol is the class's PROTOCOL when it defines one, else `Service/1.0` |
| Basic.HandleRequest | lib/elgame/service/basic.rb:146-156 | handling a request object gives the outcome the specification function assigns to the frames it held; the request is left as it was with fewer than two frames, loses its tag when the tag is not spoken, and otherwise loses its tag and command |
| Basic.SpeaksIff | lib/elgame/service/basic.rb:121-127 | a tag is spoken iff it equals `Service/1.0` or the class PROTOCOL up to case |
| Basic.HandlesIff | lib/elgame/service/basic.rb:137-144 | a normalised command is handled iff it is one of the advertised commands with `-` replaced by `_` |
| Basic.HandleRejects | lib/elgame/service/basic.rb:146-152 | a request that fails a check gets a `WTF` reply under the preferred protocol; one of fewer than two frames gets "I expected more than that..." |
| Basic.HandleAccepts | lib/elgame/service/basic.rb:146-153 | an accepted request dispatches the normalised command with the remaining frames as arguments |
| Basic.DispatchCrashesOnlyOnDescribe | lib/elgame/service/basic.rb:146-156 | an arity error becomes a `WTF` reply; only a one-argument `describe` lets an exception escape; exactly the non-builtin commands are handed to the subclass |
| Basic.BuiltinHandlerNames | lib/elgame/service/basic.rb:41-45 | the builtin commands normalise to `send_hugz`, `protocols`, `commands`, `describe` |
| Basic.BasicNeverDelegates | lib/elgame/service/basic.rb:146-156 | Basic itself never hands a request to a subclass command |
| Basic.ServicesNamesProtocols | lib/elgame/service/basic.rb:34-39 | the `SERVICES` reply names the part before `/` of each spoken protocol, in order |
| Basic.ProvidesIff | lib/elgame/service/basic.rb:129-135 | `provides?` returns without raising, and holds iff the service is `Service` or the class protocol's name up to case |
| LegacyService.HandleRequest | lib/elgame/service.rb:107-114 | handling a request object gives the outcome of the specification function on its frames; the request is left as it was with fewer than two frames, loses its tag when the tag is not spoken, and otherwise loses its tag and command |
| LegacyService.ShortRequestRejected | lib/elgame/service.rb:107-129 | a request of fewer than two frames gets the error reply under `speaks`; with no `speaks` building that reply raises |
| LegacyService.SpeaksIff | lib/elgame/service.rb:81-84 | a tag is spoken iff it matches an entry of the `PROTOCOLS` reply, i.e. `Service/1.0` or `speaks`, up to case |
| LegacyService.CommandsReply | lib/elgame/service.rb:36-42 | the `COMMANDS` reply is the four builtins, plus `provides` upper-cased when it is set |
| LegacyService.ProvidesIff | lib/elgame/service.rb:91-98 | a command is provided iff it matches a builtin or `provides`, with `-` as `_`, up to case |
| LegacyService.HandleAccepts | lib/elgame/service.rb:107-114 | an accepted request dispatches the normalised command with the remaining frames |
| LegacyService.BaseRejectionsCrash | lib/elgame/service.rb:116-129 | in the base class every rejection raises, since its `speaks` is nil |
| LegacyService.AgreesWithBasic | lib/elgame/service.rb:81-98 | the older class accepts exactly the tags and commands Basic accepts for the same protocol and command |
| Directory.SetAdd | lib/elgame/service/registry.rb:26-27 | adding to a duplicate-free list keeps it duplicate-free, and its members are the old ones plus the new |
| Directory.Remove | lib/elgame/service/registry.rb:38-39 | removal leaves exactly the other members, keeps the list duplicate-free, and is a no-op for a non-member |
| Directory.EmptyValid | lib/elgame/service/registry.rb:59-67 | the empty directory satisfies the invariant |
| Directory.ListedIff | lib/elgame/service/registry.rb:26-39 | under the invariant, a service is listed iff its provider list is non-empty |
| Directory.OhaiPreservesValid | lib/elgame/service/registry.rb:21-31 | `ohai` keeps the invariant |
| Directory.BaiPreservesValid | lib/elgame/service/registry.rb:33-41 | `bai` keeps the invariant |
| Directory.OhaiWelcomesNew | lib/elgame/service/registry.rb:26-30 | a new provider is appended under the upper-cased service; the service is listed; the token maps to the pair; other services are untouched; the reply is `WELCOME token` |
| Directory.OhaiWelcomesBack | lib/elgame/service/registry.rb:24-25 | a known provider gets `WELCOME-BACK`, and nothing changes |
| Directory.OhaiIdempotent | lib/elgame/service/registry.rb:22-25 | a second `ohai` of the same pair, in any case, gets `WELCOME-BACK` and changes nothing |
| Directory.BaiUnknown | lib/elgame/service/registry.rb:35 | `bai` of an unknown token replies `GTFO` and changes nothing |
| Directory.BaiKnown | lib/elgame/service/registry.rb:37-40 | `bai` of a known token replies `GTFO`, removes that provider only, unlists an emptied service, and keeps every token entry |
| Directory.OhaiThenBaiRestores | lib/elgame/service/registry.rb:21-41 | registering then deregistering restores the services and providers; the token entry remains |
| Directory.StaleTokenEvicts | lib/elgame/service/registry.rb:33-41 | a replay of an old token removes a provider that has since re-registered under a new token |
| Directory.ReRegistered | lib/elgame/service/registry.rb:21-41 | after register, deregister and register again, the provider is listed and both tokens map to it |
| Directory.BaiDrops | lib/elgame/service/registry.rb:37-38 | after `bai` of a known token its provider is no longer listed for its service |
| Directory.WhoDoesLists | lib/elgame/service/registry.rb:48-51 | the `PROVIDERS` reply lists exactly the providers of the upper-cased service |
| Directory.WhoDoesIgnoresCase | lib/elgame/service/registry.rb:48-51 | `who_does` gives the same reply for service names equal up to case |
| Directory.OhaiThenWhoDoes | lib/elgame/service/registry.rb:21-51 | after `ohai`, `who_does` of the service lists the provider |
| Directory.AllTheThingsListsProvided | lib/elgame/service/registry.rb:43-46 | `all_the_things` lists a service iff it has a provider, without duplicates |
| RegistryService.Registry.constructor | lib/elgame/service/registry.rb:59-77 | a new registry holds the empty directory, which is valid |
| RegistryService.Registry.ProvidersOf | lib/elgame/service/registry.rb:69-72 | `providers(service)` is the stored list, or empty |
| RegistryService.Registry.Ohai | lib/elgame/service/registry.rb:21-31 | an empty argument gets the context-free error and changes nothing; otherwise the new state and reply are the directory's `ohai`; the directory invariant is kept |
| RegistryService.Registry.Bai | lib/elgame/service/registry.rb:33-41 | the new state and reply are the directory's `bai`; the directory invariant is kept |
| RegistryService.Registry.WhoDoes | lib/elgame/service/registry.rb:48-51 | the reply is the directory's `who_does` |
| RegistryService.Registry.AllTheThings | lib/elgame/service/registry.rb:43-46 | the reply is the directory's `all_the_things` |
| RegistryService.Registry.Handle | lib/elgame/service/basic.rb:146-156 | handling a request object gives the outcome and new state of the specification on its frames, and keeps the directory invariant; the request's frames are popped as in Basic.HandleRequest |
| RegistryService.ServePreservesValid | lib/elgame/service/registry.rb:21-41 | every request keeps the directory invariant |
| RegistryService.RegistryHandlerNames | lib/elgame/service/registry.rb:15-19 | the registry handles the four builtins and its four own commands, normalised |
| RegistryService.ServeRoutes | lib/elgame/service/basic.rb:146-153 | a request under the registry tag for one of the four commands reaches that command with the remaining frames |
| RegistryService.OnlyOhaiAndBaiWrite | lib/elgame/service/registry.rb:21-51 | a request that changes the directory was accepted and was `ohai` or `bai` |
| RegistryService.EmptyOhaiRejected | lib/elgame/service/registry.rb:21-23 | `ohai` with an empty argument replies `WTF` with an empty context and changes nothing |
| RegistryService.WrongArityRejected | lib/elgame/service/basic.rb:153-155 | a registry command with a wrong number of arguments gets a `WTF` reply and changes nothing |
| RegistryServer.Server.constructor | lib/elgame/service/registry/server.rb:99-122 | a new server holds the empty directory, which is valid |
| RegistryServer.Server.ProvidersOf | lib/elgame/service/registry/server.rb:109-112 | `providers(service)` is the stored list, or empty |
| RegistryServer.Server.Ohai | lib/elgame/service/registry/server.rb:19-29 | an empty argument raises an ArgumentError and changes nothing; otherwise it acts as the directory's `ohai`; the directory invariant is kept |
| RegistryServer.Server.Bai | lib/elgame/service/registry/server.rb:31-39 | the new state and reply are the directory's `bai`; the directory invariant is kept |
| RegistryServer.Server.WhoDoes | lib/elgame/service/registry/server.rb:46-49 | the reply is the directory's `who_does` |
| RegistryServer.Server.AllTheThings | lib/elgame/service/registry/server.rb:41-44 | the reply is the directory's `all_the_things` |
| RegistryServer.Server.Handle | lib/elgame/service/registry/server.rb:87-92 | handling a request object gives exactly the messages delivered, the exception raised (a SystemCallError from the second `reply` after a protocol mismatch) and the state of the specification, keeping the directory invariant; the request ends as its command's method name followed by the arguments, or empty when it had fewer than two frames |
| RegistryServer.ServePreservesValid | lib/elgame/service/registry/server.rb:19-39 | every request keeps the directory invariant |
| RegistryServer.MismatchStillDispatches | lib/elgame/service/registry/server.rb:88-91 | under a wrong tag, `Unsupported Protocol` is the only reply delivered; the request is then served as if the tag were right and its change made to the directory, and the call ends with the dispatch's exception or, when the dispatch returns a message, with the SystemCallError that the second `reply` raises on the REP socket |
| RegistryServer.SendKeepsSent | lib/elgame/service/registry/server.rb:87-92 | dispatch only appends to what was already sent |
| RegistryServer.OneReplyUnderRightTag | lib/elgame/service/registry/server.rb:87-92 | under the right tag, at most one reply is sent, and exactly one unless an exception escapes |
| RegistryServer.EmptyOhaiRaises | lib/elgame/service/registry/server.rb:19-21 | `ohai` with an empty argument sends nothing, raises an ArgumentError and changes nothing |
| RegistryServer.ErrorIsReachable | lib/elgame/service/registry/server.rb:83-91 | the private `error` is reachable as a command and echoes its argument |
| RegistryServer.ServersAgree | lib/elgame/service/registry/server.rb:19-49 | on well-formed requests the standalone server sends exactly the one reply and reaches the state of the Basic-based registry |
| RegistryClient.Sample | lib/elgame/service/registry/client.rb:57-60 | the sample is nil iff the list is empty, and is otherwise a member |
| RegistryClient.Client.constructor | lib/elgame/service/registry/client.rb:94-97 | the token cache starts empty |
| RegistryClient.Client.Registered | lib/elgame/service/registry/client.rb:17-20 | `registered?` iff some service has a cached token |
| RegistryClient.Client.ReadReply | lib/elgame/service/registry/client.rb:114-124 | `reply` pops the tag and yields the rest only under the registry tag |
| RegistryClient.Client.Register | lib/elgame/service/registry/client.rb:22-27 | it sends `OHAI service provider`; it caches and returns the token only on `WELCOME`, and otherwise keeps the cache |
| RegistryClient.Client.Deregister | lib/elgame/service/registry/client.rb:29-35 | with no cached token it sends nothing; otherwise it sends `BAI token`, and deletes and returns the token only on `GTFO` |
| RegistryClient.Client.Services | lib/elgame/service/registry/client.rb:37-43 | it sends `ALL-THE-THINGS` and returns the frames after `SERVICES`, or none |
| RegistryClient.Client.Providers | lib/elgame/service/registry/client.rb:50-55 | it sends `WHO-DOES service` and returns the frames after `PROVIDERS`, or none |
| RegistryClient.Client.Provider | lib/elgame/service/registry/client.rb:57-60 | the result is nil iff no provider is listed, and is otherwise a listed provider |
| RegistryClient.Client.ReadListing | lib/elgame/service/registry/client.rb:50-55 | a listing reply is read as the listing function states |
| RegistryClient.RegistrationIff | lib/elgame/service/registry/client.rb:22-27 | registration yields a token iff the reply is the registry tag, `WELCOME` and that token |
| RegistryClient.ForeignReplyIgnored | lib/elgame/service/registry/client.rb:114-124 | a reply under another tag is dropped, and each reader then raises NoMethodError |
| RegistryClient.ListingIff | lib/elgame/service/registry/client.rb:37-55 | a listing yields a non-empty list iff the reply is the registry tag, the header and exactly that list |
| Provider.Provider.constructor | lib/elgame/service/provider.rb:14-17 | a new proxy has no memoised protocols, commands or descriptions |
| Provider.Provider.Protocols | lib/elgame/service/provider.rb:20-22 | `protocols` asks only when nothing is memoised, memoises any result, and leaves the other memos alone |
| Provider.Provider.Commands | lib/elgame/service/provider.rb:24-26 | `commands` asks only when nothing is memoised, memoises any result, and leaves the other memos alone |
| Provider.Provider.ReadList | lib/elgame/service/provider.rb:49-55 | a list reply is read as the list-reply function states |
| Provider.Provider.Describe | lib/elgame/service/provider.rb:28-31 | `describe` is memoised under the capitalised command name, and asks only when that key is absent |
| Provider.Provider.Healthy | lib/elgame/service/provider.rb:73-78 | it sends `SEND-HUGZ` and reads the reply as the health function states |
| Provider.Provider.Available | lib/elgame/service/provider.rb:33-36 | it asks for hugs only when the socket is writable |
| Provider.Provider.MethodMissing | lib/elgame/service/provider.rb:104-111 | a forwarded call acts as the call function states, filling the command memo and nothing else |
| Provider.ListReplyIff | lib/elgame/service/provider.rb:49-63 | a list reply yields a non-empty list iff it is `Service/1.0`, the header and exactly that list |
| Provider.FetchedOnce | lib/elgame/service/provider.rb:20-26 | once a memoised fetch has returned, a later one sends nothing and returns the same value |
| Provider.DescribedOnce | lib/elgame/service/provider.rb:28-31 | once a description is cached, describing a command with the same capitalised name sends nothing and returns it |
| Provider.CallRepliesIff | lib/elgame/service/provider.rb:100-111 | a forwarded call returns a message iff the remote commands include the name and the reply carries the protocol sent, and it returns that reply without its tag |
| Provider.HyphenatedNamesNeedTranslation | lib/elgame/service/provider.rb:100-102 | the method name of a hyphenated command never matches it as written, and does once `-` is translated |
| Provider.ProtocolsRoundTrip | lib/elgame/service/provider.rb:50-55 | `protocols!` on Basic's `PROTOCOLS` reply yields `Service/1.0` followed by the class PROTOCOL, if any |
| Provider.CommandsRoundTrip | lib/elgame/service/provider.rb:58-63 | `commands!` on Basic's `COMMANDS` reply yields the builtins followed by the class's own commands |
| Provider.HealthyOnHugz | lib/elgame/service/provider.rb:73-78 | `healthy?` holds on the skeleton's `send_hugz` reply |
| Provider.LegacyProtocolsRoundTrip | lib/elgame/service/provider.rb:50-55 | `protocols!` on the older service's reply yields `Service/1.0` followed by `speaks`, if any |
| ProviderRegistry.Registry.constructor | lib/elgame/service/provider/registry.rb:58-61 | a new client has empty memos and an empty token cache |
| ProviderRegistry.Registry.Registered | lib/elgame/service/provider/registry.rb:12-15 | `registered?` iff some service has a cached token |
| ProviderRegistry.Registry.Register | lib/elgame/service/provider/registry.rb:17-22 | the messages sent, the result, the command memo and the cache are those of the registration function |
| ProviderRegistry.Registry.Deregister | lib/elgame/service/provider/registry.rb:24-30 | the messages sent, the result, the command memo and the cache are those of the deregistration function |
| ProviderRegistry.DeregistrationDeletesOnGtfo | lib/elgame/service/provider/registry.rb:24-30 | with no cached token nothing is sent; with one, `bai` is forwarded and the cache loses exactly that service iff the reply comes back under the tag sent and says `GTFO`, the token then being returned |
| ProviderRegistry.Registry.List | lib/elgame/service/provider/registry.rb:32-49 | a listing call acts as the listing function states, touching only the command memo |
| ProviderRegistry.Registry.Services | lib/elgame/service/provider/registry.rb:32-37 | `services` is the listing of `all_the_things` under `SERVICES` |
| ProviderRegistry.Registry.Providers | lib/elgame/service/provider/registry.rb:44-49 | `providers(service)` is the listing of `who_does service` under `PROVIDERS` |
| ProviderRegistry.Registry.Provider | lib/elgame/service/provider/registry.rb:51-54 | the result is nil iff the listing is empty, and is otherwise a listed provider; a raised listing raises; only the command memo may change, the protocol and description memos are kept |
| ProviderRegistry.RegistryAnswersCommands | lib/elgame/service/registry.rb:15-19 | the registry answers the proxy's `COMMANDS` request with its eight commands and changes nothing |
| ProviderRegistry.RegistryCommandsRead | lib/elgame/service/provider.rb:58-63 | `commands!` reads the registry's reply as its eight commands |
| ProviderRegistry.FixedCall | lib/elgame/service/provider.rb:104-111 | with translation and the registry tag, a call fetches the commands, sends one request and returns the reply without its tag |
| ProviderRegistry.DefaultTagRefused | lib/elgame/service/provider.rb:107-110 | the registry refuses a call under a default `<name>/1.0` tag that is neither `Service/1.0` nor `Registry/1.1` up to case, leaves its state unchanged, and the proxy drops its reply |
| ProviderRegistry.RegistryCallTagsUnspoken | lib/elgame/service/provider.rb:107 | the default tags of `ohai`, `bai`, `who_does` and `all_the_things` are none the registry speaks |
| ProviderRegistry.LookupAsWritten | lib/elgame/service/provider.rb:100-102 | as written, `ohai` and `bai` match the registry's commands but `who_does` and `all_the_things` do not |
| ProviderRegistry.LookupTranslated | lib/elgame/service/provider.rb:100-102 | with `-` translated, all four registry commands match |
| ProviderRegistry.RegisterFailsAsWritten | lib/elgame/service/provider/registry.rb:17-22 | as written, registering with the real registry sends `ohai` under `ohai/1.0`, raises NoMethodError and caches nothing |
| ProviderRegistry.RegistrationRefused | lib/elgame/service/provider/registry.rb:19-20 | a dropped registration reply raises NoMethodError and caches nothing |
| ProviderRegistry.RegisterWelcomesWhenFixed | lib/elgame/service/provider/registry.rb:17-22 | corrected, registering a new provider with the real registry returns and caches the token the registry filed |
| ProviderRegistry.RegistrationWelcomed | lib/elgame/service/provider/registry.rb:19-21 | corrected, a `WELCOME token` reply is returned and cached under the service |
| ProviderRegistry.FixedOhaiServed | lib/elgame/service/registry.rb:21-31 | the registry welcomes a new provider under the fresh token and files it |
| ProviderRegistry.ServicesFailAsWritten | lib/elgame/service/provider/registry.rb:32-37 | as written, `services` sends only the commands request and raises NoMethodError |
| ProviderRegistry.ServicesListedWhenFixed | lib/elgame/service/provider/registry.rb:32-37 | corrected, `services` against the real registry returns exactly the registry's services and changes nothing |
| ProviderRegistry.ProvidersListedWhenFixed | lib/elgame/service/provider/registry.rb:44-49 | corrected, `providers(service)` against the real registry returns exactly the providers of the upper-cased service |
| ProviderRegistry.ListedWhenFixed | lib/elgame/service/provider/registry.rb:32-49 | a corrected listing reads the items after the header of a registry reply |
| ProviderRegistry.ServicesServed | lib/elgame/service/registry.rb:43-46 | the registry answers `all_the_things` with its services and changes nothing |
| ProviderRegistry.ProvidersServed | lib/elgame/service/registry.rb:48-51 | the registry answers `who_does` with the providers of the upper-cased service and changes nothing |
| GameRules.Offset | server.rb:19-24 | each direction's offset lies between -2 and 1 |
| GameRules.OrientationIndex | server.rb:292-299 | the index found is the orientation's position among the four |
| GameRules.CompassIndex | server.rb:292-299 | the compass index stays within the 12-entry cycle |
| GameRules.RelativeDirection | server.rb:292-299 | turning always gives one of the four orientations |
| GameRules.RelativeDirectionRotates | server.rb:292-299 | turning adds the offset to the orientation's index modulo four |
| GameRules.Turns | server.rb:292-299 | FORWARD keeps the orientation, RIGHT turns clockwise, LEFT anticlockwise and BACKWARD about |
| GameRules.TurnsUndo | server.rb:292-299 | LEFT undoes RIGHT, and BACKWARD twice comes back |
| GameRules.StepsAreUnits | server.rb:31-36 | every move is one unit step on one axis, and turning about reverses it |
| GameRules.RecognizedHandlers | server.rb:48-52 | a recognised command is sent to one of the seven handler methods |
| GameRules.ValidDirectionAcceptsAll | server.rb:303-306 | as written, `valid_direction?` accepts every string |
| GameRules.ValidDirectionFixedIff | server.rb:303-306 | the corrected check accepts exactly the four directions, in any case |
| GameRules.AdvertisedCommandsRecognized | server.rb:73-76 | each advertised command is recognised and sent to the handler of the same position |
| GameRules.RoleKeys | server.rb:78-82 | an accepted role down-cases to `actors` or `observers`, matching its upper-case form |
| GameState.SetCell | server.rb:267 | assigning a cell changes that cell and no other |
| GameState.Position | server.rb:245-251 | a valid token's position is in the world, and the token stands there |
| GameState.Orientation | server.rb:278-289 | the orientation is one of the four; a stored one is kept; otherwise the draw is stored; nothing else changes |
| GameState.Face | server.rb:142 | turning stores the orientation, and yields a heading iff the direction is one of the four up to case |
| GameState.AddTo | server.rb:232-237 | `add_to` appends the token to the list under the role given and leaves the other lists |
| GameState.Place | server.rb:253-259 | `position!` succeeds iff the cell is empty, and then records the position and puts the token alone there |
| GameState.SpawnFrom | server.rb:271-276 | `spawn!` places the token on the first free cell of the draws, passing over the occupied ones |
| GameState.Without | server.rb:267 | `- [token]` leaves exactly the other entries |
| GameState.Uniq | server.rb:149 | `uniq` keeps the same members, each once |
| GameState.RolesIn | server.rb:149 | the role list has one role text per occupant, in order |
| GameState.Initial | server.rb:207-230 | a new server satisfies the invariant and has no valid tokens |
| GameLaws.PlaceKeepsOthers | server.rb:253-259 | `position!` on a free cell places its token alone there and moves nobody else |
| GameLaws.AddToKeepsOthers | server.rb:232-237 | `add_to` keeps every other valid token placed |
| GameLaws.PlaceCompletes | server.rb:253-259 | placing the one unplaced token restores the invariant |
| GameLaws.EnrolPlaces | server.rb:84-91 | `add_to` then `spawn!` keeps the invariant, and the token stands alone on a cell that was free |
| GameLaws.JoinPreservesInv | server.rb:84-91 | `join` keeps the invariant, as written and corrected; the draws need a free cell only for an accepted role |
| GameLaws.RepositionMoves | server.rb:261-269 | a successful `reposition!` puts the token alone on the target, takes it off its old cell, keeps the invariant and moves nobody else |
| GameLaws.TravelMoves | server.rb:129-135 | on OK the token stands alone `n` steps along its new heading, off its old cell, with everyone else in place; otherwise only the orientation changed |
| GameLaws.MovePreservesInv | server.rb:115-136 | `move` keeps the invariant |
| GameLaws.HandlePreservesInv | server.rb:48-57 | every request keeps the invariant, on a full world too; the draws need a free cell only for a join that spawns |
| GameLaws.OnlyJoinDraws | server.rb:84-91 | every request other than a join with an accepted role is answered alike whatever the spawn draws |
| GameLaws.CommandsAreHandled | server.rb:48-76 | the commands advertised are exactly the recognised ones, each with its own handler |
| GameLaws.MoveSucceeds | server.rb:115-131 | an OK move had a valid token and a distance within its role's limit: 1 for an actor, 2 for an observer |
| Text.ToIDecimalPrefix | server.rb:117 | `to_i` reads past a `0d` or `0D` prefix after an optional sign, giving the value of the digits that follow |
| GameLaws.PrefixedDistance | server.rb:117 | a distance frame of `0d1` is read as a distance of 1 |
| GameLaws.TravelSteps | server.rb:129-131 | a move in one of the four directions tries the cell `n` steps along the turned heading |
| GameLaws.ImpactMatchesSensed | server.rb:93-151 | an attack hits iff the same cell feels like something not intangible |
| GameLaws.StrikeMatchesTouch | server.rb:93-151 | `attack` and `feel` turn alike, and the attack hits iff the feel reports something not intangible |
| GameLaws.FacedActs | server.rb:93-151 | facing a valid direction, `attack` reports the impact and `feel` what it senses |
| GameLaws.AttackMatchesFeel | server.rb:93-151 | for a valid token and a real direction, `attack` and `feel` pass their checks, as written and corrected |
| GameLaws.OrientationKept | server.rb:278-284 | the orientation is drawn once; later draws are ignored |
| GameLaws.JoinCaseAsWritten | server.rb:84-91 | as written, joining as e.g. `ACTORS` is welcomed but the token is not valid and no list shows it |
| GameLaws.JoinCaseExample | server.rb:84-91 | `ACTORS` is a role that shows the join defect |
| GameLaws.JoinFixedValid | server.rb:84-91 | corrected, a join in any case makes the token valid with its role, lists it last, and places it alone on a free cell |
| GameLaws.AttackInvalidTokenAsWritten | server.rb:93-95 | as written, an attack with an unknown token is answered "Not Implemented", on any world |
| GameLaws.AttackInvalidTokenFixed | server.rb:93-95 | corrected, it is answered "Invalid Token", as `feel` answers it, on any world |
| GameLaws.AttackRouted | server.rb:48-57 | an `ATTACK` request reaches `attack` with its two arguments, on any world |
| GameLaws.FeelRouted | server.rb:48-57 | a `FEEL` request reaches `feel` with its two arguments, on any world |
| GameState.InvalidDirectionCall | server.rb:96 | as written the call raises NameError; corrected it returns the "Invalid Direction" rejection |
| GameLaws.InvalidDirectionEscapes | server.rb:53-56 | as written, the failing direction check of `attack` raises a NameError that `handle` does not rescue, and "UP" passes the as-written check but not the corrected one |
| GameLaws.UnknownDirectionAsWritten | server.rb:303-306 | as written, an unknown direction still stores an orientation and is answered with a contract violation |
| GameLaws.UnknownDirectionFixed | server.rb:303-306 | corrected, an unknown direction is answered "Invalid Direction" and changes nothing; `attack` answers it through the corrected `invalid_direction!` |
| GameServer.Server.constructor | server.rb:207-230 | a new server holds the initial state and satisfies the invariant |
| GameServer.Server.SetWorld | server.rb:267 | assigning a cell in place changes state exactly as `SetCell` does |
| GameServer.Server.PlaceToken | server.rb:253-259 | `position!` in place succeeds and changes state exactly as `Place` does |
| GameServer.Server.Spawn | server.rb:271-276 | the retrying loop ends in the state `Spawn` gives |
| GameServer.Server.Orientation | server.rb:278-289 | the orientation and new state are those of `Orientation` |
| GameServer.Server.Reposition | server.rb:261-269 | `reposition!` in place succeeds and changes state exactly as `Reposition` does |
| GameServer.Server.List | server.rb:78-82 | the reply is `List` of the current state |
| GameServer.Server.Join | server.rb:84-91 | the new state and reply are `Join`'s, and the invariant holds; the draws need a free cell only for an accepted role |
| GameServer.Server.Move | server.rb:115-136 | the new state and reply are `Move`'s, and the invariant holds |
| GameServer.Server.Travel | server.rb:129-135 | the new state and reply are `Travel`'s, and the invariant holds |
| GameServer.Server.Attack | server.rb:93-113 | the new state and reply are `Attack`'s, and the invariant holds |
| GameServer.Server.Strike | server.rb:98-112 | the new state and reply are `Strike`'s, and the invariant holds |
| GameServer.Server.Feel | server.rb:138-151 | the new state and reply are `Feel`'s, and the invariant holds |
| GameServer.Server.Touch | server.rb:142-150 | the new state and reply are `Touch`'s, and the invariant holds |
| GameServer.Server.Handle | server.rb:48-57 | the new state and reply are `Handle`'s, and the invariant holds; the draws need a free cell only for a join that spawns |

## Left out

- Sockets, `listen` loops, `request`/`reply` transport, endpoints, addresses, ports and `puts`/`p` logging: these are I/O. Each operation takes the message it would receive as a parameter and returns the messages it would send.
- `describe` and `original` reflection in `basic.rb` and `service.rb`: reflection is not modelled. In `basic.rb` dispatch `describe` with one argument raises a NameError, since `paraameters` is misspelt. In `service.rb` `describe` is handed on like a subclass command.
- `public_send`/`send`: these are an explicit command table.
  - In `registry/server.rb`, `send` is modelled for the four commands, `error`, `message`, the value helpers (`protocol`, `address`, `services`, `providers`, `tokens`), and `reply` and `handle`, whose message contracts raise a ContractError (an ArgumentError) on string arguments. Any other name is taken to raise NoMethodError. In Ruby, `send` could also reach `socket`, `request`, `listen` and the methods every object inherits.
  - RegistryServer.ServePreservesValid holds only over the modelled names: an inherited method such as `instance_variable_set` or `instance_eval`, reached through `send`, could replace `@services` or `@providers` and break the invariant.
- Randomness (`SecureRandom.uuid`, `sample`, `rand`, `%w(WALL VOID).sample`, `ORIENTATIONS.sample`): the draw is a parameter. Only a join with an accepted role spawns, and only it requires that the draws include a free cell, which a full world cannot give. In Ruby, `spawn!` (server.rb:271-276) on a full world calls itself with new draws without end, until a SystemStackError, which `handle` does not rescue; the model does not capture that crash.
- `server.rb` `display` and the `pry` console of `jack_in`: these are I/O. `jack_in` replies `DONE`.
  - `display` draws the world on STDERR, and can also draw an orientation.
  - `listen` calls `display` after every request, outside the rescue of `handle`. For a token in the world with no role, `display` calls `each_char` on nil. The NoMethodError ends the server.
  - As written, every join under a role not in lower case leaves such a token in the world, so the real server stops right after sending `WELCOME`. The model goes on serving from that state.
- The no-argument `providers` hash of both registry clients: it is one `providers(service)` call per listed service, with I/O in between.
- `lib/elgame/service/registered.rb`, client.rb, keyboard.rb and bridge-nanomsg.rb are not part of this model. They are glue and terminal or socket I/O.
- Moneta stores and the Contracts gem:
  - The stores are Dafny maps.
  - A contract failure is an ArgumentError whose text is abstracted to `CONTRACT_VIOLATION`.
  - The game's single store is three maps: role lists, positions and orientations.
- Case folding, `casecmp` and `capitalize` cover ASCII letters only. Ruby's `upcase`/`downcase` also fold other Unicode letters.
- `available?`: the socket's writability is a parameter.
- The standalone registry server's REP socket (lib/elgame/service/registry/server.rb:75) is not modelled as an object, but its one-reply-per-request rule is: after the `Unsupported Protocol` reply, the second `reply` raises a SystemCallError, which `handle` and `listen` (lib/elgame/service/registry/server.rb:51-53) do not rescue, so the server stops after the directory change. `Exchange.raised` names that exception; the ending of `listen` itself is not modelled.
- Basic.Provides: it is `provides?` over Basic's own `services`. The registry service overrides `services` with its set of registered services, and `provides?` on the registry is not modelled; it is a Ruby method no request reaches.
- GameState.Position: the `spawn!` fallback of `position` is unreachable there, because the invariant places every valid token.
- The world's width and height are `nat`. The options could give any number.
- GameLaws.UnknownDirectionAsWritten: it requires a distance of 1, so that no role limit on the distance applies first.
- RegistryClient.Client.Register: a `WELCOME` reply with no token stores nil under the service in Ruby. The model returns nil and leaves the cache unchanged.
- ProviderRegistry.Registry.Register: the same case, a `WELCOME` reply with no token, which Ruby stores as nil.

## Findings

| source | as written | input that shows it | evidently intended | confidence | as-written member | corrected member |
|---|---|---|---|---|---|---|
| lib/elgame/service/provider/registry.rb:19 | `ohai` goes through `method_missing` under the default tag `ohai/1.0`, which the registry does not speak; its `WTF` reply carries another tag and is dropped, and `pop` on nil raises | `register!("game", "tcp://a:1")` against the registry service | `ohai` sent under `Registry/1.1`, returning `WELCOME token` | not executed | ProviderRegistry.RegisterFailsAsWritten | ProviderRegistry.RegisterWelcomesWhenFixed |
| lib/elgame/service/provider.rb:101 | `respond_to_missing?` compares `all_the_things` with `ALL-THE-THINGS` without translating `-`, so `services` and `providers` never reach the registry and raise NoMethodError | `services` against the registry service | hyphenated commands matched after `tr('-', '_')`, listing the registry's services | not executed | ProviderRegistry.ServicesFailAsWritten | ProviderRegistry.ServicesListedWhenFixed |
| server.rb:88 | `join` files the token under the role as given, but `valid?`, `role` and `list` read the down-cased keys. The token still stands in the world with no role, and the next `display` (server.rb:163) raises NoMethodError on it, ending `listen`; the model does not capture that crash | `JOIN ACTORS` | the token filed under `actors`, valid and listed | not executed | GameLaws.JoinCaseAsWritten | GameLaws.JoinFixedValid |
| server.rb:95 | `attack` calls the undefined `invald_token!`; the NoMethodError is answered `Not Implemented` | `ATTACK unknown-token FORWARD` | `Invalid Token`, as `move` and `feel` answer | not executed | GameLaws.AttackInvalidTokenAsWritten | GameLaws.AttackInvalidTokenFixed |
| server.rb:96 | `attack` calls `invalid_direction`, which names no method or local variable; the NameError is not among the exceptions `handle` rescues, so it ends `listen`. Only the defect at server.rb:305 keeps the line unreached | `ATTACK token UP` once `valid_direction?` is corrected | `invalid_direction!`, answering `Invalid Direction` | not executed | GameLaws.InvalidDirectionEscapes | GameLaws.UnknownDirectionFixed |
| server.rb:305 | `valid_direction?` treats the Integer `casecmp` returns as true, so every direction passes and an unknown one fails later on the Direction contract | `MOVE token UP` | `casecmp(direction).zero?`, answering `Invalid Direction` | not executed | GameLaws.UnknownDirectionAsWritten | GameLaws.UnknownDirectionFixed |
