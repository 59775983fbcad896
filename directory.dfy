/** The service directory both registry implementations keep (lib/elgame/service/registry.rb and
    lib/elgame/service/registry/server.rb run the same `ohai`/`bai`/`who_does`/`all_the_things`):
    the set of listed services, the provider set of each service, and the token issued for each
    registration. Ruby's Set keeps insertion order, so each set is a sequence without repeats.
    Both classes reply under the tag `Registry/1.1`. */
module Directory {
  import opened Outcomes
  import opened Text
  import opened Frames

  const REGISTRY_PROTOCOL := "Registry/1.1"

  /** What a token stands for: the (upper-cased) service and the provider it registered. */
  datatype Entry = Entry(service: string, provider: string)

  /** `@services`, `@providers` (service to provider set) and `@tokens` (token to entry). */
  datatype DirState = DirState(services: seq<string>, providers: map<string, seq<string>>, tokens: map<string, Entry>)

  const EMPTY := DirState([], map[], map[])

  /** The state after a command and the reply to it. */
  datatype Step = Step(state: DirState, reply: Message)

  predicate NoDup<T(==)>(xs: seq<T>) {
    forall i, j :: 0 <= i < j < |xs| ==> xs[i] != xs[j]
  }

  /** `set << x`. */
  function SetAdd(xs: seq<string>, x: string): (r: seq<string>)
    ensures NoDup(xs) ==> NoDup(r)
    ensures forall y :: y in r <==> y in xs || y == x
  {
    if x in xs then xs else xs + [x]
  }

  /** `set - [x]` and `set.delete(x)`: every occurrence of `x` removed, the order of the rest kept. */
  function Remove(xs: seq<string>, x: string): (r: seq<string>)
    ensures forall y :: y in r <==> y in xs && y != x
    ensures NoDup(xs) ==> NoDup(r)
    ensures x !in xs ==> r == xs
  {
    if xs == [] then []
    else
      var rest := Remove(xs[1..], x);
      if xs[0] == x then rest
      else
        assert NoDup(xs) ==> xs[0] !in xs[1..] by {
          assert forall k :: 0 <= k < |xs| - 1 ==> xs[1..][k] == xs[k + 1];
        }
        [xs[0]] + rest
  }

  /** `providers(service)`: the stored set, or an empty one. */
  function ProvidersOf(st: DirState, service: string): seq<string> {
    if service in st.providers then st.providers[service] else []
  }

  /** The directory invariant: no service listed twice, no provider twice in a set, every
      service listed iff its provider set is non-empty, and every service name upper-cased. */
  predicate Valid(st: DirState) {
    && NoDup(st.services)
    && (forall s :: s in st.services ==> ProvidersOf(st, s) != [] && Upper(s) == s)
    && (forall s :: s in st.providers ==> NoDup(st.providers[s]) && (st.providers[s] != [] ==> s in st.services))
    && (forall t :: t in st.tokens ==> Upper(st.tokens[t].service) == st.tokens[t].service)
  }

  function Reply(frames: seq<string>): Message {
    [REGISTRY_PROTOCOL] + frames
  }

  /** `ohai(service, provider)` once both arguments are known to be non-empty: the service is
      upper-cased; a provider already in its set is welcomed back; otherwise it joins the set,
      the service is listed and `token` (the fresh UUID) is issued for the pair. */
  function Ohai(st: DirState, service: string, provider: string, token: string): Step {
    var s := Upper(service);
    var ps := ProvidersOf(st, s);
    if provider in ps then Step(st, Reply(["WELCOME-BACK"]))
    else
      Step(DirState(SetAdd(st.services, s), st.providers[s := SetAdd(ps, provider)], st.tokens[token := Entry(s, provider)]),
           Reply(["WELCOME", token]))
  }

  /** `bai(token)`: a known token's provider leaves its service's set, and the service is no
      longer listed once that set is empty. The token entry is kept. The reply is always GTFO. */
  function Bai(st: DirState, token: string): Step {
    if token !in st.tokens then Step(st, Reply(["GTFO"]))
    else
      var e := st.tokens[token];
      var ps := Remove(ProvidersOf(st, e.service), e.provider);
      Step(DirState(if ps == [] then Remove(st.services, e.service) else st.services,
                    st.providers[e.service := ps], st.tokens),
           Reply(["GTFO"]))
  }

  /** `who_does(service)`. */
  function WhoDoes(st: DirState, service: string): Message {
    Reply(["PROVIDERS"] + ProvidersOf(st, Upper(service)))
  }

  /** `all_the_things`. */
  function AllTheThings(st: DirState): Message {
    Reply(["SERVICES"] + st.services)
  }

  // ---------------------------------------------------------------- properties

  lemma EmptyValid()
    ensures Valid(EMPTY)
  {
  }

  /** In a valid directory a service is listed iff somebody provides it. */
  lemma ListedIff(st: DirState, service: string)
    requires Valid(st)
    ensures service in st.services <==> ProvidersOf(st, service) != []
  {
  }

  lemma OhaiPreservesValid(st: DirState, service: string, provider: string, token: string)
    requires Valid(st)
    ensures Valid(Ohai(st, service, provider, token).state)
  {
    var s := Upper(service);
    UpperIdempotent(service);
    var st' := Ohai(st, service, provider, token).state;
    if provider !in ProvidersOf(st, s) {
      forall x | x in st'.services
        ensures ProvidersOf(st', x) != [] && Upper(x) == x
      {
        if x != s {
          assert x in st.services;
        }
      }
    }
  }

  lemma BaiPreservesValid(st: DirState, token: string)
    requires Valid(st)
    ensures Valid(Bai(st, token).state)
  {
    if token in st.tokens {
      var e := st.tokens[token];
      var st' := Bai(st, token).state;
      forall x | x in st'.services
        ensures ProvidersOf(st', x) != [] && Upper(x) == x
      {
        assert x in st.services;
      }
      forall x | x in st'.providers
        ensures NoDup(st'.providers[x]) && (st'.providers[x] != [] ==> x in st'.services)
      {
        if x != e.service {
          assert x in st.providers;
          if st'.providers[x] != [] {
            assert x in st.services;
          }
        }
      }
    }
  }

  /** A new provider is welcomed with the fresh token and the pair is recorded; the other
      services are untouched. */
  lemma OhaiWelcomesNew(st: DirState, service: string, provider: string, token: string)
    requires provider !in ProvidersOf(st, Upper(service))
    ensures Ohai(st, service, provider, token).reply == [REGISTRY_PROTOCOL, "WELCOME", token]
    ensures var st' := Ohai(st, service, provider, token).state;
      && ProvidersOf(st', Upper(service)) == ProvidersOf(st, Upper(service)) + [provider]
      && Upper(service) in st'.services
      && st'.tokens == st.tokens[token := Entry(Upper(service), provider)]
      && (forall x :: x != Upper(service) ==> ProvidersOf(st', x) == ProvidersOf(st, x))
  {
  }

  /** A provider already in the set is welcomed back: no token, no change. */
  lemma OhaiWelcomesBack(st: DirState, service: string, provider: string, token: string)
    requires provider in ProvidersOf(st, Upper(service))
    ensures Ohai(st, service, provider, token) == Step(st, [REGISTRY_PROTOCOL, "WELCOME-BACK"])
  {
  }

  /** Registering the same provider again, under any spelling of the service, is a no-op that
      replies WELCOME-BACK. */
  lemma OhaiIdempotent(st: DirState, service: string, again: string, provider: string, t1: string, t2: string)
    requires CaseEq(service, again)
    ensures var st' := Ohai(st, service, provider, t1).state;
      Ohai(st', again, provider, t2) == Step(st', [REGISTRY_PROTOCOL, "WELCOME-BACK"])
  {
    CaseEqIffUpper(service, again);
  }

  /** An unknown token changes nothing. */
  lemma BaiUnknown(st: DirState, token: string)
    requires token !in st.tokens
    ensures Bai(st, token) == Step(st, [REGISTRY_PROTOCOL, "GTFO"])
  {
  }

  /** A known token takes its provider out of its service's set, keeps the rest of that set and
      every other service, unlists the service once nobody provides it, and keeps the token. */
  lemma BaiKnown(st: DirState, token: string)
    requires Valid(st) && token in st.tokens
    ensures var e := st.tokens[token]; var st' := Bai(st, token).state;
      && Bai(st, token).reply == [REGISTRY_PROTOCOL, "GTFO"]
      && (forall q :: q in ProvidersOf(st', e.service) <==> q in ProvidersOf(st, e.service) && q != e.provider)
      && (forall x :: x != e.service ==> ProvidersOf(st', x) == ProvidersOf(st, x))
      && (e.service in st'.services <==> ProvidersOf(st', e.service) != [])
      && st'.tokens == st.tokens
  {
    BaiPreservesValid(st, token);
  }

  /** Deregistering with the token just issued restores the listing and every provider set; only
      the spent token remains behind. */
  lemma OhaiThenBaiRestores(st: DirState, service: string, provider: string, token: string)
    requires Valid(st)
    requires provider !in ProvidersOf(st, Upper(service))
    ensures var st' := Bai(Ohai(st, service, provider, token).state, token).state;
      && st'.services == st.services
      && (forall x :: ProvidersOf(st', x) == ProvidersOf(st, x))
      && st'.tokens == st.tokens[token := Entry(Upper(service), provider)]
  {
    var s := Upper(service);
    var ps := ProvidersOf(st, s);
    var st1 := Ohai(st, service, provider, token).state;
    assert ProvidersOf(st1, s) == ps + [provider];
    RemoveAppended(ps, provider);
    if ps == [] {
      assert s !in st.services;
      RemoveAppended(st.services, s);
    }
  }

  lemma RemoveAppended(xs: seq<string>, x: string)
    requires x !in xs
    ensures Remove(xs + [x], x) == xs
  {
    if xs != [] {
      assert (xs + [x])[1..] == xs[1..] + [x];
      RemoveAppended(xs[1..], x);
    }
  }

  /** The token kept by `bai` can be replayed: after a provider deregisters and registers again
      under a new token, the old token takes it out of the directory once more, although the
      new token still names it. */
  lemma StaleTokenEvicts(st: DirState, service: string, provider: string, t1: string, t2: string)
    requires Valid(st)
    requires t1 != t2
    requires provider !in ProvidersOf(st, Upper(service))
    ensures var st1 := Ohai(st, service, provider, t1).state;
      var st2 := Bai(st1, t1).state;
      var st3 := Ohai(st2, service, provider, t2).state;
      var st4 := Bai(st3, t1).state;
      && provider in WhoDoes(st3, service)[2..]
      && provider !in WhoDoes(st4, service)[2..]
      && st4.tokens[t2] == Entry(Upper(service), provider)
  {
    ReRegistered(st, service, provider, t1, t2);
    var st3 := Ohai(Bai(Ohai(st, service, provider, t1).state, t1).state, service, provider, t2).state;
    WhoDoesLists(st3, service);
    BaiDrops(st3, t1);
    WhoDoesLists(Bai(st3, t1).state, service);
  }

  /** `who_does` lists the providers of the upper-cased service after its header. */
  lemma WhoDoesLists(st: DirState, service: string)
    ensures WhoDoes(st, service)[2..] == ProvidersOf(st, Upper(service))
  {
  }

  /** Registering, deregistering and registering again under a new token leaves the provider
      in its service's set with both tokens naming it. */
  lemma ReRegistered(st: DirState, service: string, provider: string, t1: string, t2: string)
    requires Valid(st)
    requires t1 != t2
    requires provider !in ProvidersOf(st, Upper(service))
    ensures var st3 := Ohai(Bai(Ohai(st, service, provider, t1).state, t1).state, service, provider, t2).state;
      && provider in ProvidersOf(st3, Upper(service))
      && st3.tokens[t1] == Entry(Upper(service), provider)
      && st3.tokens[t2] == Entry(Upper(service), provider)
  {
    var s := Upper(service);
    var st2 := Bai(Ohai(st, service, provider, t1).state, t1).state;
    OhaiThenBaiRestores(st, service, provider, t1);
    assert ProvidersOf(st2, s) == ProvidersOf(st, s);
    OhaiWelcomesNew(st2, service, provider, t2);
  }

  /** A known token's provider is no longer among its service's providers, and the tokens stay. */
  lemma BaiDrops(st: DirState, token: string)
    requires token in st.tokens
    ensures var e := st.tokens[token]; var st' := Bai(st, token).state;
      e.provider !in ProvidersOf(st', e.service) && st'.tokens == st.tokens
  {
  }

  /** Lookups ignore the case of the service name. */
  lemma WhoDoesIgnoresCase(st: DirState, a: string, b: string)
    requires CaseEq(a, b)
    ensures WhoDoes(st, a) == WhoDoes(st, b)
  {
    CaseEqIffUpper(a, b);
  }

  /** `ohai` always leaves the provider listed for the service, and `who_does` finds it. */
  lemma OhaiThenWhoDoes(st: DirState, service: string, provider: string, token: string)
    ensures provider in WhoDoes(Ohai(st, service, provider, token).state, service)[2..]
  {
    UpperIdempotent(service);
    var st' := Ohai(st, service, provider, token).state;
    assert WhoDoes(st', service)[2..] == ProvidersOf(st', Upper(service));
  }

  /** In a valid directory `all_the_things` lists exactly the provided services, each once. */
  lemma AllTheThingsListsProvided(st: DirState, service: string)
    requires Valid(st)
    ensures service in AllTheThings(st)[2..] <==> ProvidersOf(st, service) != []
    ensures NoDup(AllTheThings(st)[2..])
  {
    assert AllTheThings(st)[2..] == st.services;
  }
}
