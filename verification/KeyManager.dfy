/**
  * The key manager that chooses a server alias for a TLS handshake, and is asked later for the key and for the
  * chain of that alias. Handshakes run concurrently: one that misses the cache waits for a certificate while
  * others go on.
  */
module KeyManager {
  import opened Prelude

  datatype PrivateKey = PrivateKey(id: nat)

  type Chain = seq<nat>

  /** A certificate, and the domain it was generated for. */
  datatype Cert = Cert(domain: string, key: PrivateKey, chain: Chain, notAllowed: bool)

  /** What TLS is told about a session. */
  datatype Served = Served(session: nat, key: Option<PrivateKey>, chain: Option<Chain>)

  /** The wrapped manager. */
  datatype Manager =
    Manager(aliases: string -> Option<seq<string>>, key: string -> Option<PrivateKey>, chain: string -> Option<Chain>)

  datatype Handshake = Handshake(keyType: string, host: Option<string>, sessionKey: Option<string>, session: nat)

  datatype Choice = Alias(alias: string) | Generating

  const PREFIX := "tmp-gen-"

  /** The alias returned when none can be chosen. */
  const NO_ALIAS := "--"

  function CacheKey(host: string): string {
    PREFIX + host
  }

  lemma KeysDiffer(g: string)
    ensures forall h :: CacheKey(g) == CacheKey(h) ==> g == h
  {
    forall h | CacheKey(g) == CacheKey(h)
      ensures g == h
    {
      assert CacheKey(g)[|PREFIX|..] == g && CacheKey(h)[|PREFIX|..] == h;
    }
  }

  lemma KeyPrefixed(host: string)
    ensures Prefixed(CacheKey(host))
  {
  }

  /** `startsWith`. */
  predicate Prefixed(s: string) {
    PREFIX <= s
  }

  /** `replace` of the prefix by the empty string: every occurrence goes. */
  function Strip(s: string): (r: string)
    ensures |r| <= |s|
    decreases |s|
  {
    if s == [] then []
    else if PREFIX <= s then Strip(s[|PREFIX|..])
    else [s[0]] + Strip(s[1..])
  }

  /** The first alias that matches the host. */
  function FirstMatching(aliases: seq<string>, matches: (string, string) -> bool, host: string): (i: Option<nat>)
    ensures i.Some? ==> i.value < |aliases| && matches(aliases[i.value], host)
    ensures forall j :: 0 <= j < (if i.Some? then i.value else |aliases|) ==> !matches(aliases[j], host)
  {
    if aliases == [] then None
    else if matches(aliases[0], host) then Some(0)
    else
      match FirstMatching(aliases[1..], matches, host)
      case None => None
      case Some(i) => Some(i + 1)
  }

  /** The key for an alias, given the cache and the manager. */
  function KeyFor(alias: string, cache: map<string, Cert>, manager: Manager): Option<PrivateKey> {
    if Prefixed(alias) then
      if alias in cache then Some(cache[alias].key) else manager.key(Strip(alias))
    else manager.key(alias)
  }

  /** The chain. */
  function ChainFor(alias: string, cache: map<string, Cert>, manager: Manager): Option<Chain> {
    if Prefixed(alias) then
      if alias in cache then Some(cache[alias].chain) else manager.chain(Strip(alias))
    else manager.chain(alias)
  }

  /** What the getters depend on, and who will change it. */
  datatype State = State(manager: Manager, cache: map<string, Cert>, generating: multiset<Handshake>)
  {
    /** No handshake waits for a certificate for `host`. */
    ghost predicate Quiet(host: string) {
      forall h :: h in generating ==> h.host != Some(host)
    }

    /** No alias of the manager matches, no certificate is cached, and one can be generated. */
    predicate Misses(matches: (string, string) -> bool, h: Handshake, env: bool, autoCert: bool) {
      && h.host.Some? && CacheKey(h.host.value) !in cache && env
      && match manager.aliases(h.keyType)
         case Some(aliases) => FirstMatching(aliases, matches, h.host.value).None?
         case None => autoCert
    }

    /** The generation for a handshake that waits for it ends so. */
    predicate Expects(h: Handshake, cert: Option<Cert>) {
      h in generating && h.host.Some? && (cert.None? || h.host == Some(cert.value.domain))
    }

    function Next(matches: (string, string) -> bool, e: Event): State {
      match e
      case Choose(h, env, autoCert) =>
        if Misses(matches, h, env, autoCert) then this.(generating := generating + multiset{h}) else this
      case Generate(h, cert) =>
        if !Expects(h, cert) then this
        else if cert.None? then this.(generating := generating - multiset{h})
        else this.(generating := generating - multiset{h}, cache := cache[CacheKey(h.host.value) := cert.value])
      case Evict(key) => this.(cache := cache - {key})
      case EvictSession(_) => this
      case ChangeManager(m) => this.(manager := m)
    }

    function After(matches: (string, string) -> bool, events: seq<Event>): State
      decreases |events|
    {
      if events == [] then this
      else After(matches, events[..|events| - 1]).Next(matches, events[|events| - 1])
    }
  }

  datatype Event =
    | Choose(h: Handshake, env: bool, autoCert: bool) | Generate(h: Handshake, cert: Option<Cert>)
    | Evict(key: string) | EvictSession(sessionKey: string) | ChangeManager(manager: Manager)

  class X509KeyManagerSnitch {
    const matches: (string, string) -> bool
    var manager: Manager
    var cache: map<string, Cert>
    var sslSessions: map<string, Served>
    /** The certificates given to the provider. */
    var provided: seq<Cert>
    /** The handshakes that missed the cache and wait for a certificate. */
    var generating: multiset<Handshake>

    /** A cached certificate was generated for the host that its key names. */
    ghost predicate Valid()
      reads this
    {
      && (forall k :: k in cache ==> k == CacheKey(cache[k].domain))
      && (forall h :: h in generating ==> h.host.Some?)
    }

    constructor (matches: (string, string) -> bool, manager: Manager)
      ensures Valid() && Now() == State(manager, map[], multiset{}) && this.matches == matches
      ensures sslSessions == map[] && provided == []
    {
      this.matches, this.manager := matches, manager;
      cache, sslSessions, provided, generating := map[], map[], [], multiset{};
    }

    function GetPrivateKey(s: string): Option<PrivateKey>
      reads this
    {
      KeyFor(s, cache, manager)
    }

    function GetCertificateChain(s: string): Option<Chain>
      reads this
    {
      ChainFor(s, cache, manager)
    }

    ghost function Now(): State
      reads this
    {
      State(manager, cache, generating)
    }

    /** The pair is stored for the session, if that has a key. */
    ghost predicate Stored(h: Handshake, key: Option<PrivateKey>, chain: Option<Chain>)
      reads this
    {
      h.sessionKey.Some? ==>
        h.sessionKey.value in sslSessions && sslSessions[h.sessionKey.value] == Served(h.session, key, chain)
    }

    /** What was stored for the session is what the getters answer for the alias. */
    ghost predicate Coherent(h: Handshake, alias: string)
      reads this
    {
      Stored(h, GetPrivateKey(alias), GetCertificateChain(alias))
    }

    /** `_sslSessions.put` when there is a session key. */
    method Store(h: Handshake, key: Option<PrivateKey>, chain: Option<Chain>)
      modifies this`sslSessions
      ensures sslSessions ==
                if h.sessionKey.Some? then old(sslSessions)[h.sessionKey.value := Served(h.session, key, chain)]
                else old(sslSessions)
    {
      if h.sessionKey.Some? {
        sslSessions := sslSessions[h.sessionKey.value := Served(h.session, key, chain)];
      }
    }

    /**
      * `chooseEngineServerAlias`, up to the generation of a certificate. A matching alias of the manager comes
      * first, then a cached certificate.
      */
    method ChooseEngineServerAlias(h: Handshake, env: bool, autoCert: bool) returns (choice: Choice)
      requires Valid()
      modifies this`sslSessions, this`generating
      ensures Valid()
      ensures choice.Generating? <==> Now().Misses(matches, h, env, autoCert)
      ensures Now() == old(Now()).Next(matches, Choose(h, env, autoCert))
      ensures forall k :: k in old(sslSessions) && Some(k) != h.sessionKey ==>
                k in sslSessions && sslSessions[k] == old(sslSessions[k])
      ensures h.host.None? ==> choice == Alias(NO_ALIAS)
      ensures h.host.Some? ==>
                var aliases, key := manager.aliases(h.keyType), CacheKey(h.host.value);
                var first := if aliases.None? then None else FirstMatching(aliases.value, matches, h.host.value);
                if first.Some? then
                  && choice == Alias(aliases.value[first.value])
                  && Stored(h, manager.key(choice.alias), manager.chain(choice.alias))
                  && (!Prefixed(choice.alias) ==> Coherent(h, choice.alias))
                else if key in cache then choice == Alias(key) && Coherent(h, key)
                else
                  && choice == (if env && (aliases.Some? || autoCert) then Generating else Alias(NO_ALIAS))
                  && sslSessions == old(sslSessions)
    {
      choice := Alias(NO_ALIAS);
      if h.host.Some? {
        var host := h.host.value;
        var key := CacheKey(host);
        var aliases := manager.aliases(h.keyType);
        if aliases.Some? {
          var first := FirstMatching(aliases.value, matches, host);
          if first.Some? {
            var alias := aliases.value[first.value];
            Store(h, manager.key(alias), manager.chain(alias));
            choice := Alias(alias);
          } else if key in cache {
            Store(h, Some(cache[key].key), Some(cache[key].chain));
            choice := Alias(key);
          } else if env {
            generating := generating + multiset{h};
            choice := Generating;
          }
        } else {
          if key in cache {
            Store(h, Some(cache[key].key), Some(cache[key].chain));
            choice := Alias(key);
          } else if env && autoCert {
            generating := generating + multiset{h};
            choice := Generating;
          }
        }
      }
    }

    /** The rest of `chooseEngineServerAlias`, with the outcome of the generation for the host. */
    method Generated(h: Handshake, cert: Option<Cert>) returns (alias: string)
      requires Valid() && Now().Expects(h, cert)
      modifies this`cache, this`sslSessions, this`provided, this`generating
      ensures Valid() && Now() == old(Now()).Next(matches, Generate(h, cert))
      ensures cert.None? ==> alias == NO_ALIAS && sslSessions == old(sslSessions)
      ensures cert.Some? ==> alias == CacheKey(h.host.value)
      ensures cert.Some? ==> Coherent(h, alias)
      ensures provided == old(provided) + if cert.Some? && !cert.value.notAllowed then [cert.value] else []
      ensures forall k :: k in old(sslSessions) && Some(k) != h.sessionKey ==>
                k in sslSessions && sslSessions[k] == old(sslSessions[k])
    {
      hide CacheKey, FirstMatching, Strip, Prefixed, State.Misses;
      generating := generating - multiset{h};
      alias := NO_ALIAS;
      if cert.Some? {
        KeyPrefixed(h.host.value);
        alias := CacheKey(h.host.value);
        cache := cache[alias := cert.value];
        if !cert.value.notAllowed {
          provided := provided + [cert.value];
        }
        Store(h, Some(cert.value.key), Some(cert.value.chain));
      }
    }

    /** An entry expires. */
    method Evict(key: string)
      requires Valid()
      modifies this`cache
      ensures Valid() && cache == old(cache) - {key}
    {
      cache := cache - {key};
    }

    method EvictSession(sessionKey: string)
      requires Valid()
      modifies this`sslSessions
      ensures Valid() && sslSessions == old(sslSessions) - {sessionKey}
    {
      sslSessions := sslSessions - {sessionKey};
    }

    method ChangeManager(manager: Manager)
      requires Valid()
      modifies this`manager
      ensures Valid() && this.manager == manager
    {
      this.manager := manager;
    }

    method Step(e: Event)
      requires Valid()
      modifies this
      ensures Valid() && Now() == old(Now()).Next(matches, e)
    {
      hide CacheKey, FirstMatching, KeyFor, ChainFor, Coherent, GetPrivateKey, GetCertificateChain;
      match e {
        case Choose(h, env, autoCert) =>
          var choice := ChooseEngineServerAlias(h, env, autoCert);
        case Generate(h, cert) =>
          if h in generating && h.host.Some? && (cert.None? || h.host == Some(cert.value.domain)) {
            var alias := Generated(h, cert);
          }
        case Evict(key) => Evict(key);
        case EvictSession(sessionKey) => EvictSession(sessionKey);
        case ChangeManager(m) => ChangeManager(m);
      }
    }
  }

  /** Any interleaving. */
  method Continue(s: X509KeyManagerSnitch, events: seq<Event>)
    requires s.Valid()
    modifies s
    ensures s.Valid() && s.Now() == old(s.Now()).After(s.matches, events)
  {
    for i := 0 to |events|
      invariant s.Valid() && s.Now() == old(s.Now()).After(s.matches, events[..i])
    {
      assert events[..i + 1][..i] == events[..i];
      s.Step(events[i]);
    }
    assert events[..|events|] == events;
  }

  method Run(matches: (string, string) -> bool, manager: Manager, events: seq<Event>) returns (s: X509KeyManagerSnitch)
    ensures s.Valid() && s.Now() == State(manager, map[], multiset{}).After(matches, events)
  {
    s := new X509KeyManagerSnitch(matches, manager);
    Continue(s, events);
  }

  /** Two handshakes that miss the cache for one host: the second certificate replaces the first one, so TLS gets
    * another key than the one stored for the first session. */
  method TwoGenerations(s: X509KeyManagerSnitch, g: Handshake, h: Handshake, host: string, c: Cert, d: Cert)
    requires s.Valid() && g.host == h.host == Some(host) && CacheKey(host) !in s.cache
    requires s.manager.aliases(g.keyType) == s.manager.aliases(h.keyType) == Some([])
    requires g.sessionKey.Some? && h.sessionKey.Some? && g.sessionKey != h.sessionKey
    requires c.domain == d.domain == host && c.key != d.key
    modifies s
    ensures s.Coherent(h, CacheKey(host)) && !s.Coherent(g, CacheKey(host))
  {
    var first := s.ChooseEngineServerAlias(g, true, true);
    var second := s.ChooseEngineServerAlias(h, true, true);
    var alias := s.Generated(g, Some(c));
    alias := s.Generated(h, Some(d));
    assert alias == CacheKey(host) && Prefixed(alias);
  }

  /** Where the prefix does not occur, it is not removed. */
  lemma {:induction false} StripNothing(s: string)
    requires forall i :: 0 <= i <= |s| ==> !Prefixed(s[i..])
    ensures Strip(s) == s
    decreases |s|
  {
    if s != [] {
      assert s[0..] == s;
      assert forall i :: 0 <= i <= |s[1..]| ==> s[1..][i..] == s[i + 1..];
      StripNothing(s[1..]);
    }
  }

  /** Once the entry of a host is evicted, the getters ask the manager for the host itself. */
  lemma AfterEviction(host: string, cache: map<string, Cert>, manager: Manager)
    requires CacheKey(host) !in cache && forall i :: 0 <= i <= |host| ==> !Prefixed(host[i..])
    ensures KeyFor(CacheKey(host), cache, manager) == manager.key(host)
    ensures ChainFor(CacheKey(host), cache, manager) == manager.chain(host)
  {
    KeyPrefixed(host);
    assert CacheKey(host)[|PREFIX|..] == host;
    StripNothing(host);
  }

  lemma StripShorter(s: string)
    requires Prefixed(s)
    ensures |Strip(s)| < |s|
  {
  }

  /**
    * Whatever the manager holds, and whatever the cache holds, the getters answer with the manager's own key, and with
    * its own chain, exactly for the aliases without the prefix.
    */
  lemma OwnKeyIff(alias: string, cache: map<string, Cert>, manager: Manager)
    ensures (forall m :: KeyFor(alias, cache, m) == m.key(alias)) <==> !Prefixed(alias)
    ensures (forall m :: ChainFor(alias, cache, m) == m.chain(alias)) <==> !Prefixed(alias)
    ensures (forall c :: KeyFor(alias, c, manager) == manager.key(alias)) <==> !Prefixed(alias)
    ensures (forall c :: ChainFor(alias, c, manager) == manager.chain(alias)) <==> !Prefixed(alias)
  {
    if Prefixed(alias) {
      StripShorter(alias);
      var id := if alias in cache then cache[alias].key.id + 1 else 0;
      var n := if alias in cache then |cache[alias].chain| + 1 else 0;
      var m := Manager(_ => None, s => if s == alias then Some(PrivateKey(id)) else None,
                       s => if s == alias then Some(seq(n, _ => 0)) else None);
      assert KeyFor(alias, cache, m) != m.key(alias) && ChainFor(alias, cache, m) != m.chain(alias);
      var key, chain := manager.key(alias), manager.chain(alias);
      var otherKey := if key.Some? then key.value else PrivateKey(0);
      var other := map[alias := Other("", otherKey, if chain.Some? then chain.value else [])];
      assert KeyFor(alias, other, manager) != key && ChainFor(alias, other, manager) != chain;
    }
  }

  /** A certificate with another key and another chain. */
  function Other(host: string, key: PrivateKey, chain: Chain): Cert {
    Cert(host, PrivateKey(key.id + 1), chain + [0], false)
  }

  /** An alias of the manager keeps its key and its chain until the manager changes. */
  lemma {:induction false} ManagerAlias(s: State, matches: (string, string) -> bool, events: seq<Event>, alias: string)
    requires !Prefixed(alias) && forall e :: e in events ==> !e.ChangeManager?
    ensures var t := s.After(matches, events);
            && t.manager == s.manager && KeyFor(alias, t.cache, t.manager) == KeyFor(alias, s.cache, s.manager)
            && ChainFor(alias, t.cache, t.manager) == ChainFor(alias, s.cache, s.manager)
    decreases |events|
  {
    if events != [] {
      var n := |events| - 1;
      assert events[n] in events;
      ManagerAlias(s, matches, events[..n], alias);
    }
  }

  /** A cached certificate stays until its entry is evicted, if no handshake waits for another. */
  lemma {:induction false} StaysCached(s: State, matches: (string, string) -> bool, events: seq<Event>, host: string)
    requires CacheKey(host) in s.cache && s.Quiet(host) && Event.Evict(CacheKey(host)) !in events
    ensures var t := s.After(matches, events);
            CacheKey(host) in t.cache && t.cache[CacheKey(host)] == s.cache[CacheKey(host)] && t.Quiet(host)
    decreases |events|
  {
    if events != [] {
      var n := |events| - 1;
      assert events[n] in events;
      StaysCached(s, matches, events[..n], host);
      NextCached(s.After(matches, events[..n]), matches, events[n], host);
    }
  }

  lemma NextCached(s: State, matches: (string, string) -> bool, e: Event, host: string)
    requires CacheKey(host) in s.cache && s.Quiet(host) && e != Event.Evict(CacheKey(host))
    ensures var t := s.Next(matches, e);
            CacheKey(host) in t.cache && t.cache[CacheKey(host)] == s.cache[CacheKey(host)] && t.Quiet(host)
  {
    hide CacheKey, FirstMatching;
    KeysDiffer(host);
  }

  /** What the getters answer for a cached alias is the same after any events that do not evict the entry. */
  ghost predicate Keeps(s: State, matches: (string, string) -> bool, events: seq<Event>, host: string) {
    var t, alias := s.After(matches, events), CacheKey(host);
    && KeyFor(alias, t.cache, t.manager) == KeyFor(alias, s.cache, s.manager)
    && ChainFor(alias, t.cache, t.manager) == ChainFor(alias, s.cache, s.manager)
  }

  /**
    * Coherence of a cached alias. The key and the chain that TLS fetches are those of the cached certificate, whatever
    * happens before the entry is evicted, exactly when no handshake waits for a certificate for the host.
    */
  lemma StableIff(s: State, matches: (string, string) -> bool, host: string)
    requires CacheKey(host) in s.cache
    ensures s.Quiet(host) <==>
            forall events :: Event.Evict(CacheKey(host)) !in events ==> Keeps(s, matches, events, host)
  {
    if s.Quiet(host) {
      forall events | Event.Evict(CacheKey(host)) !in events
        ensures Keeps(s, matches, events, host)
      {
        StaysCached(s, matches, events, host);
      }
    } else {
      var h :| h in s.generating && h.host == Some(host);
      Replaced(s, matches, h, host);
    }
  }

  /** A handshake that waits can replace both. */
  lemma Replaced(s: State, matches: (string, string) -> bool, h: Handshake, host: string)
    requires CacheKey(host) in s.cache && h in s.generating && h.host == Some(host)
    ensures var c := s.cache[CacheKey(host)];
            var events := [Generate(h, Some(Other(host, c.key, c.chain)))];
            var t, alias := s.After(matches, events), CacheKey(host);
            && Event.Evict(alias) !in events && !Keeps(s, matches, events, host)
            && KeyFor(alias, t.cache, t.manager) != KeyFor(alias, s.cache, s.manager)
            && ChainFor(alias, t.cache, t.manager) != ChainFor(alias, s.cache, s.manager)
  {
    var c := s.cache[CacheKey(host)];
    var events := [Generate(h, Some(Other(host, c.key, c.chain)))];
    assert events[..0] == [];
    assert s.After(matches, events) == s.Next(matches, events[0]);
  }
}
