/** The plugin object: configuration, helper and client caches updated in place, refining their meaning as values. */
module Plugins {
  import opened Records
  import opened Settings

  /** A certificate pin inside a working configuration; handlers reach it through a reference. */
  class CertPin {
    var commonName: string
    var serialNumber: string
    var fingerprint: string

    function Value(): Pin
      reads this
    {
      Pin(commonName, serialNumber, fingerprint)
    }

    constructor (p: Pin)
      ensures Value() == p
    {
      commonName, serialNumber, fingerprint := p.commonName, p.serialNumber, p.fingerprint;
    }
  }

  /** The working copy that a configuration request carries from one transformer to the next. */
  class WorkingConfiguration {
    var oaepLabel: string
    var proxyServer: string
    var proxyServerAuth: string
    var proxyServerCreds: string
    var tlsCerts: string
    var cliWrite: bool
    var networkLatency: int
    var tlsPinning: Pinning
    const leaf: CertPin
    const issuer: CertPin
    const root: CertPin

    ghost predicate Valid() {
      leaf != issuer && leaf != root && issuer != root
    }

    function Value(): Config
      reads this, leaf, issuer, root
    {
      Config(oaepLabel, proxyServer, proxyServerAuth, proxyServerCreds, tlsCerts, cliWrite, networkLatency, tlsPinning,
             leaf.Value(), issuer.Value(), root.Value())
    }

    constructor (c: Config)
      ensures Valid() && Value() == c && fresh(leaf) && fresh(issuer) && fresh(root)
    {
      oaepLabel, proxyServer, proxyServerAuth := c.oaepLabel, c.proxyServer, c.proxyServerAuth;
      proxyServerCreds, tlsCerts, cliWrite := c.proxyServerCreds, c.tlsCerts, c.cliWrite;
      networkLatency, tlsPinning := c.networkLatency, c.tlsPinning;
      leaf := new CertPin(c.leaf);
      issuer := new CertPin(c.issuer);
      root := new CertPin(c.root);
    }

    /** The reference that a pin's path carries into the chain. */
    function Selected(which: Which): CertPin {
      match which case Leaf => leaf case Issuer => issuer case Root => root
    }
  }

  method CopyStringFieldIfDefined(o: Option<string>, current: string) returns (r: string)
    ensures r == NonEmpty(o, current)
  {
    r := current;
    if o.Some? && |o.value| > 0 { r := o.value; }
  }

  /** Takes over a value that can be read, and counts one that cannot. */
  method ParseFieldIfDefined<T>(g: Given<T>, current: T, errors: nat) returns (r: T, parseErrors: nat)
    ensures r == Chosen(g, current) && parseErrors == errors + if g.Bad? then 1 else 0
  {
    r, parseErrors := current, errors;
    match g {
      case Good(value) => r := value;
      case Bad => parseErrors := parseErrors + 1;
      case Unset =>
    }
  }

  /** Edits the working copy field by field and counts what could not be parsed; later fields are edited even then. */
  method ParseBackEndConfiguration(be: WorkingConfiguration, i: ConfigInput) returns (parseErrors: nat)
    requires be.Valid()
    modifies be
    ensures be.Value() == Edited(old(be.Value()), i)
    ensures be.oaepLabel == if i.oaepLabel.Some? then i.oaepLabel.value else old(be.oaepLabel)
    ensures TakesValue(i.proxyServer, old(be.proxyServer), be.proxyServer)
    ensures TakesText(i.proxyServerAuth, old(be.proxyServerAuth), be.proxyServerAuth)
    ensures TakesText(i.proxyServerCreds, old(be.proxyServerCreds), be.proxyServerCreds)
    ensures TakesText(i.rootCA, old(be.tlsCerts), be.tlsCerts)
    ensures TakesValue(i.tlsPinning, old(be.tlsPinning), be.tlsPinning)
    ensures be.cliWrite == if i.cliWrite.Some? then i.cliWrite.value else old(be.cliWrite)
    ensures TakesValue(i.netLatency, old(be.networkLatency), be.networkLatency)
    ensures parseErrors == 0 <==> !i.proxyServer.Bad? && !i.tlsPinning.Bad? && !i.netLatency.Bad?
  {
    if i.oaepLabel.Some? { be.oaepLabel := i.oaepLabel.value; }
    be.proxyServer, parseErrors := ParseFieldIfDefined(i.proxyServer, be.proxyServer, 0);
    be.proxyServerAuth := CopyStringFieldIfDefined(i.proxyServerAuth, be.proxyServerAuth);
    be.proxyServerCreds := CopyStringFieldIfDefined(i.proxyServerCreds, be.proxyServerCreds);
    be.tlsCerts := CopyStringFieldIfDefined(i.rootCA, be.tlsCerts);
    be.tlsPinning, parseErrors := ParseFieldIfDefined(i.tlsPinning, be.tlsPinning, parseErrors);
    if i.cliWrite.Some? { be.cliWrite := i.cliWrite.value; }
    be.networkLatency, parseErrors := ParseFieldIfDefined(i.netLatency, be.networkLatency, parseErrors);
  }

  method ParseCertificatePin(pin: CertPin, i: PinInput) returns (parseErrors: nat)
    modifies pin
    ensures pin.Value() == EditedPin(old(pin.Value()), i)
    ensures TakesText(i.commonName, old(pin.commonName), pin.commonName)
    ensures TakesValue(i.serialNumber, old(pin.serialNumber), pin.serialNumber)
    ensures TakesValue(i.fingerprint, old(pin.fingerprint), pin.fingerprint)
    ensures parseErrors == 0 <==> !i.serialNumber.Bad? && !i.fingerprint.Bad?
  {
    pin.commonName := CopyStringFieldIfDefined(i.commonName, pin.commonName);
    pin.serialNumber, parseErrors := ParseFieldIfDefined(i.serialNumber, pin.serialNumber, 0);
    pin.fingerprint, parseErrors := ParseFieldIfDefined(i.fingerprint, pin.fingerprint, parseErrors);
  }

  method ResetCertificatePin(pin: CertPin)
    modifies pin
    ensures pin.Value() == NO_PIN && pin.commonName == "" && pin.serialNumber == "" && pin.fingerprint == ""
  {
    pin.commonName := "";
    pin.serialNumber := "";
    pin.fingerprint := "";
  }

  /** The signature that a V2 client and its cache entry share. */
  class V2Authorizer {
    const apiKey: string
    var signature: string

    constructor (apiKey: string, signature: string)
      ensures this.apiKey == apiKey && this.signature == signature
    {
      this.apiKey := apiKey;
      this.signature := signature;
    }

    method UpdateSignature(s: string)
      modifies this
      ensures signature == s
    {
      signature := s;
    }
  }

  datatype V2ClientAndAuthorizer = V2ClientAndAuthorizer(
    client: nat, areaNid: int, qps: int, tokenProvider: V2Authorizer, lastUsed: int)

  ghost function ClientIds(m: map<string, V2ClientAndAuthorizer>): set<nat> {
    set k | k in m :: m[k].client
  }

  ghost predicate Distinct2(m: map<string, V2ClientAndAuthorizer>) {
    forall k, l :: k in m && l in m && (m[k].client == m[l].client || m[k].tokenProvider == m[l].tokenProvider) ==> k == l
  }

  ghost predicate Distinct3(m: map<string, V3Entry>) {
    forall k, l :: k in m && l in m && m[k].client == m[l].client ==> k == l
  }

  /** Dropping one key of a map without shared clients drops exactly that client. */
  lemma DropV2(m: map<string, V2ClientAndAuthorizer>, k: string)
    requires Distinct2(m) && k in m
    ensures ClientIds(m - {k}) == ClientIds(m) - {m[k].client} && m[k].client in ClientIds(m)
  {
    var n := m - {k};
    forall id | id in ClientIds(m) - {m[k].client} ensures id in ClientIds(n) {
      var l :| l in m && m[l].client == id;
      assert l in n && n[l].client == id;
    }
    forall id | id in ClientIds(n) ensures id in ClientIds(m) - {m[k].client} {
      var l :| l in n && n[l].client == id;
      assert l in m && m[l].client == id && l != k;
    }
  }

  lemma DropV3(m: map<string, V3Entry>, k: string)
    requires Distinct3(m) && k in m
    ensures V3Ids(m - {k}) == V3Ids(m) - {m[k].client} && m[k].client in V3Ids(m)
  {
    var n := m - {k};
    forall id | id in V3Ids(m) - {m[k].client} ensures id in V3Ids(n) {
      var l :| l in m && m[l].client == id;
      assert l in n && n[l].client == id;
    }
    forall id | id in V3Ids(n) ensures id in V3Ids(m) - {m[k].client} {
      var l :| l in n && n[l].client == id;
      assert l in m && m[l].client == id && l != k;
    }
  }

  /** The clients that were in `all` and are no longer in `m`. */
  ghost function Gone2(all: map<string, V2ClientAndAuthorizer>, m: map<string, V2ClientAndAuthorizer>): multiset<nat> {
    multiset(ClientIds(all) - ClientIds(m))
  }

  ghost function Gone3(all: map<string, V3Entry>, m: map<string, V3Entry>): multiset<nat> {
    multiset(V3Ids(all) - V3Ids(m))
  }

  lemma OneMoreGone2(all: map<string, V2ClientAndAuthorizer>, m: map<string, V2ClientAndAuthorizer>, k: string)
    requires Distinct2(m) && k in m && ClientIds(m) <= ClientIds(all)
    ensures Distinct2(m - {k}) && ClientIds(m - {k}) <= ClientIds(all)
    ensures Gone2(all, m - {k}) == Gone2(all, m) + multiset{m[k].client}
  {
    DropV2(m, k);
    hide ClientIds;
    assert ClientIds(all) - ClientIds(m - {k}) == ClientIds(all) - ClientIds(m) + {m[k].client};
  }

  lemma OneMoreGone3(all: map<string, V3Entry>, m: map<string, V3Entry>, k: string)
    requires Distinct3(m) && k in m && V3Ids(m) <= V3Ids(all)
    ensures Distinct3(m - {k}) && V3Ids(m - {k}) <= V3Ids(all)
    ensures Gone3(all, m - {k}) == Gone3(all, m) + multiset{m[k].client}
  {
    DropV3(m, k);
    hide V3Ids;
    assert V3Ids(all) - V3Ids(m - {k}) == V3Ids(all) - V3Ids(m) + {m[k].client};
  }

  lemma AllGone(all2: map<string, V2ClientAndAuthorizer>, all3: map<string, V3Entry>)
    ensures Gone2(all2, map[]) == multiset(ClientIds(all2)) && Gone3(all3, map[]) == multiset(V3Ids(all3))
    ensures Gone2(all2, all2) == multiset{} && Gone3(all3, all3) == multiset{}
  {
    assert ClientIds(map[]) == {} && V3Ids(map[]) == {};
    assert ClientIds(all2) - {} == ClientIds(all2) && V3Ids(all3) - {} == V3Ids(all3);
  }

  class AuthPlugin {
    var cfg: Config
    var stored: Option<Config>
    var v3OauthHelper: Option<HelperParams>
    var v3OAuthHelperInit: bool
    var v3Clients: map<string, V3Entry>
    var v2Clients: map<string, V2ClientAndAuthorizer>
    var issued: nat
    ghost var closed: multiset<nat>

    ghost function Providers(): set<V2Authorizer>
      reads this`v2Clients
    {
      set k | k in v2Clients :: v2Clients[k].tokenProvider
    }

    ghost function V2View(): map<string, V2Entry>
      reads this`v2Clients, Providers()
    {
      map k | k in v2Clients ::
        var e := v2Clients[k];
        V2Entry(e.client, e.areaNid, e.tokenProvider.apiKey, e.qps, e.tokenProvider.signature, e.lastUsed)
    }

    ghost function View(): Plugin
      reads this, Providers()
    {
      Plugin(cfg, stored, v3OauthHelper, v3OAuthHelperInit, v3Clients, V2View(), issued, closed)
    }

    /** No two entries share a client or an authorizer. */
    ghost predicate Valid()
      reads this`v2Clients, this`v3Clients
    {
      Distinct2(v2Clients) && Distinct3(v3Clients)
    }

    lemma SameIds()
      ensures V2Ids(V2View()) == ClientIds(v2Clients)
    {
      var m := V2View();
      forall id | id in ClientIds(v2Clients) ensures id in V2Ids(m) {
        var k :| k in v2Clients && v2Clients[k].client == id;
        assert k in m && m[k].client == id;
      }
      forall id | id in V2Ids(m) ensures id in ClientIds(v2Clients) {
        var k :| k in m && m[k].client == id;
        assert k in v2Clients && v2Clients[k].client == id;
      }
    }

    constructor (stored: Option<Config>, blank: Config)
      ensures Valid() && View() == Plugin(blank, stored, None, false, map[], map[], 0, multiset{})
    {
      cfg, this.stored, v3OauthHelper, v3OAuthHelperInit := blank, stored, None, false;
      v3Clients, v2Clients, issued, closed := map[], map[], 0, multiset{};
    }

    /** Every closing of a client is put on record. */
    method Close(client: nat)
      modifies this`closed
      ensures closed == old(closed) + multiset{client}
    {
      closed := closed + multiset{client};
    }

    method LoadBackendConfiguration(luck: Luck) returns (c: Option<Config>)
      modifies this`stored
      ensures c == (if !luck.canRead || (old(stored).None? && !luck.canWrite) then None
                    else if old(stored).Some? then old(stored) else Some(DefaultConfig(luck.drawn)))
      ensures stored == if c.None? then old(stored) else c
    {
      var loaded := DefaultConfig(luck.drawn);
      if !luck.canRead { return None; }
      if stored.Some? { return stored; }
      if !luck.canWrite { return None; }
      stored := Some(loaded);
      return Some(loaded);
    }

    method InitOnMount(luck: Luck) returns (mounted: bool)
      requires v3Clients == map[] && v2Clients == map[] && issued == 0 && closed == multiset{}
      requires v3OauthHelper == None && !v3OAuthHelperInit
      modifies this`cfg, this`stored
      ensures mounted <==> Mounted(old(stored), luck).Some?
      ensures mounted ==> View() == Mounted(old(stored), luck).value
      ensures !mounted ==> View() == old(View())
    {
      var c := LoadBackendConfiguration(luck);
      if c.None? { return false; }
      cfg := c.value;
      mounted := true;
    }

    method GetOAuthHelper() returns (helper: HelperParams)
      requires v3OAuthHelperInit ==> v3OauthHelper.Some?
      modifies this`v3OauthHelper, this`v3OAuthHelperInit
      ensures View() == WithHelper(old(View())) && v3OauthHelper == Some(helper)
      ensures if old(v3OAuthHelperInit) then Some(helper) == old(v3OauthHelper)
              else
                && helper.proxyServer == cfg.proxyServer && helper.proxyAuth == cfg.proxyServerAuth
                && helper.proxyCreds == cfg.proxyServerCreds && Configured(cfg, helper.tls)
    {
      TlsIsAsConfigured(cfg);
      hide EffectiveTLSConfiguration, Configured;
      if !v3OAuthHelperInit {
        v3OauthHelper := Some(HelperFor(cfg));
        v3OAuthHelperInit := true;
      }
      helper := v3OauthHelper.value;
    }

    /** Empties the map while ranging over it, closing each client. */
    method CloseAllV2()
      requires Valid()
      modifies this`v2Clients, this`closed
      ensures v2Clients == map[] && closed == old(closed) + multiset(ClientIds(old(v2Clients)))
    {
      hide ClientIds, Distinct2, Gone2;
      AllGone(v2Clients, map[]);
      var keys := v2Clients.Keys;
      while keys != {}
        invariant v2Clients.Keys == keys && Distinct2(v2Clients)
        invariant ClientIds(v2Clients) <= ClientIds(old(v2Clients))
        invariant closed == old(closed) + Gone2(old(v2Clients), v2Clients)
      {
        var k :| k in keys;
        OneMoreGone2(old(v2Clients), v2Clients, k);
        var cl := v2Clients[k];
        v2Clients := v2Clients - {k};
        keys := keys - {k};
        Close(cl.client);
      }
      assert v2Clients == map[];
    }

    method CloseAllV3()
      requires Valid()
      modifies this`v3Clients, this`closed
      ensures v3Clients == map[] && closed == old(closed) + multiset(V3Ids(old(v3Clients)))
    {
      hide V3Ids, Distinct3, Gone3;
      AllGone(map[], v3Clients);
      var keys := v3Clients.Keys;
      while keys != {}
        invariant v3Clients.Keys == keys && Distinct3(v3Clients)
        invariant V3Ids(v3Clients) <= V3Ids(old(v3Clients))
        invariant closed == old(closed) + Gone3(old(v3Clients), v3Clients)
      {
        var k :| k in keys;
        OneMoreGone3(old(v3Clients), v3Clients, k);
        var cl := v3Clients[k];
        v3Clients := v3Clients - {k};
        keys := keys - {k};
        Close(cl.client);
      }
      assert v3Clients == map[];
    }

    lemma NothingViewed()
      requires v2Clients == map[]
      ensures V2View() == map[]
    {}

    method AcceptConfigurationUpdate(newCfg: Config)
      requires Valid()
      modifies this`cfg, this`v3OAuthHelperInit, this`v2Clients, this`v3Clients, this`closed
      ensures Valid() && View() == Accepted(old(View()), newCfg)
    {
      SameIds();
      hide ClientIds, V2Ids, V3Ids;
      cfg := newCfg;
      v3OAuthHelperInit := false;
      CloseAllV2();
      CloseAllV3();
      NothingViewed();
      hide V2View;
    }

    /** Drops and closes the V3 clients recorded as last used before the cut-over, deleting while ranging. */
    method SweepV3(lastUseCutover: int)
      requires Valid()
      modifies this`v3Clients, this`closed
      ensures Valid()
      ensures v3Clients == map k | k in old(v3Clients) && old(v3Clients)[k].lastUsed >= lastUseCutover :: old(v3Clients)[k]
      ensures closed == old(closed) + Gone3(old(v3Clients), v3Clients)
    {
      hide V3Ids, Gone3;
      AllGone(map[], v3Clients);
      var keys := v3Clients.Keys;
      while keys != {}
        invariant keys <= v3Clients.Keys && Distinct3(v3Clients) && V3Ids(v3Clients) <= V3Ids(old(v3Clients))
        invariant forall k :: k in v3Clients ==> k in old(v3Clients) && v3Clients[k] == old(v3Clients)[k]
        invariant forall k :: k in old(v3Clients) && k !in keys ==>
                    (k in v3Clients <==> old(v3Clients)[k].lastUsed >= lastUseCutover)
        invariant forall k :: k in keys ==> k in old(v3Clients)
        invariant closed == old(closed) + Gone3(old(v3Clients), v3Clients)
      {
        var k :| k in keys;
        keys := keys - {k};
        if v3Clients[k].lastUsed < lastUseCutover {
          OneMoreGone3(old(v3Clients), v3Clients, k);
          hide Distinct3;
          var o := v3Clients[k];
          v3Clients := v3Clients - {k};
          Close(o.client);
        }
      }
    }

    method SweepV2(lastUseCutover: int)
      requires Valid()
      modifies this`v2Clients, this`closed
      ensures Valid()
      ensures v2Clients == map k | k in old(v2Clients) && old(v2Clients)[k].lastUsed >= lastUseCutover :: old(v2Clients)[k]
      ensures closed == old(closed) + Gone2(old(v2Clients), v2Clients)
    {
      hide ClientIds, Gone2;
      AllGone(v2Clients, map[]);
      var keys := v2Clients.Keys;
      while keys != {}
        invariant keys <= v2Clients.Keys && Distinct2(v2Clients) && ClientIds(v2Clients) <= ClientIds(old(v2Clients))
        invariant forall k :: k in v2Clients ==> k in old(v2Clients) && v2Clients[k] == old(v2Clients)[k]
        invariant forall k :: k in old(v2Clients) && k !in keys ==>
                    (k in v2Clients <==> old(v2Clients)[k].lastUsed >= lastUseCutover)
        invariant forall k :: k in keys ==> k in old(v2Clients)
        invariant closed == old(closed) + Gone2(old(v2Clients), v2Clients)
      {
        var k :| k in keys;
        keys := keys - {k};
        if v2Clients[k].lastUsed < lastUseCutover {
          OneMoreGone2(old(v2Clients), v2Clients, k);
          hide Distinct2;
          var o := v2Clients[k];
          v2Clients := v2Clients - {k};
          Close(o.client);
        }
      }
    }

    /** What sweeping the V2 clients means for the view of them. */
    method SweepV2Clients(now: int)
      requires Valid()
      modifies this`v2Clients, this`closed
      ensures Valid()
      ensures V2View() == FreshV2(old(V2View()), now)
      ensures closed == old(closed) + multiset(V2Ids(old(V2View())) - V2Ids(V2View()))
    {
      SameIds();
      SweepV2(now - HTTP_IDLE);
      SameIds();
      hide V2Ids, ClientIds;
      forall k | k in v2Clients ensures v2Clients[k].tokenProvider in old(Providers()) {}
      hide Distinct2, Distinct3;
    }

    method Housekeeping(now: int)
      requires Valid()
      modifies this`v3Clients, this`v2Clients, this`closed
      ensures Valid() && View() == Swept(old(View()), now)
    {
      SweepV3(now - HTTP_IDLE);
      assert V2View() == old(V2View());
      SweepV2Clients(now);
      assert v3Clients == FreshV3(old(v3Clients), now);
      hide V2Ids, V3Ids, V2View, FreshV2, FreshV3, Distinct2, Distinct3;
    }

    /** On a hit the time of use goes to a copy of the entry; the map keeps the time of creation. */
    method GetMasheryV3Client(key: string, qps: int, now: int) returns (client: nat)
      requires Valid() && forall k <- v3Clients :: v3Clients[k].client < issued
      modifies this`v3Clients, this`issued
      ensures Valid() && View() == WithV3(old(View()), key, qps, now)
      ensures key in v3Clients && v3Clients[key].client == client
      ensures old(key !in v3Clients) ==> Configured(cfg, v3Clients[key].tls) && v3Clients[key].qps == qps
    {
      TlsIsAsConfigured(cfg);
      hide EffectiveTLSConfiguration, Configured;
      if key in v3Clients {
        var cl := v3Clients[key];
        cl := cl.(lastUsed := now);
        return cl.client;
      }
      client := issued;
      issued := issued + 1;
      v3Clients := v3Clients[key := V3Entry(client, EffectiveTLSConfiguration(cfg), qps, now)];
    }

    /** On a hit the signature is renewed through the authorizer that the cached entry and its client share. */
    method GetMasheryV2Client(key: string, keys: RoleKeys, signature: string, now: int) returns (client: nat)
      requires Valid() && forall k <- v2Clients :: v2Clients[k].client < issued
      modifies this`v2Clients, this`issued, Providers()
      ensures Valid() && View() == WithV2(old(View()), key, keys, signature, now)
      ensures key in v2Clients && v2Clients[key].client == client && v2Clients[key].tokenProvider.signature == signature
    {
      if key in v2Clients {
        var cl := v2Clients[key];
        cl := cl.(lastUsed := now);
        cl.tokenProvider.UpdateSignature(signature);
        assert V2View() == old(V2View())[key := old(V2View())[key].(signature := signature)];
        hide V2View;
        return cl.client;
      }
      client := AddV2Client(key, keys, signature, now);
      hide V2View;
    }

    method AddV2Client(key: string, keys: RoleKeys, signature: string, now: int) returns (client: nat)
      requires Valid() && key !in v2Clients && forall k <- v2Clients :: v2Clients[k].client < issued
      modifies this`v2Clients, this`issued
      ensures Valid() && client == old(issued) && issued == old(issued) + 1
      ensures V2View() == old(V2View())[key := V2Entry(client, keys.areaNid, keys.apiKey, keys.maxQPS, signature, now)]
      ensures key in v2Clients && v2Clients[key].client == client && v2Clients[key].tokenProvider.signature == signature
    {
      var provider := new V2Authorizer(keys.apiKey, signature);
      client := issued;
      issued := issued + 1;
      v2Clients := v2Clients[key := V2ClientAndAuthorizer(client, keys.areaNid, keys.maxQPS, provider, now)];
    }

    // ---- configuration requests: chains over a working copy ----

    method ReadBackEndConfig(luck: Luck) returns (working: WorkingConfiguration, ok: bool)
      ensures fresh(working) && fresh(working.leaf) && fresh(working.issuer) && fresh(working.root) && working.Valid()
      ensures ok == luck.canRead && (ok ==> working.Value() == Working(View(), luck))
    {
      var val := DefaultConfig(luck.drawn);
      if luck.canRead && stored.Some? { val := stored.value; }
      working := new WorkingConfiguration(val);
      ok := luck.canRead;
    }

    method SaveBackEndConfig(working: WorkingConfiguration, luck: Luck) returns (ok: bool)
      modifies this`stored
      ensures ok == luck.canWrite
      ensures stored == if ok then Some(working.Value()) else old(stored)
    {
      if luck.canWrite { stored := Some(working.Value()); }
      ok := luck.canWrite;
    }

    method SaveAndAccept(working: WorkingConfiguration, luck: Luck) returns (answer: Answer)
      requires Valid()
      modifies this`stored, this`cfg, this`v3OAuthHelperInit, this`v2Clients, this`v3Clients, this`closed
      ensures Valid()
      ensures (View(), answer) ==
              if luck.canWrite then (Accepted(old(View()).(stored := Some(working.Value())), working.Value()), Done)
              else (old(View()), Failed)
    {
      var saved := SaveBackEndConfig(working, luck);
      assert V2View() == old(V2View());
      if !saved { return Failed; }
      AcceptConfigurationUpdate(working.Value());
      answer := Done;
    }

    method StoreConfiguration(i: ConfigInput, luck: Luck) returns (answer: Answer)
      requires Valid()
      modifies this`stored, this`cfg, this`v3OAuthHelperInit, this`v2Clients, this`v3Clients, this`closed
      ensures Valid() && (View(), answer) == Perform(old(View()), PluginOp.StoreConfiguration(i, luck))
    {
      var working, ok := ReadBackEndConfig(luck);
      assert V2View() == old(V2View());
      if !ok { return Failed; }
      var parseErrors := ParseBackEndConfiguration(working, i);
      assert V2View() == old(V2View());
      if parseErrors > 0 { return Answer.Rejected; }
      hide Accepted, Edited, V2View;
      answer := SaveAndAccept(working, luck);
    }

    /** The chain carries a reference to the selected pin, and edits the working copy through it. */
    method UpdateCert(which: Which, i: PinInput, luck: Luck) returns (answer: Answer)
      requires Valid()
      modifies this`stored, this`cfg, this`v3OAuthHelperInit, this`v2Clients, this`v3Clients, this`closed
      ensures Valid() && (View(), answer) == Perform(old(View()), PluginOp.UpdateCert(which, i, luck))
    {
      var working, ok := ReadBackEndConfig(luck);
      assert V2View() == old(V2View());
      if !ok { return Failed; }
      ghost var read := working.Value();
      var pinning := working.Selected(which);
      var parseErrors := ParseCertificatePin(pinning, i);
      assert V2View() == old(V2View());
      if parseErrors > 0 { return Answer.Rejected; }
      assert working.Value() == read.WithPin(which, EditedPin(read.PinAt(which), i));
      hide Accepted, EditedPin, V2View;
      answer := SaveAndAccept(working, luck);
    }

    method ResetCert(which: Which, luck: Luck) returns (answer: Answer)
      requires Valid()
      modifies this`stored, this`cfg, this`v3OAuthHelperInit, this`v2Clients, this`v3Clients, this`closed
      ensures Valid() && (View(), answer) == Perform(old(View()), PluginOp.ResetCert(which, luck))
    {
      var working, ok := ReadBackEndConfig(luck);
      assert V2View() == old(V2View());
      if !ok { return Failed; }
      ghost var read := working.Value();
      ResetCertificatePin(working.Selected(which));
      assert working.Value() == read.WithPin(which, NO_PIN);
      assert V2View() == old(V2View());
      hide Accepted, V2View;
      answer := SaveAndAccept(working, luck);
    }
  }
}
