/** The plugin's configuration and the clients it keeps, as values: what each operation means, and what every run keeps. */
module Settings {
  import opened Records

  // ---- configuration ----

  datatype Pin = Pin(commonName: string, serialNumber: string, fingerprint: string) {
    predicate IsEmpty() {
      commonName == "" && serialNumber == "" && fingerprint == ""
    }
  }

  const NO_PIN := Pin("", "", "")

  datatype Pinning = DefaultPinning | SystemPinning | CustomPinning | InsecurePinning

  datatype Config = Config(
    oaepLabel: string, proxyServer: string, proxyServerAuth: string, proxyServerCreds: string, tlsCerts: string,
    cliWrite: bool, networkLatency: int, tlsPinning: Pinning, leaf: Pin, issuer: Pin, root: Pin)
  {
    function EffectiveTLSPinning(): Pinning {
      if tlsPinning == CustomPinning && leaf.IsEmpty() && issuer.IsEmpty() && root.IsEmpty() then DefaultPinning
      else tlsPinning
    }

    function PinAt(which: Which): Pin {
      match which case Leaf => leaf case Issuer => issuer case Root => root
    }

    function WithPin(which: Which, pin: Pin): Config {
      match which case Leaf => this.(leaf := pin) case Issuer => this.(issuer := pin) case Root => this.(root := pin)
    }
  }

  datatype Which = Leaf | Issuer | Root

  const DEFAULT_LATENCY := 147

  /** The defaults, around a label drawn at random. */
  function DefaultConfig(drawn: string): Config {
    Config(drawn, "", "", "", "", false, DEFAULT_LATENCY, DefaultPinning, NO_PIN, NO_PIN, NO_PIN)
  }

  // ---- what a request may ask for; an unreadable value is `Bad` ----

  datatype Given<+T> = Unset | Bad | Good(value: T)

  datatype ConfigInput = ConfigInput(
    oaepLabel: Option<string>, proxyServer: Given<string>, proxyServerAuth: Option<string>,
    proxyServerCreds: Option<string>, rootCA: Option<string>, tlsPinning: Given<Pinning>, cliWrite: Option<bool>,
    netLatency: Given<int>)
  {
    predicate Parses() {
      !proxyServer.Bad? && !tlsPinning.Bad? && !netLatency.Bad?
    }
  }

  datatype PinInput = PinInput(commonName: Option<string>, serialNumber: Given<string>, fingerprint: Given<string>) {
    predicate Parses() {
      !serialNumber.Bad? && !fingerprint.Bad?
    }
  }

  function Chosen<T>(g: Given<T>, current: T): T {
    if g.Good? then g.value else current
  }

  /** A text field is taken over only when it is given and not empty. */
  function NonEmpty(o: Option<string>, current: string): string {
    if o.Some? && |o.value| > 0 then o.value else current
  }

  function Edited(c: Config, i: ConfigInput): Config {
    c.(oaepLabel := if i.oaepLabel.Some? then i.oaepLabel.value else c.oaepLabel,
       proxyServer := Chosen(i.proxyServer, c.proxyServer),
       proxyServerAuth := NonEmpty(i.proxyServerAuth, c.proxyServerAuth),
       proxyServerCreds := NonEmpty(i.proxyServerCreds, c.proxyServerCreds),
       tlsCerts := NonEmpty(i.rootCA, c.tlsCerts),
       tlsPinning := Chosen(i.tlsPinning, c.tlsPinning),
       cliWrite := if i.cliWrite.Some? then i.cliWrite.value else c.cliWrite,
       networkLatency := Chosen(i.netLatency, c.networkLatency))
  }

  function EditedPin(p: Pin, i: PinInput): Pin {
    Pin(NonEmpty(i.commonName, p.commonName), Chosen(i.serialNumber, p.serialNumber), Chosen(i.fingerprint, p.fingerprint))
  }

  // ---- what is built from a configuration ----

  datatype TlsBase = DefaultTls | InsecureTls | SystemTls | PinnedTls(pins: seq<Pin>)
  datatype Tls = Tls(base: TlsBase, rootCAs: Option<string>, delegated: bool)
  datatype HelperParams = HelperParams(tls: Tls, proxyServer: string, proxyAuth: string, proxyCreds: string)

  function NonEmptyPins(pins: seq<Pin>): seq<Pin> {
    if pins == [] then [] else (if pins[0].IsEmpty() then [] else [pins[0]]) + NonEmptyPins(pins[1..])
  }

  function EffectiveTLSConfiguration(c: Config): Tls {
    var base := match c.EffectiveTLSPinning()
      case DefaultPinning => DefaultTls
      case InsecurePinning => InsecureTls
      case SystemPinning => SystemTls
      case CustomPinning => PinnedTls(NonEmptyPins([c.leaf, c.issuer, c.root]));
    Tls(base, if c.tlsCerts == "" || c.tlsCerts == "-" then None else Some(c.tlsCerts), c.EffectiveTLSPinning() == SystemPinning)
  }

  function HelperFor(c: Config): HelperParams {
    HelperParams(EffectiveTLSConfiguration(c), c.proxyServer, c.proxyServerAuth, c.proxyServerCreds)
  }

  lemma {:induction false} OnlyPins(pins: seq<Pin>)
    ensures forall p <- NonEmptyPins(pins) :: p in pins && !p.IsEmpty()
    ensures forall p <- pins :: !p.IsEmpty() ==> p in NonEmptyPins(pins)
  {
    if pins != [] { OnlyPins(pins[1..]); }
  }

  /** Custom pinning never means pinning nothing: the connection is pinned to exactly the pins that are set, of which
      there is at least one, if and only if custom pinning is in effect. */
  lemma CustomPinsSomething(c: Config)
    ensures var base := EffectiveTLSConfiguration(c).base;
            && (base.PinnedTls? <==> c.tlsPinning == CustomPinning && exists which :: !c.PinAt(which).IsEmpty())
            && (base.PinnedTls? ==>
                  && base.pins != []
                  && (forall p <- base.pins :: exists which :: p == c.PinAt(which))
                  && (forall which :: !c.PinAt(which).IsEmpty() ==> c.PinAt(which) in base.pins))
  {
    OnlyPins([c.leaf, c.issuer, c.root]);
    assert c.PinAt(Leaf) == c.leaf && c.PinAt(Issuer) == c.issuer && c.PinAt(Root) == c.root;
    var base := EffectiveTLSConfiguration(c).base;
    if base.PinnedTls? {
      forall p | p in base.pins ensures exists which :: p == c.PinAt(which) {
        assert p == c.PinAt(Leaf) || p == c.PinAt(Issuer) || p == c.PinAt(Root);
      }
    }
  }

  /** What connections are to be for a configuration: insecure, delegated, pinned or default, and whose root CAs they
      trust. */
  ghost predicate Configured(c: Config, tls: Tls) {
    var anyPin := c.leaf != Pin("", "", "") || c.issuer != Pin("", "", "") || c.root != Pin("", "", "");
    && (tls.base == InsecureTls <==> c.tlsPinning == InsecurePinning)
    && (tls.base == SystemTls <==> c.tlsPinning == SystemPinning)
    && (tls.delegated <==> c.tlsPinning == SystemPinning)
    && (tls.base == DefaultTls <==> c.tlsPinning == DefaultPinning || (c.tlsPinning == CustomPinning && !anyPin))
    && (tls.base.PinnedTls? <==> c.tlsPinning == CustomPinning && anyPin)
    && (tls.rootCAs == None <==> c.tlsCerts == "" || c.tlsCerts == "-")
    && (tls.rootCAs.Some? ==> tls.rootCAs.value == c.tlsCerts)
  }

  /** For every configuration: insecure exactly if that is chosen, delegated to the system exactly if that is, pinned
      exactly if custom pinning is chosen and something is pinned, and secured the default way otherwise. */
  lemma TlsIsAsConfigured(c: Config)
    ensures Configured(c, EffectiveTLSConfiguration(c))
  {
    hide NonEmptyPins;
  }

  // ---- the plugin ----

  /** A client is known by the number it was opened under. Times are instants in nanoseconds. */
  datatype V3Entry = V3Entry(client: nat, tls: Tls, qps: int, lastUsed: int)
  datatype V2Entry = V2Entry(client: nat, areaNid: int, apiKey: string, qps: int, signature: string, lastUsed: int)

  /** `issued` counts the clients opened so far, numbered from zero; `closed` records every closing. */
  datatype Plugin = Plugin(
    cfg: Config, stored: Option<Config>, helper: Option<HelperParams>, helperInit: bool,
    v3Clients: map<string, V3Entry>, v2Clients: map<string, V2Entry>, issued: nat, closed: multiset<nat>)

  const HTTP_IDLE := 15 * 60 * NANOS_PER_SECOND

  function V3Ids(m: map<string, V3Entry>): set<nat> {
    set k | k in m :: m[k].client
  }

  function V2Ids(m: map<string, V2Entry>): set<nat> {
    set k | k in m :: m[k].client
  }

  function Accepted(s: Plugin, c: Config): Plugin {
    s.(cfg := c, helperInit := false, v3Clients := map[], v2Clients := map[],
       closed := s.closed + multiset(V2Ids(s.v2Clients)) + multiset(V3Ids(s.v3Clients)))
  }

  function WithHelper(s: Plugin): Plugin {
    if s.helperInit then s else s.(helper := Some(HelperFor(s.cfg)), helperInit := true)
  }

  /** A hit changes nothing: the time of use is set on a copy of the entry, so the recorded time is that of creation. */
  function WithV3(s: Plugin, key: string, qps: int, now: int): Plugin {
    if key in s.v3Clients then s
    else s.(v3Clients := s.v3Clients[key := V3Entry(s.issued, EffectiveTLSConfiguration(s.cfg), qps, now)],
            issued := s.issued + 1)
  }

  /** A hit renews the signature that the client and its entry share, and nothing else. */
  function WithV2(s: Plugin, key: string, k: RoleKeys, signature: string, now: int): Plugin {
    if key in s.v2Clients then s.(v2Clients := s.v2Clients[key := s.v2Clients[key].(signature := signature)])
    else s.(v2Clients := s.v2Clients[key := V2Entry(s.issued, k.areaNid, k.apiKey, k.maxQPS, signature, now)],
            issued := s.issued + 1)
  }

  function FreshV3(m: map<string, V3Entry>, now: int): map<string, V3Entry> {
    map k | k in m && m[k].lastUsed >= now - HTTP_IDLE :: m[k]
  }

  function FreshV2(m: map<string, V2Entry>, now: int): map<string, V2Entry> {
    map k | k in m && m[k].lastUsed >= now - HTTP_IDLE :: m[k]
  }

  function Swept(s: Plugin, now: int): Plugin {
    var v3, v2 := FreshV3(s.v3Clients, now), FreshV2(s.v2Clients, now);
    s.(v3Clients := v3, v2Clients := v2,
       closed := s.closed + multiset(V3Ids(s.v3Clients) - V3Ids(v3)) + multiset(V2Ids(s.v2Clients) - V2Ids(v2)))
  }

  /** What storage does with one request for the configuration: whether the read and the write succeed, and the label
      drawn in case nothing is stored. */
  datatype Luck = Luck(canRead: bool, canWrite: bool, drawn: string)

  datatype Answer = Done | Rejected | Failed

  function Working(s: Plugin, luck: Luck): Config {
    if s.stored.Some? then s.stored.value else DefaultConfig(luck.drawn)
  }

  /** Read a working copy, edit it, save it, accept it. */
  function Reconfigured(s: Plugin, luck: Luck, edited: Config, parses: bool): (Plugin, Answer) {
    if !luck.canRead then (s, Failed)
    else if !parses then (s, Answer.Rejected)
    else if !luck.canWrite then (s, Failed)
    else (Accepted(s.(stored := Some(edited)), edited), Done)
  }

  datatype PluginOp =
    | StoreConfiguration(input: ConfigInput, luck: Luck)
    | UpdateCert(which: Which, pinInput: PinInput, luck: Luck)
    | ResetCert(which: Which, luck: Luck)
    | UseHelper
    | UseV3(key: string, qps: int, now: int)
    | UseV2(key: string, keys: RoleKeys, signature: string, now: int)
    | Housekeep(now: int)

  function Perform(s: Plugin, op: PluginOp): (Plugin, Answer) {
    match op
    case StoreConfiguration(i, luck) => Reconfigured(s, luck, Edited(Working(s, luck), i), i.Parses())
    case UpdateCert(which, i, luck) =>
      var c := Working(s, luck);
      Reconfigured(s, luck, c.WithPin(which, EditedPin(c.PinAt(which), i)), i.Parses())
    case ResetCert(which, luck) => Reconfigured(s, luck, Working(s, luck).WithPin(which, NO_PIN), true)
    case UseHelper => (WithHelper(s), Done)
    case UseV3(key, qps, now) => (WithV3(s, key, qps, now), Done)
    case UseV2(key, k, signature, now) => (WithV2(s, key, k, signature, now), Done)
    case Housekeep(now) => (Swept(s, now), Done)
  }

  function PerformAll(s: Plugin, ops: seq<PluginOp>): Plugin
    decreases |ops|
  {
    if ops == [] then s else PerformAll(Perform(s, ops[0]).0, ops[1..])
  }

  /** Mounting loads the stored configuration, or stores the defaults; nothing is mounted if that fails. */
  function Mounted(stored: Option<Config>, luck: Luck): Option<Plugin> {
    if !luck.canRead || (stored.None? && !luck.canWrite) then None
    else
      var c := if stored.Some? then stored.value else DefaultConfig(luck.drawn);
      Some(Plugin(c, Some(c), None, false, map[], map[], 0, multiset{}))
  }

  // ---- coherence ----

  /** The live configuration is the stored one; the helper, once there, and every V3 client were built from it. */
  ghost predicate Coherent(s: Plugin) {
    && s.stored == Some(s.cfg)
    && (s.helperInit ==> s.helper == Some(HelperFor(s.cfg)))
    && (forall k <- s.v3Clients :: s.v3Clients[k].tls == EffectiveTLSConfiguration(s.cfg))
  }

  /** The clients opened and not closed are exactly those in the two maps, each there once, and none was closed twice. */
  ghost predicate Owned(s: Plugin) {
    && (forall id: nat :: s.closed[id] <= 1)
    && (forall id: nat :: id in V3Ids(s.v3Clients) || id in V2Ids(s.v2Clients) <==> id < s.issued && id !in s.closed)
    && (forall id: nat :: id in s.closed ==> id < s.issued)
    && V3Ids(s.v3Clients) !! V2Ids(s.v2Clients)
    && (forall k, l :: k in s.v3Clients && l in s.v3Clients && s.v3Clients[k].client == s.v3Clients[l].client ==> k == l)
    && (forall k, l :: k in s.v2Clients && l in s.v2Clients && s.v2Clients[k].client == s.v2Clients[l].client ==> k == l)
  }

  lemma PerformStaysCoherent(s: Plugin, op: PluginOp)
    requires Coherent(s)
    ensures Coherent(Perform(s, op).0)
  {
    hide EffectiveTLSConfiguration, Edited, EditedPin, DefaultConfig, V3Ids, V2Ids;
  }

  lemma NoIdsInEmptyMaps()
    ensures V3Ids(map[]) == {} && V2Ids(map[]) == {}
  {}

  lemma AcceptedStaysOwned(s: Plugin, c: Config)
    requires Owned(s)
    ensures Owned(Accepted(s, c))
  {
    NoIdsInEmptyMaps();
    hide V3Ids, V2Ids;
  }

  lemma SweptIds3(m: map<string, V3Entry>, now: int)
    ensures V3Ids(FreshV3(m, now)) <= V3Ids(m)
  {
    var n := FreshV3(m, now);
    forall id | id in V3Ids(n) ensures id in V3Ids(m) {
      var k :| k in n && n[k].client == id;
      assert k in m && m[k].client == id;
    }
  }

  lemma SweptIds2(m: map<string, V2Entry>, now: int)
    ensures V2Ids(FreshV2(m, now)) <= V2Ids(m)
  {
    var n := FreshV2(m, now);
    forall id | id in V2Ids(n) ensures id in V2Ids(m) {
      var k :| k in n && n[k].client == id;
      assert k in m && m[k].client == id;
    }
  }

  lemma SweptStaysOwned(s: Plugin, now: int)
    requires Owned(s)
    ensures Owned(Swept(s, now))
  {
    SweptIds3(s.v3Clients, now);
    SweptIds2(s.v2Clients, now);
    hide V3Ids, V2Ids;
  }

  lemma NewV3Id(m: map<string, V3Entry>, key: string, e: V3Entry)
    requires key !in m
    ensures V3Ids(m[key := e]) == V3Ids(m) + {e.client}
  {
    var n := m[key := e];
    assert n[key] == e;
    forall id | id in V3Ids(m) + {e.client} ensures id in V3Ids(n) {
      if id in V3Ids(m) { var k :| k in m && m[k].client == id; assert n[k] == m[k]; }
    }
  }

  lemma NewV2Id(m: map<string, V2Entry>, key: string, e: V2Entry)
    requires key in m ==> m[key].client == e.client
    ensures V2Ids(m[key := e]) == V2Ids(m) + {e.client}
  {
    var n := m[key := e];
    assert n[key] == e;
    forall id | id in V2Ids(m) + {e.client} ensures id in V2Ids(n) {
      if id in V2Ids(m) { var k :| k in m && m[k].client == id; assert n[k].client == id; }
    }
  }

  lemma MembersHaveIds(s: Plugin)
    ensures forall k <- s.v3Clients :: s.v3Clients[k].client in V3Ids(s.v3Clients)
    ensures forall k <- s.v2Clients :: s.v2Clients[k].client in V2Ids(s.v2Clients)
  {}

  lemma V3ClientsStayOwned(s: Plugin, key: string, qps: int, now: int)
    requires Owned(s)
    ensures Owned(WithV3(s, key, qps, now))
  {
    if key !in s.v3Clients {
      MembersHaveIds(s);
      NewV3Id(s.v3Clients, key, WithV3(s, key, qps, now).v3Clients[key]);
      hide V3Ids, V2Ids, EffectiveTLSConfiguration;
      assert s.issued !in V3Ids(s.v3Clients) && s.issued !in V2Ids(s.v2Clients);
    }
  }

  lemma V2ClientsStayOwned(s: Plugin, key: string, k: RoleKeys, signature: string, now: int)
    requires Owned(s)
    ensures Owned(WithV2(s, key, k, signature, now))
  {
    if key in s.v2Clients {
      SignatureIsNoOwner(s, key, signature);
    } else {
      MembersHaveIds(s);
      NewV2Id(s.v2Clients, key, WithV2(s, key, k, signature, now).v2Clients[key]);
      hide V3Ids, V2Ids;
      assert s.issued !in V3Ids(s.v3Clients) && s.issued !in V2Ids(s.v2Clients);
    }
  }

  lemma SignatureIsNoOwner(s: Plugin, key: string, signature: string)
    requires Owned(s) && key in s.v2Clients
    ensures Owned(s.(v2Clients := s.v2Clients[key := s.v2Clients[key].(signature := signature)]))
  {
    var m := s.v2Clients[key := s.v2Clients[key].(signature := signature)];
    NewV2Id(s.v2Clients, key, m[key]);
    MembersHaveIds(s);
    hide V3Ids, V2Ids;
    assert V2Ids(m) == V2Ids(s.v2Clients);
    forall j, l | j in m && l in m && m[j].client == m[l].client ensures j == l {
      assert m[j].client == s.v2Clients[j].client && m[l].client == s.v2Clients[l].client;
    }
  }

  lemma PerformStaysOwned(s: Plugin, op: PluginOp)
    requires Owned(s)
    ensures Owned(Perform(s, op).0)
  {
    hide *;
    match op {
      case UseV3(key, qps, now) => V3ClientsStayOwned(s, key, qps, now); OwnedMeans(s, op);
      case UseV2(key, k, signature, now) => V2ClientsStayOwned(s, key, k, signature, now); OwnedMeans(s, op);
      case Housekeep(now) => SweptStaysOwned(s, now); OwnedMeans(s, op);
      case _ => OthersStayOwned(s, op);
    }
  }

  lemma OwnedMeans(s: Plugin, op: PluginOp)
    ensures op.UseV3? ==> Perform(s, op).0 == WithV3(s, op.key, op.qps, op.now)
    ensures op.UseV2? ==> Perform(s, op).0 == WithV2(s, op.key, op.keys, op.signature, op.now)
    ensures op.Housekeep? ==> Perform(s, op).0 == Swept(s, op.now)
  {
    hide WithV3, WithV2, Swept;
  }

  lemma OthersStayOwned(s: Plugin, op: PluginOp)
    requires Owned(s) && !op.UseV3? && !op.UseV2? && !op.Housekeep?
    ensures Owned(Perform(s, op).0)
  {
    var s' := Perform(s, op).0;
    if op.UseHelper? {
      hide HelperFor;
    } else if s' != s {
      AcceptedStaysOwned(s.(stored := s'.stored), s'.cfg);
      assert s' == Accepted(s.(stored := s'.stored), s'.cfg);
      hide Perform, Owned;
    }
  }

  /** After mounting, in every run: live, stored and derived agree, and every client has one owner. */
  lemma {:induction false} EveryRunIsCoherent(stored: Option<Config>, luck: Luck, ops: seq<PluginOp>)
    requires Mounted(stored, luck).Some?
    ensures var s := PerformAll(Mounted(stored, luck).value, ops);
            Coherent(s) && Owned(s)
  {
    NoIdsInEmptyMaps();
    RunStays(Mounted(stored, luck).value, ops);
  }

  lemma {:induction false} RunStays(s: Plugin, ops: seq<PluginOp>)
    requires Coherent(s) && Owned(s)
    ensures Coherent(PerformAll(s, ops)) && Owned(PerformAll(s, ops))
    decreases |ops|
  {
    hide Coherent, Owned, Perform;
    if ops != [] {
      PerformStaysCoherent(s, ops[0]);
      PerformStaysOwned(s, ops[0]);
      RunStays(Perform(s, ops[0]).0, ops[1..]);
    }
  }

  /** So in every run the OAuth helper has the proxy settings of the live configuration, each field its own, and it and
      every V3 client connect as configured. */
  lemma EveryConnectionIsAsConfigured(stored: Option<Config>, luck: Luck, ops: seq<PluginOp>)
    requires Mounted(stored, luck).Some?
    ensures var s := PerformAll(Mounted(stored, luck).value, ops + [UseHelper]);
            && s.helper.Some? && Configured(s.cfg, s.helper.value.tls)
            && s.helper.value.proxyServer == s.cfg.proxyServer
            && s.helper.value.proxyAuth == s.cfg.proxyServerAuth
            && s.helper.value.proxyCreds == s.cfg.proxyServerCreds
            && forall k <- s.v3Clients :: Configured(s.cfg, s.v3Clients[k].tls)
  {
    var s := PerformAll(Mounted(stored, luck).value, ops);
    EveryRunIsCoherent(stored, luck, ops);
    LastOf(Mounted(stored, luck).value, ops, UseHelper);
    TlsIsAsConfigured(s.cfg);
    hide PerformAll, EffectiveTLSConfiguration, Mounted, Owned, Configured;
  }

  lemma {:induction false} LastOf(s: Plugin, ops: seq<PluginOp>, op: PluginOp)
    ensures PerformAll(s, ops + [op]) == Perform(PerformAll(s, ops), op).0
    decreases |ops|
  {
    hide Perform;
    if ops == [] {
      assert [op][1..] == [] && ops + [op] == [op];
      assert PerformAll(Perform(s, op).0, []) == Perform(s, op).0;
    } else {
      assert (ops + [op])[0] == ops[0] && (ops + [op])[1..] == ops[1..] + [op];
      LastOf(Perform(s, ops[0]).0, ops[1..], op);
    }
  }

  // ---- single operations ----

  /** A write that does not parse or is not saved changes nothing, though the working copy was edited by then. */
  lemma UnsuccessfulChangesNothing(s: Plugin, op: PluginOp)
    requires Perform(s, op).1 != Done
    ensures Perform(s, op).0 == s
  {}

  /** A new mount, with nothing stored, starts from these values. */
  lemma DefaultsOnMount(luck: Luck)
    requires luck.canRead && luck.canWrite
    ensures Mounted(None, luck).Some?
    ensures var s := Mounted(None, luck).value;
            && s.stored == Some(s.cfg) && !s.helperInit && s.v3Clients == map[] && s.v2Clients == map[]
            && s.cfg == Config(luck.drawn, "", "", "", "", false, 147, DefaultPinning,
                               Pin("", "", ""), Pin("", "", ""), Pin("", "", ""))
  {}

  /** A field after a request: the value given, or else what it was. */
  predicate TakesValue<T(==)>(given: Given<T>, before: T, after: T) {
    match given case Good(value) => after == value case _ => after == before
  }

  /** A text field after a request: the text given, unless that is empty, or else what it was. */
  predicate TakesText(given: Option<string>, before: string, after: string) {
    if given == None || given == Some("") then after == before else given == Some(after)
  }

  /** A configuration request that succeeds: each field by itself, the pins untouched, and every client let go. */
  lemma ConfigurationOutcome(s: Plugin, i: ConfigInput, luck: Luck)
    requires Perform(s, StoreConfiguration(i, luck)).1 == Done && s.stored.Some?
    ensures var s' := Perform(s, StoreConfiguration(i, luck)).0;
            var (before, after) := (s.stored.value, s'.cfg);
            && s'.stored == Some(after) && !s'.helperInit && s'.v3Clients == map[] && s'.v2Clients == map[]
            && after.oaepLabel == (match i.oaepLabel case Some(text) => text case None => before.oaepLabel)
            && TakesValue(i.proxyServer, before.proxyServer, after.proxyServer)
            && TakesText(i.proxyServerAuth, before.proxyServerAuth, after.proxyServerAuth)
            && TakesText(i.proxyServerCreds, before.proxyServerCreds, after.proxyServerCreds)
            && TakesText(i.rootCA, before.tlsCerts, after.tlsCerts)
            && TakesValue(i.tlsPinning, before.tlsPinning, after.tlsPinning)
            && after.cliWrite == (match i.cliWrite case Some(on) => on case None => before.cliWrite)
            && TakesValue(i.netLatency, before.networkLatency, after.networkLatency)
            && after.leaf == before.leaf && after.issuer == before.issuer && after.root == before.root
  {
    hide V3Ids, V2Ids;
  }

  /** It succeeds exactly when storage works and every value can be read. */
  lemma ConfigurationSucceedsIff(s: Plugin, i: ConfigInput, luck: Luck)
    ensures Perform(s, StoreConfiguration(i, luck)).1 == Done <==>
            luck.canRead && luck.canWrite && !i.proxyServer.Bad? && !i.tlsPinning.Bad? && !i.netLatency.Bad?
  {}

  /** A pin after a request that resets it or edits it. */
  predicate PinRequested(op: PluginOp, before: Pin, after: Pin)
    requires op.UpdateCert? || op.ResetCert?
  {
    if op.ResetCert? then after.commonName == "" && after.serialNumber == "" && after.fingerprint == ""
    else
      && TakesText(op.pinInput.commonName, before.commonName, after.commonName)
      && TakesValue(op.pinInput.serialNumber, before.serialNumber, after.serialNumber)
      && TakesValue(op.pinInput.fingerprint, before.fingerprint, after.fingerprint)
  }

  /** A pin request that succeeds edits the pin it names field by field, or empties it. */
  lemma PinOutcome(s: Plugin, op: PluginOp)
    requires Perform(s, op).1 == Done && s.stored.Some? && (op.UpdateCert? || op.ResetCert?)
    ensures var (c, c') := (s.stored.value, Perform(s, op).0.cfg);
            match op.which
            case Leaf => c' == c.(leaf := c'.leaf) && PinRequested(op, c.leaf, c'.leaf)
            case Issuer => c' == c.(issuer := c'.issuer) && PinRequested(op, c.issuer, c'.issuer)
            case Root => c' == c.(root := c'.root) && PinRequested(op, c.root, c'.root)
  {
    hide V3Ids, V2Ids;
  }

  /** A pin operation that succeeds changes that pin of the configuration and nothing else in it. */
  lemma PinOperationsAreLocal(s: Plugin, op: PluginOp)
    requires Coherent(s) && (op.UpdateCert? || op.ResetCert?)
    ensures var c := Perform(s, op).0.cfg;
            && c == s.cfg.WithPin(op.which, c.PinAt(op.which))
            && (forall other :: other != op.which ==> c.PinAt(other) == s.cfg.PinAt(other))
  {}

  predicate AsksForLabel(op: PluginOp) {
    op.StoreConfiguration? && op.input.oaepLabel.Some?
  }

  /** Whatever else is configured, and however often, the label stays unless a request names one. */
  lemma {:induction false} LabelChangesOnRequest(s: Plugin, ops: seq<PluginOp>)
    requires Coherent(s) && forall op <- ops :: !AsksForLabel(op)
    ensures PerformAll(s, ops).cfg.oaepLabel == s.cfg.oaepLabel
    decreases |ops|
  {
    if ops != [] {
      var s1 := Perform(s, ops[0]).0;
      PerformStaysCoherent(s, ops[0]);
      assert !AsksForLabel(ops[0]) && s1.cfg.oaepLabel == s.cfg.oaepLabel;
      hide Perform, Coherent;
      LabelChangesOnRequest(s1, ops[1..]);
    }
  }

  // ---- idle clients ----

  ghost predicate AllSince(s: Plugin, t: int) {
    && (forall k <- s.v3Clients :: s.v3Clients[k].lastUsed >= t)
    && (forall k <- s.v2Clients :: s.v2Clients[k].lastUsed >= t)
  }

  predicate NotBefore(op: PluginOp, t: int) {
    match op
    case UseV3(_, _, now) => now >= t
    case UseV2(_, _, _, now) => now >= t
    case _ => true
  }

  /** Housekeeping, exactly: an entry stays, as it was, if and only if it was recorded no more than fifteen minutes ago,
      and the clients of all others, and no others, are closed by it. */
  lemma HousekeepingIsExact(s: Plugin, now: int)
    requires Owned(s)
    ensures var s' := Perform(s, Housekeep(now)).0;
            && (forall k :: k in s'.v3Clients <==> k in s.v3Clients && s.v3Clients[k].lastUsed >= now - 900_000_000_000)
            && (forall k :: k in s'.v2Clients <==> k in s.v2Clients && s.v2Clients[k].lastUsed >= now - 900_000_000_000)
            && (forall k <- s'.v3Clients :: s'.v3Clients[k] == s.v3Clients[k])
            && (forall k <- s'.v2Clients :: s'.v2Clients[k] == s.v2Clients[k])
            && (forall k <- s.v3Clients :: k in s'.v3Clients <==> s.v3Clients[k].client !in s'.closed)
            && (forall k <- s.v2Clients :: k in s'.v2Clients <==> s.v2Clients[k].client !in s'.closed)
            && s'.cfg == s.cfg && s'.stored == s.stored && s'.helper == s.helper && s'.helperInit == s.helperInit
  {
    var s' := Perform(s, Housekeep(now)).0;
    SweptStaysOwned(s, now);
    MembersHaveIds(s);
    MembersHaveIds(s');
    SweptIds3(s.v3Clients, now);
    SweptIds2(s.v2Clients, now);
  }

  /** Using a client: a cached one is used as it is; otherwise one is opened as configured and cached, with the time. */
  lemma V3ClientOutcome(s: Plugin, key: string, qps: int, now: int)
    ensures var s' := Perform(s, UseV3(key, qps, now)).0;
            if key in s.v3Clients then s' == s
            else
              && s'.v3Clients.Keys == s.v3Clients.Keys + {key} && s'.issued == s.issued + 1 && s'.closed == s.closed
              && (forall k <- s.v3Clients :: s'.v3Clients[k] == s.v3Clients[k]) && s'.v2Clients == s.v2Clients
              && var e := s'.v3Clients[key];
                 e.client == s.issued && e.qps == qps && e.lastUsed == now && Configured(s.cfg, e.tls)
  {
    TlsIsAsConfigured(s.cfg);
    hide EffectiveTLSConfiguration, Configured;
  }

  /** The same for V2, where a cached client gets the new signature and nothing else. */
  lemma V2ClientOutcome(s: Plugin, key: string, k: RoleKeys, signature: string, now: int)
    ensures var s' := Perform(s, UseV2(key, k, signature, now)).0;
            && s'.v2Clients.Keys == s.v2Clients.Keys + {key} && s'.v3Clients == s.v3Clients && s'.closed == s.closed
            && (forall other <- s.v2Clients :: other != key ==> s'.v2Clients[other] == s.v2Clients[other])
            && var e := s'.v2Clients[key];
               if key in s.v2Clients then
                 && s'.issued == s.issued && e.signature == signature && e.client == s.v2Clients[key].client
                 && e.areaNid == s.v2Clients[key].areaNid && e.apiKey == s.v2Clients[key].apiKey
                 && e.qps == s.v2Clients[key].qps && e.lastUsed == s.v2Clients[key].lastUsed
               else
                 && s'.issued == s.issued + 1 && e.signature == signature && e.client == s.issued
                 && e.areaNid == k.areaNid && e.apiKey == k.apiKey && e.qps == k.maxQPS && e.lastUsed == now
  {}

  /** After housekeeping, and through whatever follows, no entry was recorded more than a quarter of an hour before
      it. */
  lemma {:induction false} HousekeepingLasts(s: Plugin, now: int, ops: seq<PluginOp>)
    requires forall op <- ops :: NotBefore(op, now - 900_000_000_000)
    ensures AllSince(PerformAll(Swept(s, now), ops), now - 900_000_000_000)
  {
    assert AllSince(Swept(s, now), now - 900_000_000_000) by { hide V3Ids, V2Ids; }
    hide AllSince, Swept, NotBefore;
    StaysSince(Swept(s, now), now - 900_000_000_000, ops);
  }

  lemma PerformStaysSince(s: Plugin, t: int, op: PluginOp)
    requires AllSince(s, t) && NotBefore(op, t)
    ensures AllSince(Perform(s, op).0, t)
  {
    hide V3Ids, V2Ids, EffectiveTLSConfiguration, Edited, EditedPin, Working;
    var s' := Perform(s, op).0;
    forall k | k in s'.v3Clients ensures s'.v3Clients[k].lastUsed >= t {
      if k in s.v3Clients { assert s.v3Clients[k].lastUsed >= t; }
    }
    forall k | k in s'.v2Clients ensures s'.v2Clients[k].lastUsed >= t {
      if k in s.v2Clients { assert s.v2Clients[k].lastUsed >= t; }
    }
  }

  lemma {:induction false} StaysSince(s: Plugin, t: int, ops: seq<PluginOp>)
    requires AllSince(s, t) && forall op <- ops :: NotBefore(op, t)
    ensures AllSince(PerformAll(s, ops), t)
    decreases |ops|
  {
    hide Perform, AllSince, NotBefore;
    if ops != [] {
      PerformStaysSince(s, t, ops[0]);
      StaysSince(Perform(s, ops[0]).0, t, ops[1..]);
    }
  }

  /** However often it is used, an entry keeps the client and the time of its creation, until it is dropped. */
  lemma UseDoesNotProlong(s: Plugin, op: PluginOp, k: string)
    ensures k in s.v3Clients && k in Perform(s, op).0.v3Clients ==> Perform(s, op).0.v3Clients[k] == s.v3Clients[k]
    ensures k in s.v2Clients && k in Perform(s, op).0.v2Clients ==>
              Perform(s, op).0.v2Clients[k] == s.v2Clients[k].(signature := Perform(s, op).0.v2Clients[k].signature)
  {
    hide V3Ids, V2Ids, EffectiveTLSConfiguration;
  }
}
