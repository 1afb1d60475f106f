/** The meaning of one request: handlers are chains of transformers over the storage and the request's heap. */
module Engine {
  import opened Records
  import opened Codec
  import Terms

  // ---- storage ----

  datatype Kind = KeyRecord | UsageRecord | PkRecord

  datatype Path = RolePath(role: string, kind: Kind)

  datatype Entry = KeysJson(keys: KeysObject) | UsageJson(usage: UsageObject) | Blob(privateKey: PrivateKey)

  type Store = map<Path, Entry>

  /** The outcome of a successful `Get`: nothing there, something that does not decode, or a record. */
  datatype Found<+T> = Absent | Broken | Is(value: T)

  function KeysIn(store: Store, p: string): Found<RoleKeys> {
    var path := RolePath(p, KeyRecord);
    if path !in store then Absent
    else if !store[path].KeysJson? then Broken
    else match DecodeKeys(store[path].keys, INITIAL_KEYS) case None => Broken case Some(k) => Is(k)
  }

  function UsageIn(store: Store, p: string): Found<RoleUsage> {
    var path := RolePath(p, UsageRecord);
    if path !in store then Absent
    else if !store[path].UsageJson? then Broken
    else match DecodeUsage(store[path].usage, ZERO_USAGE) case None => Broken case Some(u) => Is(u)
  }

  function PkIn(store: Store, p: string): Found<PrivateKey> {
    var path := RolePath(p, PkRecord);
    if path !in store then Absent else if store[path].Blob? then Is(store[path].privateKey) else Broken
  }

  // ---- the environment ----

  datatype OAuthAnswer = Denied | Granted(token: string, expiresIn: int, serverTime: int)
  datatype Upstream = TransportError | Status(code: int, inactiveDeveloper: bool)

  /** Everything the engine does not decide. Each interaction consumes one tick, and what happens at a tick, the
      clock included, is arbitrary: `ok` says whether the storage operation of that tick succeeds, and `sticks`
      whether a write that fails took effect all the same. */
  datatype Env = Env(
    clock: nat -> int, ok: nat -> bool, sticks: nat -> bool, oauth: nat -> OAuthAnswer, upstream: nat -> Upstream,
    rsaKey: nat -> Option<PrivateKey>, encrypts: nat -> bool, library: Terms.Library)
  {
    function Seconds(t: nat): int {
      Unix(clock(t))
    }

    predicate Lands(t: nat) {
      ok(t) || sticks(t)
    }

    ghost predicate Monotone() {
      forall s: nat, t: nat :: s <= t ==> clock(s) <= clock(t)
    }
  }

  // ---- what is observed ----

  datatype Effect =
    | V2Signature
    | V2Call
    | TokenGrant(token: string)
    | TokenReveal(token: string, expiry: int)
    | V3Call(probe: bool, token: string, answer: Upstream)

  datatype KeysCause = FromRequest | FromImport
  datatype UsageCause = Spend | Refresh(at: nat) | FromTerm | Reset | Forget

  /** The trace of a run. Every event carries the number of the request it belongs to and the role it is about. */
  datatype Event =
    | Loaded(req: nat, role: string, keys: RoleKeys, usage: RoleUsage)
    | Checked(req: nat, role: string, at: nat)
    | Kept(req: nat, role: string, at: nat)
    | SavedKeys(req: nat, role: string, keys: RoleKeys, kcause: KeysCause)
    | SavedUsage(req: nat, role: string, usage: RoleUsage, cause: UsageCause)
    | SavedPk(req: nat, role: string, privateKey: PrivateKey)
    | Dropped(req: nat, role: string, kind: Kind)
    | LostToken(req: nat, role: string)
    | Rejected(req: nat, role: string)
    | Performed(req: nat, role: string, effect: Effect, at: nat)

  type Trace = seq<Event>

  /** The live configuration, as far as role handlers consult it. */
  datatype Live = Live(oaepLabel: string, cliWrite: bool)

  datatype World = World(store: Store, tick: nat, req: nat, live: Live, trace: Trace) {
    function Ticked(n: nat): World {
      this.(tick := tick + n)
    }

    function Log(e: Event): World {
      this.(trace := trace + [e])
    }

    function WithKeys(p: string, k: RoleKeys, cause: KeysCause): World {
      this.(store := store[RolePath(p, KeyRecord) := KeysJson(EncodeKeys(k))]).Log(SavedKeys(req, p, k, cause))
    }

    function WithUsage(p: string, u: RoleUsage, cause: UsageCause): World {
      this.(store := store[RolePath(p, UsageRecord) := UsageJson(EncodeUsage(u))]).Log(SavedUsage(req, p, u, cause))
    }

    function WithPk(p: string, k: PrivateKey): World {
      this.(store := store[RolePath(p, PkRecord) := Blob(k)]).Log(SavedPk(req, p, k))
    }

    function Without(p: string, kind: Kind): World {
      this.(store := store - {RolePath(p, kind)}).Log(Dropped(req, p, kind))
    }
  }

  // ---- the parties to an export ----

  /** Instants in nanoseconds. */
  datatype Certificate = Certificate(publicKey: nat, notBefore: int, notAfter: int)
  datatype RecipientInput = NotACertificate | CertificatePem(certificate: Certificate)

  /** RSAES-OAEP, section 7.1 of RFC 8017: the recipient's key and the same label, and nothing else, open it. */
  datatype Content = Garbled | Packed(exchange: ExchangeObject)
  datatype Sealed = Sealed(publicKey: nat, sealedWith: string, content: Content)

  function Open(k: PrivateKey, oaepLabel: string, c: Sealed): Option<Content> {
    if c.publicKey == k.id && c.sealedWith == oaepLabel then Some(c.content) else None
  }

  datatype ExportRequest = ExportRequest(
    term: Option<string>, numUses: Option<int>, qps: Option<int>, forceProxyMode: Option<bool>,
    onlyV2: Option<bool>, onlyV3: Option<bool>, exportable: Option<bool>)

  datatype Desired = Desired(
    term: int, numUses: int, qps: int, forceProxyMode: bool, onlyV2: bool, onlyV3: bool, exportable: bool)

  function Or<T>(o: Option<T>, default: T): T {
    if o.Some? then o.value else default
  }

  function ParseDesired(x: ExportRequest, now: int, lib: Terms.Library): Option<Desired> {
    var term := if x.term == None then Some(0) else Terms.ParseUserInputDuration(x.term.value, now, lib);
    if term == None then None
    else Some(Desired(term.value, Or(x.numUses, -1), Or(x.qps, -1), Or(x.forceProxyMode, false),
                      Or(x.onlyV2, false), Or(x.onlyV3, false), Or(x.exportable, false)))
  }

  /** What is exported of a role: `now` is an instant, and a term of zero sets no limit. */
  function ExportOf(k: RoleKeys, d: Desired, now: int): RoleDataExchange {
    var narrowed := k.(
      areaId := if d.onlyV2 then "" else k.areaId,
      username := if d.onlyV2 then "" else k.username,
      password := if d.onlyV2 then "" else k.password,
      areaNid := if d.onlyV3 then 0 else k.areaNid,
      maxQPS := if d.qps > 0 then d.qps else k.maxQPS,
      forceProxyMode := d.forceProxyMode,
      imported := false,
      exportable := d.exportable);
    RoleDataExchange(narrowed, Some(UsageTerm(if d.term == 0 then 0 else Unix(now + d.term),
                                              if d.numUses > 0 then d.numUses else 0)))
  }

  // ---- transformers ----

  datatype KeyUpdate = KeyUpdate(
    areaId: Option<string>, areaNid: Option<int>, apiKey: Option<string>, keySecret: Option<string>,
    username: Option<string>, password: Option<string>, qps: Option<int>)

  function Updated(k: RoleKeys, u: KeyUpdate): RoleKeys {
    k.(areaId := Or(u.areaId, k.areaId), areaNid := Or(u.areaNid, k.areaNid), apiKey := Or(u.apiKey, k.apiKey),
       keySecret := Or(u.keySecret, k.keySecret), username := Or(u.username, k.username),
       password := Or(u.password, k.password), maxQPS := Or(u.qps, k.maxQPS))
  }

  datatype Output =
    RoleView | RoleCertificate(certificate: Certificate) | RoleExport(sealed: Sealed) | Credential | Relayed

  /** What a transformer returns: nothing, an error response, a response, or an error. */
  datatype Reply = Continue | Refused | Respond(output: Output) | Fail

  datatype Heap = Heap(role: Option<Role>, recipient: Option<Certificate>, token: Option<string>, status: Option<int>)
  {
    function WithUsage(u: RoleUsage): Heap
      requires role.Some?
    {
      this.(role := Some(role.value.(usage := u)))
    }

    function WithKeys(k: RoleKeys): Heap
      requires role.Some?
    {
      this.(role := Some(role.value.(keys := k)))
    }
  }

  const EMPTY_HEAP := Heap(None, None, None, None)

  datatype Step =
    | ReadRole(mustBePresent: bool)
    | BlockImported
    | BlockForceProxy
    | BlockUsageExceedingLimits
    | BlockIncapableOf(api: int)
    | BlockNonExportable
    | UpdateKeys(update: KeyUpdate)
    | SetInitialUsage
    | ForgetToken
    | SaveKeys(kcause: KeysCause)
    | SaveUsage(cause: UsageCause)
    | DecreaseQuota
    | RetrievePrivateKey
    | RenderCertificate
    | ReadRecipient(input: RecipientInput)
    | RenderExport(settings: ExportRequest)
    | ImportPem(sealed: Sealed)
    | EnsureToken
    | RetrieveV2Signature
    | RetrieveV3Token
    | RehydrateToken
    | CallV2
    | FetchV3(probe: bool)
    | BounceErrors
    | Render(output: Output)
    | DeleteRecord(kind: Kind)

  datatype Out = Out(w: World, h: Heap, reply: Reply)

  function Go(w: World, h: Heap): Out {
    Out(w, h, Continue)
  }

  function Gate(w: World, h: Heap, pass: bool): Out {
    Out(w, h, if pass then Continue else Refused)
  }

  /** A write at tick `t`: it succeeds, or fails with or without having taken effect. */
  function Write(env: Env, t: nat, missed: World, landed: World, h: Heap): Out {
    Out(if env.Lands(t) then landed else missed, h, if env.ok(t) then Continue else Fail)
  }

  function ReadRoleDo(env: Env, p: string, must: bool, w: World, h: Heap): Out {
    var keys := KeysIn(w.store, p);
    if !env.ok(w.tick) || keys.Broken? then Out(w.Ticked(1), h, Fail)
    else if keys.Absent? && must then Out(w.Ticked(1), h, Refused)
    else
      var usage := UsageIn(w.store, p);
      if !env.ok(w.tick + 1) || usage.Broken? then Out(w.Ticked(2), h, Fail)
      else if usage.Absent? && must then Out(w.Ticked(2), h, Refused)
      else
        var role := InitialRole(p).(keys := if keys.Is? then keys.value else INITIAL_KEYS,
                                    usage := if usage.Is? then usage.value else ZERO_USAGE);
        var w' := w.Ticked(2);
        Go(if must then w'.Log(Loaded(w.req, p, role.keys, role.usage)) else w', h.(role := Some(role)))
  }

  /** The token refresh shared by every V3 path: the new token is stored in the role, then persisted. */
  function EnsureTokenDo(env: Env, p: string, w: World, h: Heap): Out
    requires h.role.Some?
  {
    var role := h.role.value;
    if !role.usage.V3TokenNeedsRenew(env.Seconds(w.tick)) then Go(w.Ticked(1).Log(Kept(w.req, p, w.tick)), h)
    else match env.oauth(w.tick + 1)
      case Denied => Out(w.Ticked(2), h, Fail)
      case Granted(token, expiresIn, _) =>
        var usage := Refreshed(env, w.tick, role.usage);
        var h' := h.WithUsage(usage);
        Write(env, w.tick + 3, w.Ticked(4).Log(LostToken(w.req, p)), w.Ticked(4).WithUsage(p, usage, Refresh(w.tick)), h')
  }

  /** The usage record after the renewal begun at tick `t`: the token was obtained at `t + 1`, stored at `t + 2`. */
  function Refreshed(env: Env, t: nat, u: RoleUsage): RoleUsage
    requires env.oauth(t + 1).Granted?
  {
    var answer := env.oauth(t + 1);
    u.WithToken(answer.token, env.Seconds(t + 1) + answer.expiresIn, env.Seconds(t + 2))
  }

  /** At most `rounds` rounds of refresh and fetch; only a 403 for an inactive developer leads to another round. */
  function FetchDo(env: Env, p: string, probe: bool, w: World, h: Heap, rounds: nat): Out
    requires h.role.Some?
    decreases rounds
  {
    if rounds == 0 then Out(w, h, Fail)
    else
      var o := EnsureTokenDo(env, p, w, h);
      if o.reply != Continue then o
      else
        var role := o.h.role.value;
        var answer := env.upstream(o.w.tick);
        var w1 := o.w.Ticked(1).Log(Performed(w.req, p, V3Call(probe, role.usage.v3Token, answer), o.w.tick));
        match answer
        case TransportError => Out(w1, o.h, Fail)
        case Status(code, inactive) =>
          if code != 403 then Go(w1, o.h.(status := Some(code)))
          else if !inactive then Out(w1, o.h, Fail)
          else
            FetchDo(env, p, probe, w1.Log(Rejected(w.req, p)), o.h.WithUsage(role.usage.WithoutToken()), rounds - 1)
  }

  const FETCH_ROUNDS := 3
  const CERTIFICATE_LIFE := 4 * 3600 * NANOS_PER_SECOND

  /** One transformer that needs a role in the heap. */
  function ApplyToRole(env: Env, p: string, s: Step, w: World, h: Heap): Out
    requires h.role.Some? && !s.ReadRole? && !s.DeleteRecord?
  {
    var role := h.role.value;
    match s
    case BlockImported => Gate(w, h, !role.keys.imported)
    case BlockForceProxy => Gate(w, h, !role.keys.forceProxyMode)
    case BlockUsageExceedingLimits =>
      if role.usage.Expired(env.Seconds(w.tick)) || role.usage.Depleted() then Out(w.Ticked(1), h, Refused)
      else Go(w.Ticked(1).Log(Checked(w.req, p, w.tick)), h)
    case BlockIncapableOf(api) =>
      Gate(w, h, (api == 2 && role.keys.IsV2Capable()) || (api == 3 && role.keys.IsV3Capable()))
    case BlockNonExportable => Gate(w, h, role.keys.exportable)
    case UpdateKeys(update) => Go(w, h.WithKeys(Updated(role.keys, update)))
    case SetInitialUsage => Go(w, h.WithUsage(role.usage.Unbounded().WithoutToken()))
    case ForgetToken => Go(w, h.WithUsage(role.usage.WithoutToken()))
    case SaveKeys(cause) =>
      Write(env, w.tick, w.Ticked(1), w.Ticked(1).WithKeys(p, role.keys, cause), h)
    case SaveUsage(cause) =>
      Write(env, w.tick, w.Ticked(1), w.Ticked(1).WithUsage(p, role.usage, cause), h)
    case DecreaseQuota =>
      if !role.usage.HasUsageQuota() then Go(w, h)
      else
        var left := role.usage.Reduced();
        Write(env, w.tick, w.Ticked(1), w.Ticked(1).WithUsage(p, left, Spend), h.WithUsage(left))
    case RetrievePrivateKey =>
      if !env.ok(w.tick) then Out(w.Ticked(1), h, Fail)
      else (match PkIn(w.store, p)
            case Is(k) => Go(w.Ticked(1), h.(role := Some(role.(privateKey := Some(k)))))
            case Broken => Go(w.Ticked(1), h)
            case Absent =>
              match env.rsaKey(w.tick + 1)
              case None => Out(w.Ticked(2), h, Fail)
              case Some(k) =>
                var h' := h.(role := Some(role.(privateKey := Some(k))));
                Write(env, w.tick + 2, w.Ticked(3), w.Ticked(3).WithPk(p, k), h'))
    case RenderCertificate =>
      if role.privateKey == None then Out(w, h, Fail)
      else
        var certificate := Certificate(role.privateKey.value.id, env.clock(w.tick), env.clock(w.tick + 1) + CERTIFICATE_LIFE);
        Out(w.Ticked(2), h, Respond(RoleCertificate(certificate)))
    case ReadRecipient(input) =>
      (match input
       case NotACertificate => Out(w, h, Refused)
       case CertificatePem(c) =>
         if c.notBefore <= env.clock(w.tick) <= c.notAfter then Go(w.Ticked(1), h.(recipient := Some(c)))
         else Out(w.Ticked(1), h, Refused))
    case RenderExport(settings) =>
      (match ParseDesired(settings, env.clock(w.tick), env.library)
       case None => Out(w.Ticked(1), h, Refused)
       case Some(desired) =>
         if h.recipient == None || !env.encrypts(w.tick + 2) then Out(w.Ticked(3), h, Fail)
         else
           var x := ExportOf(role.keys, desired, env.clock(w.tick + 1));
           var sealed := Sealed(h.recipient.value.publicKey, w.live.oaepLabel, Packed(EncodeExchange(x)));
           Out(w.Ticked(3), h, Respond(RoleExport(sealed))))
    case ImportPem(sealed) =>
      if role.privateKey == None then Out(w, h, Fail)
      else (match Open(role.privateKey.value, w.live.oaepLabel, sealed)
            case Some(Packed(o)) =>
              (match DecodeExchange(o)
               case Some(x) => Go(w, h.(role := Some(Imported(role, x))))
               case None => Out(w, h, Refused))
            case _ => Out(w, h, Refused))
    case EnsureToken => EnsureTokenDo(env, p, w, h)
    case RetrieveV2Signature => Go(w.Ticked(1).Log(Performed(w.req, p, V2Signature, w.tick)), h)
    case RetrieveV3Token =>
      (match env.oauth(w.tick)
       case Denied => Out(w.Ticked(1), h, Fail)
       case Granted(token, _, serverTime) =>
         if serverTime > 0 && role.usage.Expired(serverTime) then Out(w.Ticked(1), h, Fail)
         else Go(w.Ticked(1).Log(Performed(w.req, p, TokenGrant(token), w.tick)), h.(token := Some(token))))
    case RehydrateToken =>
      var shown := TokenReveal(role.usage.v3Token, role.usage.v3TokenExpiry);
      Go(w.Ticked(1).Log(Performed(w.req, p, shown, w.tick)), h.(token := Some(role.usage.v3Token)))
    case CallV2 =>
      var w' := w.Ticked(1).Log(Performed(w.req, p, V2Call, w.tick));
      (match env.upstream(w.tick)
       case TransportError => Out(w', h, Fail)
       case Status(code, _) => Go(w', h.(status := Some(code))))
    case FetchV3(probe) => FetchDo(env, p, probe, w, h, FETCH_ROUNDS)
    case BounceErrors =>
      if h.status == None then Out(w, h, Fail)
      else Gate(w, h, h.status.value != 403 && h.status.value != 404 && h.status.value <= 299)
    case Render(output) => Out(w, h, Respond(output))
  }

  function Apply(env: Env, p: string, s: Step, w: World, h: Heap): Out {
    match s
    case ReadRole(must) => ReadRoleDo(env, p, must, w, h)
    case DeleteRecord(kind) =>
      Write(env, w.tick, w.Ticked(1), w.Ticked(1).Without(p, kind), h)
    case _ => if h.role == None then Out(w, h, Fail) else ApplyToRole(env, p, s, w, h)
  }

  function RunSteps(env: Env, p: string, steps: seq<Step>, w: World, h: Heap): Out {
    if steps == [] then Go(w, h)
    else
      var o := Apply(env, p, steps[0], w, h);
      if o.reply != Continue then o else RunSteps(env, p, steps[1..], o.w, o.h)
  }

  // ---- handlers ----

  datatype V3Kind = CliRead | CliWrite(hasBody: bool) | CliDelete | Proxied

  datatype Op =
    | Create(update: KeyUpdate)
    | ReadData
    | Update(update: KeyUpdate)
    | Delete
    | Export(input: RecipientInput, settings: ExportRequest)
    | Import(block: Option<Sealed>)
    | ReadPem
    | Grant(api: Option<int>)
    | ReadToken
    | DeleteToken
    | CliV2(hasParams: bool)
    | ProxyV2(hasParams: bool)
    | V3(kind: V3Kind)
    | ProbeV3
    | Reconfigure(live: Live)

  datatype Request = Request(role: string, op: Op)

  /** A nested handler runs its parent steps over a role container of its own, then its child steps. */
  datatype Handler = Flat(steps: seq<Step>) | Nested(parent: seq<Step>, child: seq<Step>)

  const V3_BASE := [ReadRole(true), BlockUsageExceedingLimits, BlockIncapableOf(3), EnsureToken, DecreaseQuota]

  function HandlerOf(op: Op): Handler
    requires !op.Reconfigure? && (op.Import? ==> op.block.Some?)
  {
    match op
    case Create(update) =>
      Flat([ReadRole(false), BlockImported, UpdateKeys(update), SaveKeys(FromRequest), SetInitialUsage, SaveUsage(Reset)])
    case ReadData => Flat([ReadRole(true), Render(RoleView)])
    case Update(update) => Flat([ReadRole(true), BlockImported, UpdateKeys(update), SaveKeys(FromRequest)])
    case Delete => Flat([DeleteRecord(UsageRecord), DeleteRecord(PkRecord), DeleteRecord(KeyRecord)])
    case Export(input, settings) =>
      Flat([ReadRole(true), BlockNonExportable, ReadRecipient(input), RenderExport(settings)])
    case Import(block) =>
      Flat([ReadRole(true), RetrievePrivateKey, ImportPem(block.value), SaveKeys(FromImport), SaveUsage(FromTerm)])
    case ReadPem => Flat([ReadRole(true), RetrievePrivateKey, RenderCertificate])
    case Grant(api) =>
      var version := Or(api, 3);
      Nested([ReadRole(true), BlockForceProxy, BlockUsageExceedingLimits, BlockIncapableOf(version), DecreaseQuota],
             [if version == 2 then RetrieveV2Signature else RetrieveV3Token, Render(Credential)])
    case ReadToken =>
      Nested([ReadRole(true), BlockForceProxy, BlockUsageExceedingLimits, BlockIncapableOf(3), DecreaseQuota, EnsureToken],
             [RehydrateToken, Render(Credential)])
    case DeleteToken => Flat([ReadRole(true), ForgetToken, SaveUsage(Forget)])
    case CliV2(_) =>
      Flat([ReadRole(true), BlockUsageExceedingLimits, BlockIncapableOf(2), DecreaseQuota, CallV2, Render(Relayed)])
    case ProxyV2(_) =>
      Nested([ReadRole(true), BlockIncapableOf(2), BlockUsageExceedingLimits, DecreaseQuota], [CallV2, Render(Relayed)])
    case V3(Proxied) => Flat(V3_BASE + [FetchV3(false), Render(Relayed)])
    case V3(CliDelete) => Flat(V3_BASE + [FetchV3(false), BounceErrors])
    case V3(_) => Flat(V3_BASE + [FetchV3(false), BounceErrors, Render(Relayed)])
    case ProbeV3 =>
      Nested([ReadRole(true), BlockUsageExceedingLimits, BlockIncapableOf(3)], [EnsureToken, FetchV3(true), BounceErrors])
  }

  /** The answer given before any transformer runs, if any. */
  function Preflight(live: Live, op: Op): Option<Reply> {
    match op
    case Reconfigure(_) => Some(Continue)
    case Import(None) => Some(Refused)
    case Grant(Some(api)) => if 2 <= api <= 3 then None else Some(Refused)
    case CliV2(hasParams) => if hasParams then None else Some(Refused)
    case ProxyV2(hasParams) => if hasParams then None else Some(Refused)
    case V3(CliWrite(hasBody)) => if !live.cliWrite then Some(Refused) else if hasBody then None else Some(Fail)
    case V3(CliDelete) => if live.cliWrite then None else Some(Refused)
    case _ => None
  }

  function RunHandler(env: Env, p: string, handler: Handler, w: World): Out {
    match handler
    case Flat(steps) => RunSteps(env, p, steps, w, EMPTY_HEAP)
    case Nested(parent, child) =>
      var o := RunSteps(env, p, parent, w, EMPTY_HEAP);
      if o.reply != Continue then Out(o.w, EMPTY_HEAP, o.reply)
      else RunSteps(env, p, child, o.w, EMPTY_HEAP.(role := o.h.role))
  }

  function RunRequest(env: Env, w: World, r: Request): (World, Reply) {
    var w0 := w.(req := w.req + 1);
    match Preflight(w.live, r.op)
    case Some(reply) => (if r.op.Reconfigure? then w0.(live := r.op.live) else w0, reply)
    case None => var o := RunHandler(env, r.role, HandlerOf(r.op), w0); (o.w, o.reply)
  }

  /** A serial run. */
  function RunAll(env: Env, w: World, rs: seq<Request>): World
    decreases |rs|
  {
    if rs == [] then w else RunAll(env, RunRequest(env, w, rs[0]).0, rs[1..])
  }

  function Empty(live: Live): World {
    World(map[], 0, 0, live, [])
  }
}
