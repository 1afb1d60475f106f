/** The handlers as they run: transformers that update storage and a shared role object in place, a chain runner that
    stops early, and a nested runner over two containers. Each refines its meaning in the engine. */
module Handlers {
  import opened Records
  import opened Codec
  import opened Engine
  import opened Vocabulary
  import opened Exchange
  import opened Retry
  import Terms

  /** The heap of one request. Roles are carried by reference. */
  class Container {
    var role: StoredRole?
    var recipient: Option<Certificate>
    var token: Option<string>
    var status: Option<int>

    function View(): Heap
      reads this, role
    {
      Heap(if role == null then None else Some(role.Value()), recipient, token, status)
    }

    constructor ()
      ensures View() == EMPTY_HEAP && role == null
    {
      role, recipient, token, status := null, None, None, None;
    }

    method CarryRole(r: StoredRole)
      modifies this`role
      ensures role == r
    {
      role := r;
    }
  }

  class Backend {
    const env: Env
    var store: Store
    var tick: nat
    var req: nat
    var live: Live
    ghost var trace: Trace

    ghost function View(): World
      reads this
    {
      World(store, tick, req, live, trace)
    }

    constructor (env: Env, live: Live)
      ensures View() == Empty(live) && this.env == env
    {
      this.env, this.live := env, live;
      store, tick, req, trace := map[], 0, 0, [];
    }

    // ---- storage ----

    /** A put takes effect if it succeeds, and may do so even if it fails. */
    method Persist(path: Path, entry: Entry) returns (ok: bool, ghost landed: bool)
      modifies this`store, this`tick
      ensures ok == env.ok(old(tick)) && landed == env.Lands(old(tick)) && tick == old(tick) + 1
      ensures store == if landed then old(store)[path := entry] else old(store)
    {
      ok, landed := env.ok(tick), env.Lands(tick);
      if env.Lands(tick) { store := store[path := entry]; }
      tick := tick + 1;
    }

    method Get(path: Path) returns (ok: bool, entry: Option<Entry>)
      modifies this`tick
      ensures ok == env.ok(old(tick)) && tick == old(tick) + 1
      ensures entry == if ok && path in store then Some(store[path]) else None
    {
      ok := env.ok(tick);
      tick := tick + 1;
      entry := if ok && path in store then Some(store[path]) else None;
    }

    method Delete(path: Path) returns (ok: bool, ghost landed: bool)
      modifies this`store, this`tick
      ensures ok == env.ok(old(tick)) && landed == env.Lands(old(tick)) && tick == old(tick) + 1
      ensures store == if landed then old(store) - {path} else old(store)
    {
      ok, landed := env.ok(tick), env.Lands(tick);
      if env.Lands(tick) { store := store - {path}; }
      tick := tick + 1;
    }

    ghost method LogIf(landed: bool, e: Event)
      modifies this`trace
      ensures trace == if landed then old(trace) + [e] else old(trace)
    {
      if landed { trace := trace + [e]; }
    }

    ghost method Log(e: Event)
      modifies this`trace
      ensures trace == old(trace) + [e]
    {
      trace := trace + [e];
    }

    // ---- reading and saving ----

    /** Decodes the stored keys, if any, over the role's own. */
    method ReadKeys(p: string, sr: StoredRole) returns (found: Found<()>)
      requires sr.keys == INITIAL_KEYS
      modifies this`tick, sr`keys
      ensures tick == old(tick) + 1
      ensures found.Broken? <==> !env.ok(old(tick)) || KeysIn(store, p).Broken?
      ensures found.Is? ==> KeysIn(store, p) == Is(sr.keys)
      ensures found.Absent? ==> KeysIn(store, p).Absent? && sr.keys == INITIAL_KEYS
    {
      var ok, entry := Get(RolePath(p, KeyRecord));
      if !ok { return Broken; }
      if entry.None? { return Absent; }
      if !entry.value.KeysJson? { return Broken; }
      var decoded := DecodeKeys(entry.value.keys, sr.keys);
      if decoded.None? { return Broken; }
      sr.keys := decoded.value;
      found := Is(());
    }

    method ReadUsage(p: string, sr: StoredRole) returns (found: Found<()>)
      requires sr.usage == ZERO_USAGE
      modifies this`tick, sr`usage
      ensures tick == old(tick) + 1
      ensures found.Broken? <==> !env.ok(old(tick)) || UsageIn(store, p).Broken?
      ensures found.Is? ==> UsageIn(store, p) == Is(sr.usage)
      ensures found.Absent? ==> UsageIn(store, p).Absent? && sr.usage == ZERO_USAGE
    {
      var ok, entry := Get(RolePath(p, UsageRecord));
      if !ok { return Broken; }
      if entry.None? { return Absent; }
      if !entry.value.UsageJson? { return Broken; }
      var decoded := DecodeUsage(entry.value.usage, sr.usage);
      if decoded.None? { return Broken; }
      sr.usage := decoded.value;
      found := Is(());
    }

    method ReadRole(p: string, requireRole: bool, c: Container) returns (reply: Reply)
      modifies this`tick, this`trace, c`role
      ensures Out(View(), c.View(), reply) == ReadRoleDo(env, p, requireRole, old(View()), old(c.View()))
      ensures c.role == old(c.role) || fresh(c.role)
    {
      var sr := new StoredRole(p);
      var keys := ReadKeys(p, sr);
      if keys.Broken? { return Fail; }
      if keys.Absent? && requireRole { return Refused; }
      var usage := ReadUsage(p, sr);
      if usage.Broken? { return Fail; }
      if usage.Absent? && requireRole { return Refused; }
      c.CarryRole(sr);
      if requireRole { Log(Loaded(req, p, sr.keys, sr.usage)); }
      reply := Continue;
    }

    method SaveRoleKeys(p: string, cause: KeysCause, c: Container) returns (reply: Reply)
      requires c.role != null
      modifies this`store, this`tick, this`trace
      ensures Out(View(), c.View(), reply) == ApplyToRole(env, p, SaveKeys(cause), old(View()), old(c.View()))
    {
      var ok, landed := Persist(RolePath(p, KeyRecord), KeysJson(EncodeKeys(c.role.keys)));
      LogIf(landed, SavedKeys(req, p, c.role.keys, cause));
      reply := if ok then Continue else Fail;
    }

    method SaveRoleUsage(p: string, cause: UsageCause, c: Container) returns (reply: Reply)
      requires c.role != null
      modifies this`store, this`tick, this`trace
      ensures Out(View(), c.View(), reply) == ApplyToRole(env, p, SaveUsage(cause), old(View()), old(c.View()))
    {
      var ok, landed := Persist(RolePath(p, UsageRecord), UsageJson(EncodeUsage(c.role.usage)));
      LogIf(landed, SavedUsage(req, p, c.role.usage, cause));
      reply := if ok then Continue else Fail;
    }

    // ---- edits of the role ----

    /** Takes over a field that the request defines. */
    method FieldOr<T>(given: Option<T>, current: T) returns (r: T)
      ensures r == Or(given, current) && r == Taken(given, current)
    {
      r := current;
      if given.Some? { r := given.value; }
    }

    method UpdateRoleKeysFromRequest(p: string, u: KeyUpdate, c: Container) returns (reply: Reply)
      requires c.role != null
      modifies c.role`keys
      ensures Out(View(), c.View(), reply) == ApplyToRole(env, p, UpdateKeys(u), old(View()), old(c.View()))
      ensures reply == Continue && CredentialsTaken(old(c.role.keys), u, c.role.keys)
      ensures c.role.keys.maxQPS == Taken(u.qps, old(c.role.keys.maxQPS))
    {
      EditKeys(u, c.role);
      reply := Continue;
    }

    method EditKeys(u: KeyUpdate, role: StoredRole)
      modifies role`keys
      ensures role.keys == Updated(old(role.keys), u)
      ensures CredentialsTaken(old(role.keys), u, role.keys) && role.keys.maxQPS == Taken(u.qps, old(role.keys.maxQPS))
    {
      hide Or, Taken;
      var areaId := FieldOr(u.areaId, role.keys.areaId);
      role.keys := role.keys.(areaId := areaId);
      var areaNid := FieldOr(u.areaNid, role.keys.areaNid);
      role.keys := role.keys.(areaNid := areaNid);
      var apiKey := FieldOr(u.apiKey, role.keys.apiKey);
      role.keys := role.keys.(apiKey := apiKey);
      var keySecret := FieldOr(u.keySecret, role.keys.keySecret);
      role.keys := role.keys.(keySecret := keySecret);
      var username := FieldOr(u.username, role.keys.username);
      role.keys := role.keys.(username := username);
      var password := FieldOr(u.password, role.keys.password);
      role.keys := role.keys.(password := password);
      var maxQPS := FieldOr(u.qps, role.keys.maxQPS);
      role.keys := role.keys.(maxQPS := maxQPS);
    }

    method SetInitialRoleUsage(p: string, c: Container) returns (reply: Reply)
      requires c.role != null
      modifies c.role`usage
      ensures Out(View(), c.View(), reply) == ApplyToRole(env, p, SetInitialUsage, old(View()), old(c.View()))
      ensures c.role.usage == RoleUsage("", -1, -1, -1, -1, -1)
    {
      c.role.UnboundedUsage();
      c.role.ResetToken();
      reply := Continue;
    }

    method ForgetUsedToken(p: string, c: Container) returns (reply: Reply)
      requires c.role != null
      modifies c.role`usage
      ensures Out(View(), c.View(), reply) == ApplyToRole(env, p, ForgetToken, old(View()), old(c.View()))
      ensures TokenBlank(c.role.usage)
    {
      c.role.ResetToken();
      reply := Continue;
    }

    /** The unit is taken from the role object first and then persisted; what follows runs only if it was. */
    method DecreaseRemainingUsageQuota(p: string, c: Container) returns (reply: Reply)
      requires c.role != null
      modifies this`store, this`tick, this`trace, c.role`usage
      ensures Out(View(), c.View(), reply) == ApplyToRole(env, p, DecreaseQuota, old(View()), old(c.View()))
      ensures WithinLimits(old(c.role.usage), old(c.role.usage.explicitTerm)) ==> c.role.usage == OneUseLess(old(c.role.usage))
      ensures reply == Continue && c.role.usage.explicitNumUses > 0 ==> UsageIn(store, p) == Is(c.role.usage)
    {
      if c.role.usage.HasUsageQuota() {
        c.role.ReduceRemainingQuota();
        var ok, landed := Persist(RolePath(p, UsageRecord), UsageJson(EncodeUsage(c.role.usage)));
        LogIf(landed, SavedUsage(req, p, c.role.usage, Spend));
        UsageReadBack(c.role.usage);
        if !ok { return Fail; }
      }
      reply := Continue;
    }

    // ---- export and import ----

    method RetrievePrivateKey(p: string, c: Container) returns (reply: Reply)
      requires c.role != null
      modifies this`store, this`tick, this`trace, c.role`privateKey
      ensures Out(View(), c.View(), reply) == ApplyToRole(env, p, Step.RetrievePrivateKey, old(View()), old(c.View()))
    {
      var ok, entry := Get(RolePath(p, PkRecord));
      if !ok { return Fail; }
      if entry.Some? {
        if entry.value.Blob? { c.role.privateKey := Some(entry.value.privateKey); }
        return Continue;
      }
      var generated := env.rsaKey(tick);
      tick := tick + 1;
      if generated.None? { return Fail; }
      c.role.privateKey := generated;
      var saved, landed := Persist(RolePath(p, PkRecord), Blob(generated.value));
      LogIf(landed, SavedPk(req, p, generated.value));
      reply := if saved then Continue else Fail;
    }

    /** Builds the exchange data, then edits it field by field as the settings ask. */
    method CreateRoleDataExchange(k: RoleKeys, settings: Desired, now: int) returns (exp: RoleDataExchange)
      ensures exp == ExportOf(k, settings, now)
    {
      var expiry := 0;
      if settings.term != 0 { expiry := Unix(now + settings.term); }
      var data := RoleKeys(k.areaId, k.areaNid, k.apiKey, k.keySecret, k.username, k.password, k.maxQPS, false, false, false);
      var term := UsageTerm(expiry, 0);
      data := data.(forceProxyMode := settings.forceProxyMode);
      data := data.(exportable := settings.exportable);
      if settings.numUses > 0 { term := term.(explicitNumUses := settings.numUses); }
      if settings.qps > 0 { data := data.(maxQPS := settings.qps); }
      if settings.onlyV2 {
        data := data.(areaId := "");
        data := data.(username := "");
        data := data.(password := "");
      }
      if settings.onlyV3 { data := data.(areaNid := 0); }
      exp := RoleDataExchange(data, Some(term));
    }

    method RenderEncryptedRoleData(p: string, x: ExportRequest, c: Container) returns (reply: Reply)
      requires c.role != null
      modifies this`tick
      ensures Out(View(), c.View(), reply) == ApplyToRole(env, p, RenderExport(x), old(View()), old(c.View()))
      ensures c.recipient.Some? ==>
                reply ==
                if !TermParses(x, env.clock(old(tick)), env.library) then Refused
                else if !env.encrypts(old(tick) + 2) then Fail
                else Respond(RoleExport(Sealed(c.recipient.value.publicKey, live.oaepLabel,
                                               Packed(EncodeExchange(Handed(env, c.role.keys, x, old(tick)))))))
    {
      HandedIsExported(env, c.role.keys, x, tick);
      hide ParseDesired, ExportOf, EncodeExchange, TermParses, Handed;
      var settings := ParseDesired(x, env.clock(tick), env.library);
      tick := tick + 1;
      if settings.None? { return Refused; }
      var exp := CreateRoleDataExchange(c.role.keys, settings.value, env.clock(tick));
      tick := tick + 2;
      if c.recipient.None? || !env.encrypts(tick - 1) { return Fail; }
      reply := Respond(RoleExport(Sealed(c.recipient.value.publicKey, live.oaepLabel, Packed(EncodeExchange(exp)))));
    }

    method ImportPEMEncodedExchangeData(p: string, sealed: Sealed, c: Container) returns (reply: Reply)
      requires c.role != null
      modifies c.role`keys, c.role`usage
      ensures Out(View(), c.View(), reply) == ApplyToRole(env, p, ImportPem(sealed), old(View()), old(c.View()))
    {
      if c.role.privateKey.None? { return Fail; }
      var plain := Open(c.role.privateKey.value, live.oaepLabel, sealed);
      if plain.None? || plain.value.Garbled? { return Refused; }
      var expRole := DecodeExchange(plain.value.exchange);
      if expRole.None? { return Refused; }
      c.role.Import(expRole.value);
      reply := Continue;
    }

    // ---- tokens and calls ----

    method EnsureAccessTokenValidForRole(p: string, c: Container) returns (reply: Reply)
      requires c.role != null
      modifies this`store, this`tick, this`trace, c.role`usage
      ensures Out(View(), c.View(), reply) == EnsureTokenDo(env, p, old(View()), old(c.View()))
      ensures RenewedIfOld(env, old(tick), old(c.role.usage), c.role.usage, reply)
    {
      hide EncodeUsage, KeysIn, UsageIn;
      ghost var begun := tick;
      var now := env.Seconds(tick);
      tick := tick + 1;
      if !c.role.usage.V3TokenNeedsRenew(now) {
        Log(Kept(req, p, begun));
        return Continue;
      }
      var answer := env.oauth(tick);
      var obtained := env.Seconds(tick);
      tick := tick + 1;
      if answer.Denied? { return Fail; }
      c.role.ReplaceAccessToken(answer.token, obtained + answer.expiresIn, env.Seconds(tick));
      tick := tick + 1;
      var ok, landed := Persist(RolePath(p, UsageRecord), UsageJson(EncodeUsage(c.role.usage)));
      Log(if landed then SavedUsage(req, p, c.role.usage, Refresh(begun)) else LostToken(req, p));
      reply := if ok then Continue else Fail;
    }

    /** Refresh and fetch, at most three times: only a 403 for an inactive developer leads to another round. */
    method DoFetchWithErrorHandling(p: string, probe: bool, c: Container) returns (reply: Reply)
      requires c.role != null
      modifies this`store, this`tick, this`trace, c`status, c.role`usage
      ensures Out(View(), c.View(), reply) == ApplyToRole(env, p, FetchV3(probe), old(View()), old(c.View()))
    {
      hide EnsureTokenDo, FetchDo, RenewedIfOld;
      for i := 0 to FETCH_ROUNDS
        invariant c.role == old(c.role) && req == old(req)
        invariant FetchDo(env, p, probe, View(), c.View(), FETCH_ROUNDS - i) ==
                  FetchDo(env, p, probe, old(View()), old(c.View()), FETCH_ROUNDS)
      {
        TokenKeepsRole(env, p, View(), c.View());
        RoundMeans(env, p, probe, View(), c.View(), FETCH_ROUNDS - i);
        var refreshed := EnsureAccessTokenValidForRole(p, c);
        if refreshed != Continue { return refreshed; }
        var answer := env.upstream(tick);
        Log(Performed(req, p, V3Call(probe, c.role.usage.v3Token, answer), tick));
        tick := tick + 1;
        if answer.TransportError? { return Fail; }
        if answer.code != 403 {
          c.status := Some(answer.code);
          return Continue;
        }
        if !answer.inactiveDeveloper { return Fail; }
        c.role.ResetToken();
        Log(Rejected(req, p));
      }
      NoRounds(env, p, probe, View(), c.View());
      reply := Fail;
    }

    method RetrieveV3AccessToken(p: string, c: Container) returns (reply: Reply)
      requires c.role != null
      modifies this`tick, this`trace, c`token
      ensures Out(View(), c.View(), reply) == ApplyToRole(env, p, RetrieveV3Token, old(View()), old(c.View()))
      ensures var (answer, term) := (env.oauth(old(tick)), c.role.usage.explicitTerm);
              if answer.Denied? || (answer.serverTime > 0 && term > 0 && answer.serverTime > term) then reply == Fail
              else reply == Continue && c.token == Some(answer.token)
    {
      var answer := env.oauth(tick);
      tick := tick + 1;
      if answer.Denied? { return Fail; }
      if answer.serverTime > 0 && c.role.usage.Expired(answer.serverTime) { return Fail; }
      Log(Performed(req, p, TokenGrant(answer.token), tick - 1));
      c.token := Some(answer.token);
      reply := Continue;
    }

    method RehydrateV3AccessToken(p: string, c: Container) returns (reply: Reply)
      requires c.role != null
      modifies this`tick, this`trace, c`token
      ensures Out(View(), c.View(), reply) == ApplyToRole(env, p, RehydrateToken, old(View()), old(c.View()))
    {
      Log(Performed(req, p, TokenReveal(c.role.usage.v3Token, c.role.usage.v3TokenExpiry), tick));
      tick := tick + 1;
      c.token := Some(c.role.usage.v3Token);
      reply := Continue;
    }

    method ExecuteV2Call(p: string, c: Container) returns (reply: Reply)
      requires c.role != null
      modifies this`tick, this`trace, c`status
      ensures Out(View(), c.View(), reply) == ApplyToRole(env, p, CallV2, old(View()), old(c.View()))
    {
      var answer := env.upstream(tick);
      Log(Performed(req, p, V2Call, tick));
      tick := tick + 1;
      if answer.TransportError? { return Fail; }
      c.status := Some(answer.code);
      reply := Continue;
    }

    method BlockUsageExceedingLimits(p: string, c: Container) returns (reply: Reply)
      requires c.role != null
      modifies this`tick, this`trace
      ensures Out(View(), c.View(), reply) == ApplyToRole(env, p, Step.BlockUsageExceedingLimits, old(View()), old(c.View()))
      ensures reply == if WithinLimits(c.role.usage, Second(env, old(tick))) then Continue else Refused
    {
      var now := env.Seconds(tick);
      tick := tick + 1;
      if c.role.usage.Expired(now) { return Refused; }
      if c.role.usage.Depleted() { return Refused; }
      Log(Checked(req, p, tick - 1));
      reply := Continue;
    }

    method RenderRoleCertificate(p: string, c: Container) returns (reply: Reply)
      requires c.role != null
      modifies this`tick
      ensures Out(View(), c.View(), reply) == ApplyToRole(env, p, RenderCertificate, old(View()), old(c.View()))
    {
      if c.role.privateKey.None? { return Fail; }
      var notBefore, notAfter := env.clock(tick), env.clock(tick + 1) + CERTIFICATE_LIFE;
      tick := tick + 2;
      reply := Respond(RoleCertificate(Certificate(c.role.privateKey.value.id, notBefore, notAfter)));
    }

    method ReadRecipientCertificate(p: string, input: RecipientInput, c: Container) returns (reply: Reply)
      requires c.role != null
      modifies this`tick, c`recipient
      ensures Out(View(), c.View(), reply) == ApplyToRole(env, p, ReadRecipient(input), old(View()), old(c.View()))
      ensures reply == Continue <==>
              && input.CertificatePem?
              && input.certificate.notBefore <= env.clock(old(tick)) <= input.certificate.notAfter
      ensures reply == Continue ==> c.recipient == Some(input.certificate)
    {
      if input.NotACertificate? { return Refused; }
      var now := env.clock(tick);
      tick := tick + 1;
      if now < input.certificate.notBefore { return Refused; }
      if now > input.certificate.notAfter { return Refused; }
      c.recipient := Some(input.certificate);
      reply := Continue;
    }

    /** The transformers that only look at the role or at the upstream's answer. */
    method Inspect(p: string, s: Step, c: Container) returns (reply: Reply)
      requires c.role != null
      requires s.BlockImported? || s.BlockForceProxy? || s.BlockIncapableOf? || s.BlockNonExportable?
               || s.BounceErrors? || s.Render?
      ensures Out(View(), c.View(), reply) == ApplyToRole(env, p, s, old(View()), old(c.View()))
    {
      var block := false;
      match s {
        case BlockImported => block := c.role.keys.imported;
        case BlockForceProxy => block := c.role.keys.forceProxyMode;
        case BlockNonExportable => block := !c.role.keys.exportable;
        case BlockIncapableOf(api) =>
          var capable := false;
          if api == 2 { capable := c.role.keys.IsV2Capable(); }
          else if api == 3 { capable := c.role.keys.IsV3Capable(); }
          block := !capable;
        case BounceErrors =>
          if c.status.None? { return Fail; }
          block := c.status.value == 403 || c.status.value == 404 || c.status.value > 299;
        case Render(output) => return Respond(output);
      }
      reply := if block then Refused else Continue;
    }

    method RemoveRecord(p: string, kind: Kind, c: Container) returns (reply: Reply)
      modifies this`store, this`tick, this`trace
      ensures Out(View(), c.View(), reply) == Apply(env, p, DeleteRecord(kind), old(View()), old(c.View()))
    {
      var ok, landed := Delete(RolePath(p, kind));
      LogIf(landed, Dropped(req, p, kind));
      reply := if ok then Continue else Fail;
    }

    // ---- chains ----

    method RetrieveV2Signature(p: string, c: Container) returns (reply: Reply)
      requires c.role != null
      modifies this`tick, this`trace
      ensures Out(View(), c.View(), reply) == ApplyToRole(env, p, Step.RetrieveV2Signature, old(View()), old(c.View()))
    {
      Log(Performed(req, p, V2Signature, tick));
      tick := tick + 1;
      reply := Continue;
    }

    method TransformRole(p: string, s: Step, c: Container) returns (reply: Reply)
      requires c.role != null && !s.ReadRole? && !s.DeleteRecord?
      modifies this, c, c.role
      ensures Out(View(), c.View(), reply) == ApplyToRole(env, p, s, old(View()), old(c.View()))
      ensures c.role == old(c.role)
    {
      hide ApplyToRole, EnsureTokenDo;
      match s {
        case BlockUsageExceedingLimits => reply := BlockUsageExceedingLimits(p, c);
        case UpdateKeys(u) => reply := UpdateRoleKeysFromRequest(p, u, c);
        case SetInitialUsage => reply := SetInitialRoleUsage(p, c);
        case ForgetToken => reply := ForgetUsedToken(p, c);
        case SaveKeys(cause) => reply := SaveRoleKeys(p, cause, c);
        case SaveUsage(cause) => reply := SaveRoleUsage(p, cause, c);
        case DecreaseQuota => reply := DecreaseRemainingUsageQuota(p, c);
        case RetrievePrivateKey => reply := RetrievePrivateKey(p, c);
        case RenderCertificate => reply := RenderRoleCertificate(p, c);
        case ReadRecipient(input) => reply := ReadRecipientCertificate(p, input, c);
        case RenderExport(x) => reply := RenderEncryptedRoleData(p, x, c);
        case ImportPem(sealed) => reply := ImportPEMEncodedExchangeData(p, sealed, c);
        case EnsureToken =>
          EnsureMeans(p, old(View()), old(c.View()));
          reply := EnsureAccessTokenValidForRole(p, c);
        case RetrieveV2Signature => reply := RetrieveV2Signature(p, c);
        case RetrieveV3Token => reply := RetrieveV3AccessToken(p, c);
        case RehydrateToken => reply := RehydrateV3AccessToken(p, c);
        case CallV2 => reply := ExecuteV2Call(p, c);
        case FetchV3(probe) => reply := DoFetchWithErrorHandling(p, probe, c);
        case _ => reply := Inspect(p, s, c);
      }
    }

    lemma EnsureMeans(p: string, w: World, h: Heap)
      requires h.role.Some?
      ensures ApplyToRole(env, p, EnsureToken, w, h) == EnsureTokenDo(env, p, w, h)
    {}

    method Transform(p: string, s: Step, c: Container) returns (reply: Reply)
      modifies this, c, c.role
      ensures Out(View(), c.View(), reply) == Apply(env, p, s, old(View()), old(c.View()))
      ensures c.role == old(c.role) || fresh(c.role)
    {
      hide ApplyToRole, ReadRoleDo;
      match s {
        case ReadRole(requireRole) => reply := ReadRole(p, requireRole, c);
        case DeleteRecord(kind) => reply := RemoveRecord(p, kind, c);
        case _ =>
          if c.role == null { return Fail; }
          reply := TransformRole(p, s, c);
      }
    }

    /** The chain: each transformer in turn, until one answers or fails. */
    method RunChain(p: string, f: seq<Step>, c: Container) returns (reply: Reply)
      modifies this, c, c.role
      ensures Out(View(), c.View(), reply) == RunSteps(env, p, f, old(View()), old(c.View()))
      ensures c.role == old(c.role) || fresh(c.role)
    {
      hide Apply;
      for i := 0 to |f|
        invariant c.role == old(c.role) || fresh(c.role)
        invariant RunSteps(env, p, f[i..], View(), c.View()) == RunSteps(env, p, f, old(View()), old(c.View()))
      {
        assert f[i..][0] == f[i] && f[i..][1..] == f[i + 1..];
        reply := Transform(p, f[i], c);
        if reply != Continue { return; }
      }
      assert f[|f|..] == [];
      reply := Continue;
    }

    /** The nested runner: the parent works on a container of its own; the child carries the same role object on. */
    method RunNested(p: string, parent: seq<Step>, child: seq<Step>) returns (reply: Reply)
      modifies this
      ensures View() == RunHandler(env, p, Nested(parent, child), old(View())).w
      ensures reply == RunHandler(env, p, Nested(parent, child), old(View())).reply
    {
      hide RunSteps;
      var parentCtx := new Container();
      reply := RunChain(p, parent, parentCtx);
      if reply != Continue { return; }
      var ctx := new Container();
      if parentCtx.role != null { ctx.CarryRole(parentCtx.role); }
      reply := RunChain(p, child, ctx);
    }

    method Handle(r: Request) returns (reply: Reply)
      modifies this
      ensures (View(), reply) == RunRequest(env, old(View()), r)
    {
      hide RunSteps, HandlerOf;
      req := req + 1;
      var early := Preflight(live, r.op);
      if early.Some? {
        if r.op.Reconfigure? { live := r.op.live; }
        return early.value;
      }
      match HandlerOf(r.op) {
        case Flat(steps) =>
          var ctx := new Container();
          reply := RunChain(r.role, steps, ctx);
        case Nested(parent, child) =>
          reply := RunNested(r.role, parent, child);
      }
    }

    /** A serial run. */
    method Serve(rs: seq<Request>)
      modifies this
      ensures View() == RunAll(env, old(View()), rs)
    {
      hide RunRequest;
      for i := 0 to |rs|
        invariant RunAll(env, View(), rs[i..]) == RunAll(env, old(View()), rs)
      {
        assert rs[i..][0] == rs[i] && rs[i..][1..] == rs[i + 1..];
        var _ := Handle(rs[i]);
      }
      assert rs[|rs|..] == [];
    }
  }
}
