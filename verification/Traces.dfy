/** What the trace of a run says on its own: every event is justified by the events before it, and from that follow
    the quota ledger, the limits that stick, the storage invariant and the token budget. */
module Traces {
  import opened Records
  import opened Engine
  import opened Vocabulary

  // ---- replaying the records ----

  /** The keys as a read would return them, judging by the saves and deletions alone. */
  ghost function ReplayKeys(tr: Trace, p: string): Option<RoleKeys> {
    if tr == [] then None
    else
      var e, before := tr[|tr| - 1], tr[..|tr| - 1];
      if e.SavedKeys? && e.role == p then Some(e.keys.(maxQPS := if e.keys.maxQPS == 0 then 2 else e.keys.maxQPS))
      else if e.Dropped? && e.role == p && e.kind == KeyRecord then None
      else ReplayKeys(before, p)
  }

  ghost function ReplayUsage(tr: Trace, p: string): Option<RoleUsage> {
    if tr == [] then None
    else
      var e, before := tr[|tr| - 1], tr[..|tr| - 1];
      if e.SavedUsage? && e.role == p then Some(e.usage)
      else if e.Dropped? && e.role == p && e.kind == UsageRecord then None
      else ReplayUsage(before, p)
  }

  ghost function ReplayPk(tr: Trace, p: string): Option<PrivateKey> {
    if tr == [] then None
    else
      var e, before := tr[|tr| - 1], tr[..|tr| - 1];
      if e.SavedPk? && e.role == p then Some(e.privateKey)
      else if e.Dropped? && e.role == p && e.kind == PkRecord then None
      else ReplayPk(before, p)
  }

  // ---- justified events ----

  ghost predicate IsSpend(e: Event, req: nat) {
    e.SavedUsage? && e.req == req && e.cause == Spend
  }

  predicate CapableOf(effect: Effect, k: RoleKeys) {
    if effect.V2Signature? || effect.V2Call? then AbleV2(k) else AbleV3(k)
  }

  predicate IsProbe(effect: Effect) {
    effect.V3Call? && effect.probe
  }

  /** Credentials that leave the engine by value, which a force-proxy role must never hand out. */
  predicate IsDirect(effect: Effect) {
    effect.V2Signature? || effect.TokenGrant? || effect.TokenReveal?
  }

  /** In request `req` the role was read from storage and passed the limits check at clock reading `at`. */
  ghost predicate Passed(env: Env, tr: Trace, req: nat, p: string, k: RoleKeys, u: RoleUsage, at: nat) {
    && Loaded(req, p, k, u) in tr
    && Checked(req, p, at) in tr
    && WithinLimits(u, Second(env, at))
  }

  /** In request `req` a unit of quota was spent. */
  ghost predicate Paid(tr: Trace, req: nat, p: string) {
    exists e <- tr :: IsSpend(e, req) && e.role == p
  }

  /** The gates an effect takes, for the limits that the stored record has at that moment. */
  ghost predicate Admitted(env: Env, tr: Trace, req: nat, p: string, effect: Effect) {
    exists k, u, at :: Passed(env, tr, req, p, k, u, at)
      && ReplayUsage(tr, p).Some? && SameLimits(u, ReplayUsage(tr, p).value)
      && CapableOf(effect, k)
      && (IsDirect(effect) ==> !k.forceProxyMode)
      && (u.explicitNumUses > 0 && !IsProbe(effect) ==> Paid(tr, req, p))
  }

  /** The token that expires at `expiry` was acquired in this request, or was seen to have the renewal margin left. */
  ghost predicate Freshens(env: Env, e: Event, req: nat, p: string, expiry: int) {
    && e.req == req && e.role == p
    && ((e.SavedUsage? && e.cause.Refresh?) || (e.Kept? && Second(env, e.at) <= expiry - 300))
  }

  ghost predicate FreshToken(env: Env, tr: Trace, req: nat, p: string, expiry: int) {
    exists e <- tr :: Freshens(env, e, req, p, expiry)
  }

  /** The tick at which the renewal began that the stored token comes from, if it comes from one. */
  ghost function TokenSource(tr: Trace, p: string): Option<nat> {
    if tr == [] then None
    else
      var e, before := tr[|tr| - 1], tr[..|tr| - 1];
      if e.SavedUsage? && e.role == p && e.cause.Refresh? then Some(e.cause.at)
      else if (e.SavedUsage? && e.role == p && (e.cause == Reset || e.cause == Forget))
              || (e.Dropped? && e.role == p && e.kind == UsageRecord) then None
      else TokenSource(before, p)
  }

  /** The record after the renewal begun at tick `at`: OAuth answered one tick later, and the new token was put into
      the record one tick after that. */
  ghost predicate Renewed(env: Env, at: nat, before: RoleUsage, u: RoleUsage) {
    && env.oauth(at + 1).Granted?
    && u.v3Token == env.oauth(at + 1).token
    && u.v3TokenExpiry == Second(env, at + 1) + env.oauth(at + 1).expiresIn
    && u.v3TokenObtained == Second(env, at + 2)
    && SameLimits(u, before) && u.remainingNumUses == before.remainingNumUses
  }

  ghost predicate Justified(env: Env, tr: Trace, e: Event) {
    var keys, prev := ReplayKeys(tr, e.role), ReplayUsage(tr, e.role);
    match e
    case Loaded(_, _, k, u) => keys == Some(k) && prev == Some(u)
    case SavedKeys(_, _, k, FromRequest) => !k.imported && (keys.Some? ==> !keys.value.imported)
    case SavedKeys(_, _, k, FromImport) => k.imported && keys.Some?
    case SavedUsage(req, p, u, cause) =>
      keys.Some? && (cause == Reset || prev.Some?) &&
      (match cause
       case Spend =>
         prev.value.explicitNumUses > 0 && prev.value.remainingNumUses > 0
         && SameLimits(u, prev.value) && SameToken(u, prev.value) && u.remainingNumUses == prev.value.remainingNumUses - 1
         && (forall other <- tr :: !IsSpend(other, req))
       case Refresh(at) =>
         Renewed(env, at, prev.value, u) && (TokenIsOld(prev.value, Second(env, at)) || Rejected(req, p) in tr)
       case FromTerm =>
         keys.value.imported && SameToken(u, prev.value) && (u.explicitNumUses > 0 ==> u.remainingNumUses == u.explicitNumUses)
       case Reset => !keys.value.imported && u == RoleUsage("", -1, -1, -1, -1, -1)
       case Forget =>
         TokenBlank(u) && SameLimits(u, prev.value) && u.remainingNumUses == prev.value.remainingNumUses)
    case Kept(_, _, at) => prev.Some? && !TokenIsOld(prev.value, Second(env, at))
    case SavedPk(_, p, _) => keys.Some? && ReplayPk(tr, p) == None
    case Dropped(_, p, kind) => kind == KeyRecord ==> prev == None && ReplayPk(tr, p) == None
    case Performed(req, p, effect, _) =>
      Admitted(env, tr, req, p, effect) && prev.Some?
      && (effect.V3Call? || effect.TokenReveal? ==> TokenSource(tr, p).Some?)
      && (effect.V3Call? ==> effect.token == prev.value.v3Token)
      && (effect.TokenReveal? ==>
            effect.token == prev.value.v3Token && effect.expiry == prev.value.v3TokenExpiry
            && FreshToken(env, tr, req, p, effect.expiry))
    case _ => true
  }

  ghost predicate Sound(env: Env, tr: Trace) {
    tr == [] || (Sound(env, tr[..|tr| - 1]) && Justified(env, tr[..|tr| - 1], tr[|tr| - 1]))
  }

  lemma {:induction false} SoundAt(env: Env, tr: Trace, i: nat)
    requires Sound(env, tr) && i < |tr|
    ensures Sound(env, tr[..i]) && Justified(env, tr[..i], tr[i])
  {
    if i < |tr| - 1 {
      SoundAt(env, tr[..|tr| - 1], i);
      assert tr[..|tr| - 1][..i] == tr[..i];
    }
  }

  lemma Appended(env: Env, tr: Trace, e: Event)
    ensures (tr + [e])[..|tr|] == tr
    ensures Sound(env, tr + [e]) <==> Sound(env, tr) && Justified(env, tr, e)
  {
    assert (tr + [e])[..|tr + [e]| - 1] == tr;
  }

  /** One event changes at most one record of one role. */
  lemma ReplayAppended(tr: Trace, e: Event, p: string)
    ensures ReplayKeys(tr + [e], p) ==
            if e.SavedKeys? && e.role == p then Some(e.keys.(maxQPS := if e.keys.maxQPS == 0 then 2 else e.keys.maxQPS))
            else if e.Dropped? && e.role == p && e.kind == KeyRecord then None else ReplayKeys(tr, p)
    ensures ReplayUsage(tr + [e], p) ==
            if e.SavedUsage? && e.role == p then Some(e.usage)
            else if e.Dropped? && e.role == p && e.kind == UsageRecord then None else ReplayUsage(tr, p)
    ensures ReplayPk(tr + [e], p) ==
            if e.SavedPk? && e.role == p then Some(e.privateKey)
            else if e.Dropped? && e.role == p && e.kind == PkRecord then None else ReplayPk(tr, p)
    ensures TokenSource(tr + [e], p) ==
            if e.SavedUsage? && e.role == p && e.cause.Refresh? then Some(e.cause.at)
            else if (e.SavedUsage? && e.role == p && (e.cause == Reset || e.cause == Forget))
                    || (e.Dropped? && e.role == p && e.kind == UsageRecord) then None
            else TokenSource(tr, p)
  {
    assert (tr + [e])[..|tr + [e]| - 1] == tr;
  }

  // ---- the storage invariant ----

  predicate QuotaInBounds(u: RoleUsage) {
    u.explicitNumUses > 0 ==> 0 <= u.remainingNumUses <= u.explicitNumUses
  }

  /** A usage or private-key record exists only beside a key record, a limit only beside an imported key, and a
      quota never exceeds what was granted. */
  ghost predicate RecordsConsistent(keys: Option<RoleKeys>, usage: Option<RoleUsage>, pk: Option<PrivateKey>) {
    && (usage.Some? || pk.Some? ==> keys.Some?)
    && (usage.Some? && (usage.value.explicitNumUses > 0 || usage.value.explicitTerm > 0) ==> keys.value.imported)
    && (usage.Some? ==> QuotaInBounds(usage.value))
  }

  lemma {:induction false} RecordsStayConsistent(env: Env, tr: Trace, p: string)
    requires Sound(env, tr)
    ensures RecordsConsistent(ReplayKeys(tr, p), ReplayUsage(tr, p), ReplayPk(tr, p))
  {
    if tr != [] {
      RecordsStayConsistent(env, tr[..|tr| - 1], p);
    }
  }

  // ---- the ledger ----

  ghost function AllowanceOf(u: Option<RoleUsage>): nat {
    if u.Some? && u.value.explicitNumUses > 0 && u.value.remainingNumUses > 0 then u.value.remainingNumUses else 0
  }

  /** Units spent, units granted by imports, and units given up when an import or a deletion replaced a record. */
  ghost function Spent(tr: Trace, p: string): nat {
    if tr == [] then 0
    else
      var e, before := tr[|tr| - 1], tr[..|tr| - 1];
      Spent(before, p) + if e.SavedUsage? && e.role == p && e.cause == Spend then 1 else 0
  }

  ghost function ImportedUses(tr: Trace, p: string): nat {
    if tr == [] then 0
    else
      var e, before := tr[|tr| - 1], tr[..|tr| - 1];
      ImportedUses(before, p) +
      if e.SavedUsage? && e.role == p && e.cause == FromTerm && e.usage.explicitNumUses > 0
      then e.usage.explicitNumUses else 0
  }

  ghost function ForfeitedUses(tr: Trace, p: string): nat {
    if tr == [] then 0
    else
      var e, before := tr[|tr| - 1], tr[..|tr| - 1];
      ForfeitedUses(before, p) +
      if e.role == p && ((e.SavedUsage? && e.cause == FromTerm) || (e.Dropped? && e.kind == UsageRecord))
      then AllowanceOf(ReplayUsage(before, p)) else 0
  }

  lemma {:induction false} LedgerBalances(env: Env, tr: Trace, p: string)
    requires Sound(env, tr)
    ensures Spent(tr, p) + AllowanceOf(ReplayUsage(tr, p)) + ForfeitedUses(tr, p) == ImportedUses(tr, p)
  {
    if tr != [] {
      var e, before := tr[|tr| - 1], tr[..|tr| - 1];
      LedgerBalances(env, before, p);
      RecordsStayConsistent(env, before, p);
    }
  }

  /** An effect for `p`, other than an existence probe, while the stored record was quota-bound. */
  ghost predicate IsBoundEffect(tr: Trace, p: string, i: nat)
    requires i < |tr|
  {
    && tr[i].Performed? && tr[i].role == p && !IsProbe(tr[i].effect)
    && ReplayUsage(tr[..i], p).Some? && ReplayUsage(tr[..i], p).value.explicitNumUses > 0
  }

  /** The requests that had such an effect. */
  ghost function BoundRequests(tr: Trace, p: string): set<nat> {
    set i: nat | i < |tr| && IsBoundEffect(tr, p, i) :: tr[i].req
  }

  ghost function SpendingRequests(tr: Trace, p: string): set<nat> {
    set e | e in tr && e.SavedUsage? && e.role == p && e.cause == Spend :: e.req
  }

  /** A request spends at most once. */
  lemma SpendIsFirst(env: Env, tr: Trace, e: Event, p: string)
    requires Justified(env, tr, e) && e.SavedUsage? && e.cause == Spend
    ensures e.req !in SpendingRequests(tr, p)
  {
    hide ReplayKeys, ReplayUsage;
    forall other | other in tr && other.SavedUsage? && other.cause == Spend ensures other.req != e.req {
      assert !IsSpend(other, e.req);
    }
  }

  lemma SpendersGrow(tr: Trace, e: Event, p: string)
    ensures SpendingRequests(tr + [e], p) ==
            SpendingRequests(tr, p) + if e.SavedUsage? && e.role == p && e.cause == Spend then {e.req} else {}
  {
    assert e in tr + [e];
  }

  lemma {:induction false} SpendingCount(env: Env, tr: Trace, p: string)
    requires Sound(env, tr)
    ensures |SpendingRequests(tr, p)| == Spent(tr, p)
  {
    hide SpendingRequests, Justified;
    if tr == [] {
      assert SpendingRequests([], p) == {} by { NobodySpent(p); }
    } else {
      var e, before := tr[|tr| - 1], tr[..|tr| - 1];
      SpendingCount(env, before, p);
      assert tr == before + [e];
      SpendersGrow(before, e, p);
      if e.SavedUsage? && e.role == p && e.cause == Spend { SpendIsFirst(env, before, e, p); }
    }
  }

  lemma NobodySpent(p: string)
    ensures SpendingRequests([], p) == {}
  {}

  /** Every request that had an effect for a quota-bound role spent a unit. */
  lemma BoundRequestsPay(env: Env, tr: Trace, p: string)
    requires Sound(env, tr)
    ensures BoundRequests(tr, p) <= SpendingRequests(tr, p)
    ensures |BoundRequests(tr, p)| <= Spent(tr, p)
  {
    forall i: nat | i < |tr| && IsBoundEffect(tr, p, i) ensures tr[i].req in SpendingRequests(tr, p) {
      SoundAt(env, tr, i);
      assert Admitted(env, tr[..i], tr[i].req, p, tr[i].effect);
      assert Paid(tr[..i], tr[i].req, p);
      var e :| e in tr[..i] && IsSpend(e, tr[i].req) && e.role == p;
      assert e in tr;
    }
    SpendingCount(env, tr, p);
    Subsets(BoundRequests(tr, p), SpendingRequests(tr, p));
  }

  lemma {:induction false} Subsets(a: set<nat>, b: set<nat>)
    requires a <= b
    ensures |a| <= |b|
  {
    if a != {} {
      var x :| x in a;
      Subsets(a - {x}, b - {x});
    }
  }

  // ---- limits stick ----

  ghost predicate IsImportOrDeletion(e: Event) {
    || (e.SavedKeys? && e.kcause == FromImport)
    || (e.SavedUsage? && e.cause == FromTerm)
    || e.Dropped?
  }

  /** An imported role's keys, term and quota size outlive everything but an import or a deletion, and meanwhile the
      remaining uses only go down. */
  lemma {:induction false} LimitsStick(env: Env, tr: Trace, ext: Trace, p: string)
    requires Sound(env, tr + ext)
    requires ReplayKeys(tr, p).Some? && ReplayKeys(tr, p).value.imported && ReplayUsage(tr, p).Some?
    requires forall e <- ext :: e.role == p ==> !IsImportOrDeletion(e)
    ensures ReplayKeys(tr + ext, p) == ReplayKeys(tr, p)
    ensures ReplayUsage(tr + ext, p).Some?
    ensures SameLimits(ReplayUsage(tr + ext, p).value, ReplayUsage(tr, p).value)
    ensures ReplayUsage(tr + ext, p).value.remainingNumUses <= ReplayUsage(tr, p).value.remainingNumUses
    decreases |ext|
  {
    if ext == [] {
      assert tr + ext == tr;
    } else {
      var e, front := ext[|ext| - 1], ext[..|ext| - 1];
      assert tr + ext == (tr + front) + [e];
      Appended(env, tr + front, e);
      ReplayAppended(tr + front, e, p);
      LimitsStick(env, tr, front, p);
    }
  }

  /** A private key, once there, is the same until a deletion. */
  lemma {:induction false} PrivateKeyStays(env: Env, tr: Trace, ext: Trace, p: string)
    requires Sound(env, tr + ext)
    requires forall e <- ext :: e.role == p ==> !e.Dropped?
    ensures ReplayPk(tr, p).Some? ==> ReplayPk(tr + ext, p) == ReplayPk(tr, p)
    ensures ReplayKeys(tr, p).Some? ==> ReplayKeys(tr + ext, p).Some?
    ensures ReplayUsage(tr, p).Some? ==> ReplayUsage(tr + ext, p).Some?
    decreases |ext|
  {
    if ext == [] {
      assert tr + ext == tr;
    } else {
      var e, front := ext[|ext| - 1], ext[..|ext| - 1];
      assert tr + ext == (tr + front) + [e];
      Appended(env, tr + front, e);
      ReplayAppended(tr + front, e, p);
      PrivateKeyStays(env, tr, front, p);
    }
  }

  // ---- where tokens come from ----

  /** An event that replaces or forgets the token of `p`. */
  ghost predicate ChangesToken(e: Event, p: string) {
    e.role == p && ((e.SavedUsage? && (e.cause.Refresh? || e.cause == Reset || e.cause == Forget))
                    || (e.Dropped? && e.kind == UsageRecord))
  }

  /** The stored token and its times are those of the OAuth answer that the latest renewal got, or blank if there was
      none since they were last forgotten. */
  lemma {:induction false} StoredTokenIsGranted(env: Env, tr: Trace, p: string)
    requires Sound(env, tr) && ReplayUsage(tr, p).Some?
    ensures var u := ReplayUsage(tr, p).value;
            match TokenSource(tr, p)
            case None => TokenBlank(u)
            case Some(at) =>
              && env.oauth(at + 1).Granted? && u.v3Token == env.oauth(at + 1).token
              && u.v3TokenExpiry == Second(env, at + 1) + env.oauth(at + 1).expiresIn
              && u.v3TokenObtained == Second(env, at + 2)
  {
    var e, before := tr[|tr| - 1], tr[..|tr| - 1];
    if ReplayUsage(before, p).Some? { StoredTokenIsGranted(env, before, p); }
  }

  /** The renewal that the token comes from is in the trace, and nothing after it touched the token. */
  lemma {:induction false} SourceIsTheLatest(tr: Trace, p: string) returns (j: nat)
    requires TokenSource(tr, p).Some?
    ensures j < |tr| && tr[j].SavedUsage? && tr[j].role == p && tr[j].cause == Refresh(TokenSource(tr, p).value)
    ensures forall i :: j < i < |tr| ==> !ChangesToken(tr[i], p)
  {
    var e, before := tr[|tr| - 1], tr[..|tr| - 1];
    if e.SavedUsage? && e.role == p && e.cause.Refresh? { j := |tr| - 1; } else { j := SourceIsTheLatest(before, p); }
  }

  lemma TokenOfEffect(env: Env, tr: Trace, i: nat) returns (j: nat, at: nat)
    requires Sound(env, tr) && i < |tr| && tr[i].Performed? && (tr[i].effect.V3Call? || tr[i].effect.TokenReveal?)
    ensures j < i && tr[j].SavedUsage? && tr[j].role == tr[i].role && tr[j].cause == Refresh(at)
    ensures forall k :: j < k < i ==> !ChangesToken(tr[k], tr[i].role)
    ensures env.oauth(at + 1).Granted? && tr[i].effect.token == env.oauth(at + 1).token
    ensures tr[i].effect.TokenReveal? ==> tr[i].effect.expiry == Second(env, at + 1) + env.oauth(at + 1).expiresIn
  {
    SoundAt(env, tr, i);
    hide Admitted, ReplayUsage, ReplayKeys, ReplayPk, Sound, FreshToken, TokenSource, ChangesToken;
    StoredTokenIsGranted(env, tr[..i], tr[i].role);
    j := SourceIsTheLatest(tr[..i], tr[i].role);
    at := TokenSource(tr[..i], tr[i].role).value;
    hide Justified;
    assert forall k :: 0 <= k < i ==> tr[..i][k] == tr[k];
  }

  // ---- the token budget ----

  /** When, in seconds, the tokens of `p` stored during `ext` were obtained. */
  ghost function Acquisitions(env: Env, ext: Trace, p: string): seq<int> {
    if ext == [] then []
    else
      var e, front := ext[|ext| - 1], ext[..|ext| - 1];
      Acquisitions(env, front, p) +
      if e.SavedUsage? && e.role == p && e.cause.Refresh? then [Second(env, e.cause.at + 1)] else []
  }

  /** An event that may lose a token that is still good. */
  ghost predicate LosesToken(e: Event) {
    || e.LostToken? || e.Rejected?
    || (e.SavedUsage? && (e.cause == Reset || e.cause == Forget))
    || (e.Dropped? && e.kind == UsageRecord)
  }

  /** Every token the upstream grants lives for `life` seconds. */
  ghost predicate TokensLive(env: Env, life: int) {
    forall t: nat :: env.oauth(t).Granted? ==> env.oauth(t).token != "" && env.oauth(t).expiresIn == life
  }

  ghost predicate Spaced(a: seq<int>, gap: int) {
    forall i :: 0 < i < |a| ==> a[i] - a[i - 1] >= gap
  }

  /** After acquisitions `a` the stored token is the last one acquired. */
  ghost predicate HoldsLast(u: Option<RoleUsage>, a: seq<int>, life: int) {
    a != [] ==> u.Some? && u.value.v3Token != "" && u.value.v3TokenExpiry == a[|a| - 1] + life
  }

  /** A renewal finds the last token past its margin, so it comes at least so much later than the last one. */
  lemma RenewalComesLate(env: Env, tr: Trace, e: Event, a: seq<int>, life: int)
    requires Justified(env, tr, e) && e.SavedUsage? && e.cause.Refresh? && Rejected(e.req, e.role) !in tr
    requires env.Monotone() && TokensLive(env, life)
    requires Spaced(a, life - 299) && HoldsLast(ReplayUsage(tr, e.role), a, life)
    ensures Spaced(a + [Second(env, e.cause.at + 1)], life - 299)
    ensures e.usage.v3Token != "" && e.usage.v3TokenExpiry == Second(env, e.cause.at + 1) + life
  {
    var at := e.cause.at;
    assert env.clock(at) <= env.clock(at + 1);
    assert env.oauth(at + 1).Granted?;
    var prev := ReplayUsage(tr, e.role).value;
    assert TokenIsOld(prev, Second(env, at));
    if a != [] {
      assert Second(env, at + 1) - a[|a| - 1] >= life - 299;
    }
  }

  lemma {:induction false} AcquisitionsAreSpaced(env: Env, tr: Trace, ext: Trace, p: string, life: int)
    requires Sound(env, tr + ext) && env.Monotone() && TokensLive(env, life)
    requires forall e <- ext :: e.role == p ==> !LosesToken(e) && Rejected(e.req, p) !in tr
    ensures Spaced(Acquisitions(env, ext, p), life - 299)
    ensures HoldsLast(ReplayUsage(tr + ext, p), Acquisitions(env, ext, p), life)
    decreases |ext|
  {
    if ext != [] {
      var e, front := ext[|ext| - 1], ext[..|ext| - 1];
      assert tr + ext == (tr + front) + [e];
      Appended(env, tr + front, e);
      ReplayAppended(tr + front, e, p);
      AcquisitionsAreSpaced(env, tr, front, p, life);
      if e.SavedUsage? && e.role == p && e.cause.Refresh? {
        assert Rejected(e.req, p) !in front;
        RenewalComesLate(env, tr + front, e, Acquisitions(env, front, p), life);
      } else if e.SavedUsage? && e.role == p {
        TokenIsKept(env, tr + front, e);
      }
    }
  }

  lemma TokenIsKept(env: Env, tr: Trace, e: Event)
    requires Justified(env, tr, e) && e.SavedUsage? && !e.cause.Refresh? && !LosesToken(e)
    ensures ReplayUsage(tr, e.role).Some?
    ensures e.usage.v3Token == ReplayUsage(tr, e.role).value.v3Token
    ensures e.usage.v3TokenExpiry == ReplayUsage(tr, e.role).value.v3TokenExpiry
  {
  }

  lemma {:induction false} SpacingAddsUp(a: seq<int>, gap: int)
    requires |a| > 0 && Spaced(a, gap)
    ensures a[|a| - 1] - a[0] >= (|a| - 1) * gap
  {
    if |a| > 1 {
      SpacingAddsUp(a[..|a| - 1], gap);
    }
  }
}
