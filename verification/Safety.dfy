/** Every handler keeps the storage in step with the trace and only produces justified events. The argument is a
    typestate: what a chain has established so far decides which transformer may come next. */
module Safety {
  import opened Records
  import opened Codec
  import opened Engine
  import opened Traces
  import opened Vocabulary

  ghost function AsFound<T>(o: Option<T>): Found<T> {
    match o case None => Absent case Some(v) => Is(v)
  }

  ghost predicate AgreesOn(store: Store, tr: Trace, p: string) {
    && KeysIn(store, p) == AsFound(ReplayKeys(tr, p))
    && UsageIn(store, p) == AsFound(ReplayUsage(tr, p))
    && PkIn(store, p) == AsFound(ReplayPk(tr, p))
  }

  /** The invariant: a read of any record returns what the trace last saved, and the trace is sound. */
  ghost predicate Inv(env: Env, w: World) {
    && (forall p :: AgreesOn(w.store, w.trace, p))
    && Sound(env, w.trace)
    && (forall e <- w.trace :: e.req <= w.req)
  }

  // ---- what each primitive needs and keeps ----

  ghost predicate ChangesNoRecord(e: Event) {
    !e.SavedKeys? && !e.SavedUsage? && !e.SavedPk? && !e.Dropped?
  }

  lemma LogKeeps(env: Env, w: World, e: Event)
    requires Inv(env, w) && ChangesNoRecord(e) && e.req == w.req && Justified(env, w.trace, e)
    ensures Inv(env, w.Log(e))
    ensures forall p :: ReplayKeys(w.Log(e).trace, p) == ReplayKeys(w.trace, p)
    ensures forall p :: ReplayUsage(w.Log(e).trace, p) == ReplayUsage(w.trace, p)
  {
    hide ReplayKeys, ReplayUsage, ReplayPk, TokenSource, Sound;
    Appended(env, w.trace, e);
    forall p
      ensures AgreesOn(w.store, w.Log(e).trace, p)
      ensures ReplayKeys(w.Log(e).trace, p) == ReplayKeys(w.trace, p)
      ensures ReplayUsage(w.Log(e).trace, p) == ReplayUsage(w.trace, p)
    {
      assert AgreesOn(w.store, w.trace, p);
      ReplayAppended(w.trace, e, p);
    }
  }

  lemma KeysKeep(env: Env, w: World, p: string, k: RoleKeys, cause: KeysCause)
    requires Inv(env, w) && Justified(env, w.trace, SavedKeys(w.req, p, k, cause))
    ensures Inv(env, w.WithKeys(p, k, cause))
  {
    hide ReplayKeys, ReplayUsage, ReplayPk, TokenSource, Sound;
    var e, w' := SavedKeys(w.req, p, k, cause), w.WithKeys(p, k, cause);
    Appended(env, w.trace, e);
    forall q ensures AgreesOn(w'.store, w'.trace, q) {
      assert AgreesOn(w.store, w.trace, q);
      ReplayAppended(w.trace, e, q);
      KeysReadBack(k);
    }
  }

  lemma UsageKeeps(env: Env, w: World, p: string, u: RoleUsage, cause: UsageCause)
    requires Inv(env, w) && Justified(env, w.trace, SavedUsage(w.req, p, u, cause))
    ensures Inv(env, w.WithUsage(p, u, cause))
  {
    hide ReplayKeys, ReplayUsage, ReplayPk, TokenSource, Sound;
    var e, w' := SavedUsage(w.req, p, u, cause), w.WithUsage(p, u, cause);
    Appended(env, w.trace, e);
    forall q ensures AgreesOn(w'.store, w'.trace, q) {
      assert AgreesOn(w.store, w.trace, q);
      ReplayAppended(w.trace, e, q);
      UsageReadBack(u);
    }
  }

  lemma PkKeeps(env: Env, w: World, p: string, k: PrivateKey)
    requires Inv(env, w) && Justified(env, w.trace, SavedPk(w.req, p, k))
    ensures Inv(env, w.WithPk(p, k))
  {
    hide ReplayKeys, ReplayUsage, ReplayPk, TokenSource, Sound;
    var e, w' := SavedPk(w.req, p, k), w.WithPk(p, k);
    Appended(env, w.trace, e);
    forall q ensures AgreesOn(w'.store, w'.trace, q) {
      assert AgreesOn(w.store, w.trace, q);
      ReplayAppended(w.trace, e, q);
    }
  }

  lemma DropKeeps(env: Env, w: World, p: string, kind: Kind)
    requires Inv(env, w) && Justified(env, w.trace, Dropped(w.req, p, kind))
    ensures Inv(env, w.Without(p, kind))
  {
    hide ReplayKeys, ReplayUsage, ReplayPk, TokenSource, Sound;
    var e, w' := Dropped(w.req, p, kind), w.Without(p, kind);
    Appended(env, w.trace, e);
    forall q ensures AgreesOn(w'.store, w'.trace, q) {
      assert AgreesOn(w.store, w.trace, q);
      ReplayAppended(w.trace, e, q);
    }
  }

  // ---- the typestate ----

  /** What a chain can have established about the role in its heap and the records in storage. */
  datatype Fact =
    | HasRole | AsRead | Keyed | KeysAgree | UsageAgree | Forgotten
    | Home | Unlimited | Incoming | Stamped
    | WasLoaded | WasChecked | V2Able | V3Able | MayHandOut | NotPaid | HasPaid | HasFreshToken
    | NoUsage | NoPk

  type Facts = set<Fact>

  const START: Facts := {NotPaid}

  /** A usage record without limits and without a token. */
  const BLANK_USAGE := RoleUsage("", -1, -1, -1, -1, -1)

  ghost predicate HoldsOfStorage(f: Facts, p: string, w: World) {
    && (Keyed in f ==> ReplayKeys(w.trace, p).Some?)
    && (Stamped in f ==> ReplayKeys(w.trace, p).Some? && ReplayKeys(w.trace, p).value.imported)
    && (NoUsage in f ==> ReplayUsage(w.trace, p) == None)
    && (NoPk in f ==> ReplayPk(w.trace, p) == None)
    && (NotPaid in f ==> forall e <- w.trace :: !IsSpend(e, w.req))
    && (HasFreshToken in f ==> TokenSource(w.trace, p).Some?)
  }

  /** The role as an import leaves it: marked, with a full quota, and with the token it had before. */
  ghost predicate IsIncoming(role: Role, before: RoleUsage) {
    && role.keys.imported && SameToken(role.usage, before)
    && (role.usage.HasUsageQuota() ==> role.usage.remainingNumUses == role.usage.explicitNumUses)
  }

  ghost predicate HoldsOfRecords(f: Facts, p: string, w: World, role: Role) {
    var keys, usage := ReplayKeys(w.trace, p), ReplayUsage(w.trace, p);
    && (AsRead in f ==> role.keys == if keys.Some? then keys.value else INITIAL_KEYS)
    && (KeysAgree in f ==> keys == Some(role.keys))
    && (UsageAgree in f ==> keys.Some? && usage == Some(role.usage))
    && (Forgotten in f ==> keys.Some? && usage.Some? && role.usage == usage.value.WithoutToken())
    && (Home in f ==> !role.keys.imported && (keys.Some? ==> !keys.value.imported))
    && (Unlimited in f ==> role.usage == BLANK_USAGE)
    && (Incoming in f ==> keys.Some? && usage.Some? && IsIncoming(role, usage.value))
  }

  /** The events that bear out the gates passed: what was read, when the limits were checked, the unit spent, and
      what showed the token to be good. */
  datatype Witness = Witness(read: RoleUsage, at: nat, spend: Event, token: Event)

  ghost predicate HoldsOfGates(env: Env, f: Facts, x: Witness, p: string, w: World, role: Role) {
    && (WasLoaded in f || WasChecked in f ==> Loaded(w.req, p, role.keys, x.read) in w.trace && SameLimits(x.read, role.usage))
    && (WasLoaded in f && NotPaid in f ==> x.read.remainingNumUses == role.usage.remainingNumUses)
    && (WasChecked in f ==> Passed(env, w.trace, w.req, p, role.keys, x.read, x.at) && (NotPaid in f ==> !role.usage.Depleted()))
    && (V2Able in f ==> role.keys.IsV2Capable())
    && (V3Able in f ==> role.keys.IsV3Capable())
    && (MayHandOut in f ==> !role.keys.forceProxyMode)
    && (HasPaid in f && role.usage.HasUsageQuota() ==> x.spend in w.trace && IsSpend(x.spend, w.req) && x.spend.role == p)
    && (HasFreshToken in f ==> x.token in w.trace && Freshens(env, x.token, w.req, p, role.usage.v3TokenExpiry))
  }

  ghost predicate Holds(env: Env, f: Facts, x: Witness, p: string, w: World, h: Heap) {
    && HoldsOfStorage(f, p, w)
    && (HasRole in f ==> h.role.Some? && HoldsOfRecords(f, p, w, h.role.value) && HoldsOfGates(env, f, x, p, w, h.role.value))
    && (HasRole !in f ==> h.role == None)
  }

  /** The transformer `s` may follow in state `f`, and the state after it when it lets the chain go on. */
  ghost function Next(f: Facts, s: Step): Option<Facts> {
    if s.ReadRole? then
      if f != START then None
      else if !s.mustBePresent then Some({NotPaid, HasRole, AsRead})
      else Some({NotPaid, HasRole, Keyed, KeysAgree, UsageAgree, WasLoaded})
    else if s.DeleteRecord? then
      if !(f <= {NotPaid, NoUsage, NoPk}) then None
      else match s.kind
        case UsageRecord => Some(f + {NoUsage})
        case PkRecord => Some(f + {NoPk})
        case KeyRecord => if NoUsage in f && NoPk in f then Some(f) else None
    else if HasRole !in f then None
    else match s
      case BlockImported => if AsRead in f || KeysAgree in f then Some(f + {Home}) else None
      case BlockForceProxy => Some(f + {MayHandOut})
      case BlockUsageExceedingLimits => if {WasLoaded, NotPaid} <= f then Some(f + {WasChecked}) else None
      case BlockIncapableOf(api) => Some(f + (if api == 2 then {V2Able} else {V3Able}))
      case UpdateKeys(_) => Some(f * {HasRole, Home, Keyed, NotPaid})
      case SetInitialUsage => Some(f * {HasRole, Home, Keyed, NotPaid} + {Unlimited})
      case ForgetToken => if UsageAgree in f then Some(f * {HasRole, NotPaid} + {Forgotten}) else None
      case SaveKeys(FromRequest) => if Home in f then Some(f * {HasRole, Home, NotPaid} + {Keyed}) else None
      case SaveKeys(FromImport) => if Incoming in f then Some(f * {HasRole, Incoming, NotPaid} + {Stamped}) else None
      case SaveUsage(cause) =>
        if || (cause == Reset && {Home, Keyed, Unlimited} <= f)
           || (cause == FromTerm && {Incoming, Stamped} <= f)
           || (cause == Forget && Forgotten in f)
        then Some(f * {HasRole, NotPaid}) else None
      case DecreaseQuota => if CanCall(f) && {WasChecked, NotPaid} <= f then Some(PaidUp(f)) else None
      case RetrievePrivateKey => if Keyed in f && NoPk !in f then Some(f) else None
      case ImportPem(_) => if UsageAgree in f then Some(f * {HasRole, NotPaid} + {Incoming}) else None
      case EnsureToken => if CanCall(f) then Some(Recent(f)) else None
      case RetrieveV2Signature => if {WasChecked, V2Able, MayHandOut, HasPaid, UsageAgree} <= f then Some(f) else None
      case RetrieveV3Token => if {WasChecked, V3Able, MayHandOut, HasPaid, UsageAgree} <= f then Some(f) else None
      case RehydrateToken =>
        if {WasChecked, V3Able, MayHandOut, HasPaid, HasFreshToken, UsageAgree} <= f then Some(f) else None
      case CallV2 => if {WasChecked, V2Able, HasPaid, UsageAgree} <= f then Some(f) else None
      case FetchV3(probe) =>
        if CanCall(f) && {WasChecked, V3Able} <= f && (probe || HasPaid in f) then Some(NotRecent(f)) else None
      case _ => Some(f)
  }

  /** The heap's usage record is the stored one, and no pending change of it is known. */
  ghost predicate CanCall(f: Facts) {
    UsageAgree in f && InStep(f)
  }

  ghost predicate InStep(f: Facts) {
    Forgotten !in f && Incoming !in f && Unlimited !in f && NoUsage !in f
  }

  // ---- one transformer ----

  /** What is to be shown of one transformer started in state `f`. */
  ghost predicate StepKeeps(env: Env, f: Facts, x: Witness, p: string, s: Step, w: World, h: Heap) {
    var o := Apply(env, p, s, w, h);
    && Inv(env, o.w) && o.w.req == w.req
    && (o.reply == Continue ==> Next(f, s).Some? && Holds(env, Next(f, s).value, x, p, o.w, o.h))
  }

  const GATES: Facts := {WasLoaded, WasChecked, V2Able, V3Able, MayHandOut, HasPaid, HasFreshToken}

  /** Without facts about gates there is nothing to show about them. */
  lemma HoldsWithoutGates(env: Env, f: Facts, x: Witness, p: string, w: World, h: Heap)
    requires HasRole in f && f !! GATES && h.role.Some?
    requires HoldsOfStorage(f, p, w) && HoldsOfRecords(f, p, w, h.role.value)
    ensures Holds(env, f, x, p, w, h)
  {
    hide HoldsOfStorage, HoldsOfRecords;
  }

  const AFTER_READ: Facts := {NotPaid, HasRole, Keyed, KeysAgree, UsageAgree, WasLoaded}

  lemma HoldsAfterRead(env: Env, x: Witness, p: string, w: World, h: Heap)
    requires h.role.Some? && HoldsOfStorage(START, p, w)
    requires ReplayKeys(w.trace, p) == Some(h.role.value.keys) && ReplayUsage(w.trace, p) == Some(h.role.value.usage)
    requires x.read == h.role.value.usage && Loaded(w.req, p, h.role.value.keys, x.read) in w.trace
    ensures Holds(env, AFTER_READ, x, p, w, h)
  {
    hide ReplayKeys, ReplayUsage, ReplayPk, TokenSource;
    assert HoldsOfStorage(AFTER_READ, p, w);
    assert HoldsOfRecords(AFTER_READ, p, w, h.role.value);
    assert HoldsOfGates(env, AFTER_READ, x, p, w, h.role.value) by { hide Passed, Freshens; }
    hide HoldsOfStorage, HoldsOfRecords, HoldsOfGates;
  }

  lemma ReadRoleKeeps(env: Env, f: Facts, x: Witness, p: string, s: Step, w: World, h: Heap) returns (x': Witness)
    requires Inv(env, w) && Holds(env, f, x, p, w, h) && Next(f, s).Some? && s.ReadRole?
    ensures StepKeeps(env, f, x', p, s, w, h)
  {
    var f', o := Next(f, s).value, Apply(env, p, s, w, h);
    assert f == START && f' == if s.mustBePresent then AFTER_READ else {NotPaid, HasRole, AsRead};
    hide Next, Justified, Sound, ReplayKeys, ReplayUsage, ReplayPk, TokenSource, HoldsOfRecords, HoldsOfGates;
    x' := x;
    assert AgreesOn(w.store, w.trace, p);
    if o.reply == Continue {
      var role := o.h.role.value;
      if s.mustBePresent {
        x' := x.(read := role.usage);
        LoadJustified(env, w, p);
        var e := Loaded(w.req, p, role.keys, role.usage);
        LogKeeps(env, w.Ticked(2), e);
        assert HoldsOfStorage(START, p, o.w) by { ReplayAppended(w.trace, e, p); }
        HoldsAfterRead(env, x', p, o.w, o.h);
      } else {
        HoldsAfterRawRead(env, x, p, o.w, o.h);
      }
      hide Inv, Apply, Holds;
    }
  }

  lemma HoldsAfterRawRead(env: Env, x: Witness, p: string, w: World, h: Heap)
    requires h.role.Some? && HoldsOfStorage(START, p, w)
    requires h.role.value.keys == if ReplayKeys(w.trace, p).Some? then ReplayKeys(w.trace, p).value else INITIAL_KEYS
    ensures Holds(env, {NotPaid, HasRole, AsRead}, x, p, w, h)
  {
    hide ReplayKeys, ReplayUsage, ReplayPk, TokenSource, HoldsOfGates;
    assert HoldsOfStorage({NotPaid, HasRole, AsRead}, p, w);
    HoldsWithoutGates(env, {NotPaid, HasRole, AsRead}, x, p, w, h);
  }

  lemma LoadJustified(env: Env, w: World, p: string)
    requires Inv(env, w) && KeysIn(w.store, p).Is? && UsageIn(w.store, p).Is?
    ensures Justified(env, w.trace, Loaded(w.req, p, KeysIn(w.store, p).value, UsageIn(w.store, p).value))
  {
    hide Sound, ReplayKeys, ReplayUsage, ReplayPk, TokenSource;
    assert AgreesOn(w.store, w.trace, p);
  }

  lemma DeleteKeeps(env: Env, f: Facts, x: Witness, p: string, s: Step, w: World, h: Heap)
    requires Inv(env, w) && Holds(env, f, x, p, w, h) && Next(f, s).Some? && s.DeleteRecord?
    ensures StepKeeps(env, f, x, p, s, w, h)
  {
    hide ReplayKeys, ReplayUsage, ReplayPk, TokenSource, Sound;
    var o := Apply(env, p, s, w, h);
    if env.Lands(w.tick) {
      DropKeeps(env, w.Ticked(1), p, s.kind);
      ReplayAppended(w.trace, Dropped(w.req, p, s.kind), p);
    }
  }

  /** Facts outlive an event that changes no record. */
  lemma HoldsAfterLog(env: Env, f: Facts, x: Witness, p: string, w: World, h: Heap, e: Event)
    requires Inv(env, w) && Holds(env, f, x, p, w, h)
    requires ChangesNoRecord(e) && e.req == w.req && Justified(env, w.trace, e)
    ensures Inv(env, w.Log(e)) && Holds(env, f, x, p, w.Log(e), h) && e in w.Log(e).trace
  {
    LogKeeps(env, w, e);
    ReplayAppended(w.trace, e, p);
    hide Inv, Justified, ReplayKeys, ReplayUsage, ReplayPk, TokenSource;
  }

  ghost function Learnt(s: Step): Fact
    requires s.BlockImported? || s.BlockForceProxy? || s.BlockIncapableOf?
  {
    if s.BlockImported? then Home else if s.BlockForceProxy? then MayHandOut else if s.api == 2 then V2Able else V3Able
  }

  lemma GatesKeep(env: Env, f: Facts, x: Witness, p: string, s: Step, w: World, h: Heap)
    requires Inv(env, w) && Holds(env, f, x, p, w, h) && Next(f, s).Some?
    requires s.BlockImported? || s.BlockForceProxy? || s.BlockIncapableOf?
    ensures StepKeeps(env, f, x, p, s, w, h)
  {
    assert HasRole in f && Next(f, s).value == f + {Learnt(s)};
    assert s.BlockImported? ==> AsRead in f || KeysAgree in f;
    hide Next, Inv;
    var o := Apply(env, p, s, w, h);
    assert o.w == w && o.h == h;
    if o.reply == Continue {
      assert GatePassed(s, h.role.value.keys);
      hide Apply;
      GateLearnt(env, f, x, p, s, w, h);
    }
  }

  ghost predicate GatePassed(s: Step, k: RoleKeys)
    requires s.BlockImported? || s.BlockForceProxy? || s.BlockIncapableOf?
  {
    if s.BlockImported? then !k.imported else if s.BlockForceProxy? then !k.forceProxyMode
    else if s.api == 2 then k.IsV2Capable() else k.IsV3Capable()
  }

  lemma GateLearnt(env: Env, f: Facts, x: Witness, p: string, s: Step, w: World, h: Heap)
    requires Holds(env, f, x, p, w, h) && HasRole in f
    requires s.BlockImported? || s.BlockForceProxy? || s.BlockIncapableOf?
    requires s.BlockImported? ==> AsRead in f || KeysAgree in f
    requires GatePassed(s, h.role.value.keys)
    ensures Holds(env, f + {Learnt(s)}, x, p, w, h)
  {
    hide ReplayKeys, ReplayUsage, ReplayPk, TokenSource;
    var f', role := f + {Learnt(s)}, h.role.value;
    assert HoldsOfStorage(f', p, w);
    assert HoldsOfRecords(f', p, w, role);
    assert HoldsOfGates(env, f', x, p, w, role) by { hide HoldsOfStorage, HoldsOfRecords; }
    hide HoldsOfStorage, HoldsOfRecords, HoldsOfGates;
  }

  lemma LimitsKeep(env: Env, f: Facts, x: Witness, p: string, s: Step, w: World, h: Heap) returns (x': Witness)
    requires Inv(env, w) && Holds(env, f, x, p, w, h) && Next(f, s).Some? && s.BlockUsageExceedingLimits?
    ensures StepKeeps(env, f, x', p, s, w, h)
  {
    hide Inv, HoldsOfStorage, HoldsOfRecords, Passed, ReplayKeys, ReplayUsage, ReplayPk, TokenSource, Sound, Justified;
    var f0 := f - {WasChecked};
    x' := x.(at := w.tick);
    assert Holds(env, f0, x', p, w, h) by { Forgetting(env, f, f0, x, x', p, w, h); }
    assert Inv(env, w.Ticked(1)) && Holds(env, f0, x', p, w.Ticked(1), h) by { InvIgnoresTick(env, f0, x', p, w, h, 1); }
    var e := Checked(w.req, p, w.tick);
    if Apply(env, p, s, w, h).reply == Continue {
      assert Justified(env, w.trace, e) by { NeutralJustified(env, w.trace, e); }
      HoldsAfterLog(env, f0, x', p, w.Ticked(1), h, e);
      LimitsChecked(env, f0, x', p, w.Ticked(1).Log(e), h);
      assert f0 + {WasChecked} == f + {WasChecked};
    }
  }

  lemma NeutralJustified(env: Env, tr: Trace, e: Event)
    requires e.Checked? || e.Rejected? || e.LostToken?
    ensures Justified(env, tr, e)
  {}

  ghost function Synced(f: Facts): Facts {
    f + {UsageAgree}
  }

  ghost function Recent(f: Facts): Facts {
    f + {HasFreshToken}
  }

  ghost function NotRecent(f: Facts): Facts {
    f - {HasFreshToken}
  }

  ghost function Aside(f: Facts): Facts {
    f - {UsageAgree, HasFreshToken}
  }

  ghost function Unpaid(f: Facts): Facts {
    f - {NotPaid, HasFreshToken, HasPaid}
  }

  ghost function PaidUp(f: Facts): Facts {
    Unpaid(f) + {HasPaid}
  }

  /** Giving up facts is always possible, and a witness of a fact not held is free. */
  lemma Forgetting(env: Env, f: Facts, f': Facts, x: Witness, x': Witness, p: string, w: World, h: Heap)
    requires Holds(env, f, x, p, w, h)
    requires f' <= f && (HasRole in f ==> HasRole in f')
    requires x' == x.(at := x'.at, spend := x'.spend, token := x'.token)
    requires WasChecked in f' ==> x'.at == x.at
    requires HasPaid in f' ==> x'.spend == x.spend
    requires HasFreshToken in f' ==> x'.token == x.token
    ensures Holds(env, f', x', p, w, h)
  {
    hide ReplayKeys, ReplayUsage, ReplayPk, TokenSource;
  }

  lemma SpendForgotten(env: Env, f: Facts, x: Witness, p: string, w: World, h: Heap, e: Event)
    requires Holds(env, f, x, p, w, h)
    ensures Holds(env, Unpaid(f), x.(spend := e), p, w, h)
  {
    Forgetting(env, f, Unpaid(f), x, x.(spend := e), p, w, h);
    hide Holds;
  }

  lemma RecentForgotten(env: Env, f: Facts, x: Witness, p: string, w: World, h: Heap)
    requires Holds(env, Recent(f), x, p, w, h) && HasFreshToken !in f
    ensures Holds(env, f, x, p, w, h)
  {
    Forgetting(env, Recent(f), f, x, x, p, w, h);
    hide Holds;
  }

  lemma TokenForgotten(env: Env, f: Facts, x: Witness, p: string, w: World, h: Heap, e: Event)
    requires Holds(env, f, x, p, w, h) && HasFreshToken !in f
    ensures Holds(env, f, x.(token := e), p, w, h)
  {
    Forgetting(env, f, f, x, x.(token := e), p, w, h);
    hide Holds;
  }

  lemma LimitsChecked(env: Env, f: Facts, x: Witness, p: string, w: World, h: Heap)
    requires Holds(env, f, x, p, w, h) && HasRole in f && WasLoaded in f && NotPaid in f
    requires Checked(w.req, p, x.at) in w.trace
    requires !h.role.value.usage.Expired(env.Seconds(x.at)) && !h.role.value.usage.Depleted()
    ensures Holds(env, f + {WasChecked}, x, p, w, h)
  {
    hide ReplayKeys, ReplayUsage, ReplayPk, TokenSource;
  }

  lemma MarkRecent(env: Env, f: Facts, x: Witness, p: string, w: World, h: Heap)
    requires Holds(env, f, x, p, w, h) && HasRole in f && x.token in w.trace
    requires Freshens(env, x.token, w.req, p, h.role.value.usage.v3TokenExpiry) && TokenSource(w.trace, p).Some?
    ensures Holds(env, Recent(f), x, p, w, h)
  {
    hide ReplayKeys, ReplayUsage, ReplayPk, TokenSource;
  }

  lemma MarkPaid(env: Env, f: Facts, x: Witness, p: string, w: World, h: Heap)
    requires Holds(env, Unpaid(f), x, p, w, h) && HasRole in f
    requires h.role.value.usage.HasUsageQuota() ==> x.spend in w.trace && IsSpend(x.spend, w.req) && x.spend.role == p
    ensures Holds(env, PaidUp(f), x, p, w, h)
  {
    hide ReplayKeys, ReplayUsage, ReplayPk, TokenSource;
  }

  lemma ReadersKeep(env: Env, f: Facts, x: Witness, p: string, s: Step, w: World, h: Heap)
    requires Inv(env, w) && Holds(env, f, x, p, w, h) && Next(f, s).Some?
    requires s.BlockNonExportable? || s.ReadRecipient? || s.RenderExport? || s.RenderCertificate?
             || s.BounceErrors? || s.Render?
    ensures StepKeeps(env, f, x, p, s, w, h)
  {
    assert Next(f, s) == Some(f);
    hide Inv, Holds, Next;
    ReadersOnlyRead(env, p, s, w, h);
    var o := Apply(env, p, s, w, h);
    hide Apply;
    InvIgnoresTick(env, f, x, p, w, h, o.w.tick - w.tick);
    TransientIsNoFact(env, f, x, p, o.w, h, o.h);
  }

  lemma ReadersOnlyRead(env: Env, p: string, s: Step, w: World, h: Heap)
    requires s.BlockNonExportable? || s.ReadRecipient? || s.RenderExport? || s.RenderCertificate?
             || s.BounceErrors? || s.Render?
    ensures var o := Apply(env, p, s, w, h);
            o.w.tick >= w.tick && o.w == w.Ticked(o.w.tick - w.tick) && o.h.role == h.role
  {}

  /** What an edit of the role in the heap leaves true, and what it newly makes true. */
  lemma HoldsAfterEdit(env: Env, f: Facts, f': Facts, x: Witness, p: string, w: World, h: Heap, h': Heap)
    requires Holds(env, f, x, p, w, h) && HasRole in f && HasRole in f' && h'.role.Some?
    requires f' <= {HasRole, Home, Keyed, NotPaid, Unlimited, Forgotten, Incoming}
    requires f' <= f + {Unlimited, Forgotten, Incoming}
    requires var role, role' := h.role.value, h'.role.value;
             && (Home in f' ==> role'.keys.imported == role.keys.imported)
             && (Unlimited in f' ==> role'.usage == BLANK_USAGE)
             && (Forgotten in f' ==> UsageAgree in f && role'.usage == role.usage.WithoutToken())
             && (Incoming in f' ==> UsageAgree in f && IsIncoming(role', role.usage))
    ensures Holds(env, f', x, p, w, h')
  {
    hide ReplayKeys, ReplayUsage, ReplayPk, TokenSource, HoldsOfGates, SameToken;
    assert HoldsOfStorage(f', p, w);
    assert HoldsOfRecords(f', p, w, h'.role.value);
    HoldsWithoutGates(env, f', x, p, w, h');
    hide HoldsOfStorage, HoldsOfRecords;
  }

  lemma EditsKeep(env: Env, f: Facts, x: Witness, p: string, s: Step, w: World, h: Heap)
    requires Inv(env, w) && Holds(env, f, x, p, w, h) && Next(f, s).Some?
    requires s.UpdateKeys? || s.SetInitialUsage? || s.ForgetToken? || s.ImportPem?
    ensures StepKeeps(env, f, x, p, s, w, h)
  {
    var f', o := Next(f, s).value, Apply(env, p, s, w, h);
    assert HasRole in f && HasRole in f' && f' <= {HasRole, Home, Keyed, NotPaid, Unlimited, Forgotten, Incoming};
    assert f' <= f + {Unlimited, Forgotten, Incoming} && (Unlimited in f' ==> s.SetInitialUsage?);
    assert Forgotten in f' ==> s.ForgetToken? && UsageAgree in f;
    assert Incoming in f' ==> s.ImportPem? && UsageAgree in f;
    assert Home in f' ==> !s.ImportPem?;
    hide Next, Inv, Holds;
    RoleIsThere(env, f, x, p, w, h);
    assert o.w == w;
    if o.reply == Continue {
      assert o.h.role.Some?;
      hide Apply;
      EditMeans(env, p, s, w, h);
      HoldsAfterEdit(env, f, f', x, p, w, h, o.h);
    }
  }

  lemma EditMeans(env: Env, p: string, s: Step, w: World, h: Heap)
    requires h.role.Some? && (s.UpdateKeys? || s.SetInitialUsage? || s.ForgetToken? || s.ImportPem?)
    requires Apply(env, p, s, w, h).reply == Continue
    ensures Apply(env, p, s, w, h).h.role.Some?
    ensures var role, role' := h.role.value, Apply(env, p, s, w, h).h.role.value;
            && (!s.ImportPem? ==> role'.keys.imported == role.keys.imported)
            && (s.SetInitialUsage? ==> role'.usage == BLANK_USAGE)
            && (s.ForgetToken? ==> role'.usage == role.usage.WithoutToken())
            && (s.ImportPem? ==> IsIncoming(role', role.usage))
  {}

  lemma SavesKeep(env: Env, f: Facts, x: Witness, p: string, s: Step, w: World, h: Heap)
    requires Inv(env, w) && Holds(env, f, x, p, w, h) && Next(f, s).Some? && (s.SaveKeys? || s.SaveUsage?)
    ensures StepKeeps(env, f, x, p, s, w, h)
  {
    RoleIsThere(env, f, x, p, w, h);
    if !env.Lands(w.tick) {
      hide Inv, Next, Holds;
      InvIgnoresTick(env, f, x, p, w, h, 1);
    } else if s.SaveKeys? {
      SaveKeysKeeps(env, f, x, p, s, w, h);
    } else {
      SaveUsageKeeps(env, f, x, p, s, w, h);
    }
  }

  lemma SaveKeysKeeps(env: Env, f: Facts, x: Witness, p: string, s: Step, w: World, h: Heap)
    requires Inv(env, w) && Holds(env, f, x, p, w, h) && Next(f, s).Some? && s.SaveKeys? && env.Lands(w.tick)
    ensures StepKeeps(env, f, x, p, s, w, h)
  {
    var f' := Next(f, s).value;
    assert HasRole in f && HasRole in f';
    if s.kcause == FromRequest {
      assert f' <= {HasRole, Home, NotPaid, Keyed} && f' <= f + {Keyed} && Home in f;
    } else {
      assert f' <= {HasRole, Incoming, NotPaid, Stamped} && f' <= f + {Stamped} && Incoming in f;
    }
    hide Next, Inv, Holds;
    RoleIsThere(env, f, x, p, w, h);
    var o := Apply(env, p, s, w, h);
    assert o.w == w.Ticked(1).WithKeys(p, h.role.value.keys, s.kcause) && o.h == h;
    hide Apply;
    SavedKeysKeep(env, f, f', x, p, s.kcause, w, h);
  }

  lemma KeysJustified(env: Env, f: Facts, x: Witness, p: string, cause: KeysCause, w: World, h: Heap)
    requires Holds(env, f, x, p, w, h) && HasRole in f
    requires if cause == FromRequest then Home in f else Incoming in f
    ensures Justified(env, w.trace, SavedKeys(w.req, p, h.role.value.keys, cause))
  {
    hide ReplayKeys, ReplayUsage, ReplayPk, TokenSource, HoldsOfGates, HoldsOfStorage;
  }

  lemma SavedKeysKeep(env: Env, f: Facts, f': Facts, x: Witness, p: string, cause: KeysCause, w: World, h: Heap)
    requires Inv(env, w) && Holds(env, f, x, p, w, h) && HasRole in f && HasRole in f'
    requires if cause == FromRequest then f' <= {HasRole, Home, NotPaid, Keyed} && f' <= f + {Keyed} && Home in f
             else f' <= {HasRole, Incoming, NotPaid, Stamped} && f' <= f + {Stamped} && Incoming in f
    ensures h.role.Some?
    ensures var w' := w.Ticked(1).WithKeys(p, h.role.value.keys, cause);
            Inv(env, w') && Holds(env, f', x, p, w', h)
  {
    RoleIsThere(env, f, x, p, w, h);
    var role, w' := h.role.value, w.Ticked(1).WithKeys(p, h.role.value.keys, cause);
    KeysJustified(env, f, x, p, cause, w, h);
    hide Justified;
    InvTicked(env, w, 1);
    KeysKeep(env, w.Ticked(1), p, role.keys, cause);
    ReplayAppended(w.trace, SavedKeys(w.req, p, role.keys, cause), p);
    hide Inv, ReplayKeys, ReplayUsage, ReplayPk, TokenSource;
    HoldsAfterKeys(env, f, f', x, p, cause, w, w', h);
    hide Holds;
  }

  lemma StorageAfterKeys(env: Env, f: Facts, f': Facts, x: Witness, p: string, cause: KeysCause, w: World, w': World, h: Heap)
    requires Holds(env, f, x, p, w, h) && HasRole in f && HasRole in f' && h.role.Some?
    requires if cause == FromRequest then f' <= {HasRole, Home, NotPaid, Keyed} && f' <= f + {Keyed} && Home in f
             else f' <= {HasRole, Incoming, NotPaid, Stamped} && f' <= f + {Stamped} && Incoming in f
    requires w'.trace == w.trace + [SavedKeys(w.req, p, h.role.value.keys, cause)] && w'.req == w.req
    ensures HoldsOfStorage(f', p, w')
  {
    ReplayAppended(w.trace, SavedKeys(w.req, p, h.role.value.keys, cause), p);
    hide ReplayKeys, ReplayUsage, ReplayPk, TokenSource, HoldsOfGates, SameToken;
  }

  lemma RecordsAfterKeys(env: Env, f: Facts, f': Facts, x: Witness, p: string, cause: KeysCause, w: World, w': World, h: Heap)
    requires Holds(env, f, x, p, w, h) && HasRole in f && HasRole in f' && h.role.Some?
    requires if cause == FromRequest then f' <= {HasRole, Home, NotPaid, Keyed} && f' <= f + {Keyed} && Home in f
             else f' <= {HasRole, Incoming, NotPaid, Stamped} && f' <= f + {Stamped} && Incoming in f
    requires w'.trace == w.trace + [SavedKeys(w.req, p, h.role.value.keys, cause)] && w'.req == w.req
    ensures HoldsOfRecords(f', p, w', h.role.value)
  {
    ReplayAppended(w.trace, SavedKeys(w.req, p, h.role.value.keys, cause), p);
    hide ReplayKeys, ReplayUsage, ReplayPk, TokenSource, HoldsOfGates, HoldsOfStorage, SameToken;
  }

  lemma HoldsAfterKeys(env: Env, f: Facts, f': Facts, x: Witness, p: string, cause: KeysCause, w: World, w': World, h: Heap)
    requires Holds(env, f, x, p, w, h) && HasRole in f && HasRole in f' && h.role.Some?
    requires if cause == FromRequest then f' <= {HasRole, Home, NotPaid, Keyed} && f' <= f + {Keyed} && Home in f
             else f' <= {HasRole, Incoming, NotPaid, Stamped} && f' <= f + {Stamped} && Incoming in f
    requires w'.trace == w.trace + [SavedKeys(w.req, p, h.role.value.keys, cause)] && w'.req == w.req
    ensures Holds(env, f', x, p, w', h)
  {
    StorageAfterKeys(env, f, f', x, p, cause, w, w', h);
    RecordsAfterKeys(env, f, f', x, p, cause, w, w', h);
    HoldsWithoutGates(env, f', x, p, w', h);
    hide HoldsOfStorage, HoldsOfRecords, HoldsOfGates, Holds;
  }

  lemma InvTicked(env: Env, w: World, n: nat)
    requires Inv(env, w)
    ensures Inv(env, w.Ticked(n))
  {
    hide ReplayKeys, ReplayUsage, ReplayPk, TokenSource, Sound;
  }

  lemma SaveUsageKeeps(env: Env, f: Facts, x: Witness, p: string, s: Step, w: World, h: Heap)
    requires Inv(env, w) && Holds(env, f, x, p, w, h) && Next(f, s).Some? && s.SaveUsage? && env.Lands(w.tick)
    ensures StepKeeps(env, f, x, p, s, w, h)
  {
    var f' := Next(f, s).value;
    assert f' <= {HasRole, NotPaid} && f' <= f && HasRole in f';
    assert (s.cause == Reset && {Home, Keyed, Unlimited} <= f) || (s.cause == FromTerm && {Incoming, Stamped} <= f)
           || (s.cause == Forget && Forgotten in f);
    hide Next, Inv, Holds;
    RoleIsThere(env, f, x, p, w, h);
    var o := Apply(env, p, s, w, h);
    assert o.w == w.Ticked(1).WithUsage(p, h.role.value.usage, s.cause) && o.h == h;
    hide Apply;
    UsageJustified(env, f, x, p, s.cause, w, h);
    SavedUsageKeep(env, f, f', x, p, s.cause, w, h);
  }

  lemma UsageJustified(env: Env, f: Facts, x: Witness, p: string, cause: UsageCause, w: World, h: Heap)
    requires Holds(env, f, x, p, w, h) && HasRole in f
    requires (cause == Reset && {Home, Keyed, Unlimited} <= f) || (cause == FromTerm && {Incoming, Stamped} <= f)
             || (cause == Forget && Forgotten in f)
    ensures Justified(env, w.trace, SavedUsage(w.req, p, h.role.value.usage, cause))
  {
    hide ReplayKeys, ReplayUsage, ReplayPk, TokenSource, HoldsOfGates;
  }

  lemma SavedUsageKeep(env: Env, f: Facts, f': Facts, x: Witness, p: string, cause: UsageCause, w: World, h: Heap)
    requires Inv(env, w) && Holds(env, f, x, p, w, h) && f' <= f && f' <= {HasRole, NotPaid} && HasRole in f'
    requires cause != Spend
    requires h.role.Some? && Justified(env, w.trace, SavedUsage(w.req, p, h.role.value.usage, cause))
    ensures var w' := w.Ticked(1).WithUsage(p, h.role.value.usage, cause);
            Inv(env, w') && Holds(env, f', x, p, w', h)
  {
    var role, w' := h.role.value, w.Ticked(1).WithUsage(p, h.role.value.usage, cause);
    hide Justified;
    InvTicked(env, w, 1);
    UsageKeeps(env, w.Ticked(1), p, role.usage, cause);
    ReplayAppended(w.trace, SavedUsage(w.req, p, role.usage, cause), p);
    hide Inv, ReplayKeys, ReplayUsage, ReplayPk, TokenSource, HoldsOfGates;
    assert HoldsOfStorage(f', p, w') by { hide HoldsOfRecords; }
    assert HoldsOfRecords(f', p, w', role) by { hide HoldsOfStorage; }
    HoldsWithoutGates(env, f', x, p, w', h);
    hide HoldsOfStorage, HoldsOfRecords;
  }

  /** Writing back the usage record of a role that is in step with storage keeps it in step. */
  lemma HoldsAfterUsage(env: Env, f: Facts, x: Witness, p: string, w: World, h: Heap, v: RoleUsage, cause: UsageCause)
    requires Inv(env, w) && Holds(env, f, x, p, w, h) && HasRole in f && InStep(f) && HasFreshToken !in f
    requires Justified(env, w.trace, SavedUsage(w.req, p, v, cause)) && SameLimits(h.role.value.usage, v)
    requires NotPaid in f ==> cause != Spend && h.role.value.usage.remainingNumUses == v.remainingNumUses
    ensures var w', h' := w.WithUsage(p, v, cause), h.WithUsage(v);
            Inv(env, w') && Holds(env, Synced(f), x, p, w', h') && SavedUsage(w.req, p, v, cause) in w'.trace
  {
    var e := SavedUsage(w.req, p, v, cause);
    UsageKeeps(env, w, p, v, cause);
    ReplayAppended(w.trace, e, p);
    assert ReplayKeys(w.trace, p).Some?;
    hide Inv, Justified, ReplayKeys, ReplayUsage, ReplayPk, TokenSource;
  }

  lemma SpendJustified(env: Env, f: Facts, x: Witness, p: string, w: World, h: Heap)
    requires Holds(env, f, x, p, w, h) && HasRole in f && CanCall(f) && WasChecked in f && NotPaid in f
    requires h.role.value.usage.HasUsageQuota()
    ensures Justified(env, w.trace, SavedUsage(w.req, p, h.role.value.usage.Reduced(), Spend))
  {
    hide ReplayKeys, ReplayUsage;
  }

  lemma DecreaseKeeps(env: Env, f: Facts, x: Witness, p: string, s: Step, w: World, h: Heap) returns (x': Witness)
    requires Inv(env, w) && Holds(env, f, x, p, w, h) && Next(f, s).Some? && s.DecreaseQuota?
    ensures StepKeeps(env, f, x', p, s, w, h)
  {
    RoleIsThere(env, f, x, p, w, h);
    var v := h.role.value.usage.Reduced();
    var e := SavedUsage(w.req, p, v, Spend);
    x' := x.(spend := e);
    assert CanCall(f) && HasRole in f && WasChecked in f && NotPaid in f && Next(f, s) == Some(PaidUp(f));
    hide Inv, Holds, Justified, Next, PaidUp, Unpaid;
    if !h.role.value.usage.HasUsageQuota() {
      SpendForgotten(env, f, x, p, w, h, e);
      MarkPaid(env, f, x', p, w, h);
    } else if !env.Lands(w.tick) {
      InvIgnoresTick(env, f, x, p, w, h, 1);
    } else {
      SpendIsKept(env, f, x, p, w, h);
    }
  }

  lemma UnpaidIsInStep(f: Facts)
    requires CanCall(f)
    ensures Synced(Unpaid(f)) == Unpaid(f) && InStep(Unpaid(f)) && HasFreshToken !in Unpaid(f) && NotPaid !in Unpaid(f)
    ensures HasRole in f ==> HasRole in Unpaid(f)
  {}

  lemma SpendIsKept(env: Env, f: Facts, x: Witness, p: string, w: World, h: Heap)
    requires Inv(env, w) && Holds(env, f, x, p, w, h) && HasRole in f && CanCall(f) && WasChecked in f && NotPaid in f
    requires h.role.Some? && h.role.value.usage.HasUsageQuota()
    ensures var v := h.role.value.usage.Reduced();
            var w', e := w.Ticked(1).WithUsage(p, v, Spend), SavedUsage(w.req, p, v, Spend);
            Inv(env, w') && Holds(env, PaidUp(f), x.(spend := e), p, w', h.WithUsage(v))
  {
    var v, f0 := h.role.value.usage.Reduced(), Unpaid(f);
    var e := SavedUsage(w.req, p, v, Spend);
    var x' := x.(spend := e);
    UnpaidIsInStep(f);
    hide Inv, Holds, Justified, Unpaid, PaidUp, Synced, InStep, CanCall;
    SpendForgotten(env, f, x, p, w, h, e);
    InvIgnoresTick(env, f0, x', p, w, h, 1);
    SpendJustified(env, f, x, p, w, h);
    HoldsAfterUsage(env, f0, x', p, w.Ticked(1), h, v, Spend);
    MarkPaid(env, f, x', p, w.Ticked(1).WithUsage(p, v, Spend), h.WithUsage(v));
  }

  lemma PrivateKeyKeeps(env: Env, f: Facts, x: Witness, p: string, s: Step, w: World, h: Heap)
    requires Inv(env, w) && Holds(env, f, x, p, w, h) && Next(f, s).Some? && s.RetrievePrivateKey?
    ensures StepKeeps(env, f, x, p, s, w, h)
  {
    assert Next(f, s) == Some(f) && HasRole in f && Keyed in f && NoPk !in f;
    hide Next, Inv, Holds;
    RoleIsThere(env, f, x, p, w, h);
    PkOutcome(env, p, s, w, h);
    var o := Apply(env, p, s, w, h);
    hide Apply;
    if o.w.trace != w.trace {
      var k := env.rsaKey(w.tick + 1).value;
      PkJustified(env, f, x, p, w, h, k);
      InvIgnoresTick(env, f, x, p, w, h, 3);
      PkKeeps(env, w.Ticked(3), p, k);
      HoldsAfterPk(env, f, x, p, w, h, o.w, o.h, k);
    } else {
      InvIgnoresTick(env, f, x, p, w, h, o.w.tick - w.tick);
      if o.reply == Continue {
        PkIsNoFact(env, f, x, p, o.w, h, o.h.role.value.privateKey);
      }
    }
  }

  lemma PkOutcome(env: Env, p: string, s: Step, w: World, h: Heap)
    requires h.role.Some? && s.RetrievePrivateKey?
    ensures var o := Apply(env, p, s, w, h);
            && (o.reply == Continue ==>
                  o.h.role.Some? && o.h == h.(role := Some(h.role.value.(privateKey := o.h.role.value.privateKey))))
            && (o.w.trace == w.trace ==> o.w.tick >= w.tick && o.w == w.Ticked(o.w.tick - w.tick))
            && (o.w.trace != w.trace ==>
                  PkIn(w.store, p) == Absent && env.rsaKey(w.tick + 1).Some?
                  && o.w == w.Ticked(3).WithPk(p, env.rsaKey(w.tick + 1).value)
                  && o.h == h.(role := Some(h.role.value.(privateKey := env.rsaKey(w.tick + 1)))))
  {}

  lemma PkJustified(env: Env, f: Facts, x: Witness, p: string, w: World, h: Heap, k: PrivateKey)
    requires Inv(env, w) && Holds(env, f, x, p, w, h) && Keyed in f && PkIn(w.store, p) == Absent
    ensures Justified(env, w.trace, SavedPk(w.req, p, k))
  {
    hide ReplayKeys, ReplayUsage, ReplayPk, TokenSource, Sound;
    assert AgreesOn(w.store, w.trace, p);
  }

  lemma PkIsNoFact(env: Env, f: Facts, x: Witness, p: string, w: World, h: Heap, k: Option<PrivateKey>)
    requires Holds(env, f, x, p, w, h) && HasRole in f && h.role.Some?
    ensures Holds(env, f, x, p, w, h.(role := Some(h.role.value.(privateKey := k))))
  {
    hide ReplayKeys, ReplayUsage, ReplayPk, TokenSource;
  }

  lemma HoldsAfterPk(env: Env, f: Facts, x: Witness, p: string, w: World, h: Heap, w': World, h': Heap, k: PrivateKey)
    requires Holds(env, f, x, p, w, h) && HasRole in f && NoPk !in f
    requires w'.trace == w.trace + [SavedPk(w.req, p, k)] && w'.req == w.req
    requires h'.role == Some(h.role.value.(privateKey := Some(k)))
    ensures Holds(env, f, x, p, w', h')
  {
    ReplayAppended(w.trace, SavedPk(w.req, p, k), p);
    hide ReplayKeys, ReplayUsage, ReplayPk, TokenSource;
  }

  // ---- effects and tokens ----

  /** The gates a chain has passed are what an effect needs. */
  lemma EffectJustified(env: Env, f: Facts, x: Witness, p: string, w: World, h: Heap, effect: Effect, at: nat)
    requires Holds(env, f, x, p, w, h) && HasRole in f && UsageAgree in f && WasChecked in f
    requires if effect.V2Signature? || effect.V2Call? then V2Able in f else V3Able in f
    requires IsDirect(effect) ==> MayHandOut in f
    requires IsProbe(effect) || HasPaid in f
    requires effect.V3Call? ==> effect.token == h.role.value.usage.v3Token && TokenSource(w.trace, p).Some?
    requires effect.TokenReveal? ==>
               HasFreshToken in f && effect == TokenReveal(h.role.value.usage.v3Token, h.role.value.usage.v3TokenExpiry)
    ensures Justified(env, w.trace, Performed(w.req, p, effect, at))
  {
    hide ReplayKeys, ReplayUsage;
    assert Passed(env, w.trace, w.req, p, h.role.value.keys, x.read, x.at);
    assert Admitted(env, w.trace, w.req, p, effect);
  }

  ghost function EffectOf(env: Env, s: Step, w: World, u: RoleUsage): Effect {
    if s.RetrieveV2Signature? then V2Signature
    else if s.CallV2? then V2Call
    else if s.RehydrateToken? then TokenReveal(u.v3Token, u.v3TokenExpiry)
    else TokenGrant(if env.oauth(w.tick).Granted? then env.oauth(w.tick).token else "")
  }

  ghost predicate HasEffect(s: Step) {
    s.RetrieveV2Signature? || s.RetrieveV3Token? || s.RehydrateToken? || s.CallV2?
  }

  lemma EffectIsLogged(env: Env, p: string, s: Step, w: World, h: Heap)
    requires HasEffect(s) && h.role.Some?
    ensures var o := Apply(env, p, s, w, h);
            var e := Performed(w.req, p, EffectOf(env, s, w, h.role.value.usage), w.tick);
            o.h.role == h.role && (o.w == w.Ticked(1).Log(e) || (o.w == w.Ticked(1) && o.reply != Continue))
  {}

  lemma EffectsKeep(env: Env, f: Facts, x: Witness, p: string, s: Step, w: World, h: Heap)
    requires Inv(env, w) && Holds(env, f, x, p, w, h) && Next(f, s).Some?
    requires s.RetrieveV2Signature? || s.RetrieveV3Token? || s.RehydrateToken? || s.CallV2?
    ensures StepKeeps(env, f, x, p, s, w, h)
  {
    assert Next(f, s) == Some(f);
    RoleIsThere(env, f, x, p, w, h);
    var effect := EffectOf(env, s, w, h.role.value.usage);
    assert Justified(env, w.trace, Performed(w.req, p, effect, w.tick)) by {
      hide Holds, Justified;
      EffectJustified(env, f, x, p, w, h, effect, w.tick);
    }
    hide Inv, Holds, Justified, Next, Apply, EffectOf;
    var e := Performed(w.req, p, effect, w.tick);
    EffectIsLogged(env, p, s, w, h);
    InvIgnoresTick(env, f, x, p, w, h, 1);
    HoldsAfterLog(env, f, x, p, w.Ticked(1), h, e);
    var o := Apply(env, p, s, w, h);
    if o.reply == Continue {
      TransientIsNoFact(env, f, x, p, w.Ticked(1).Log(e), h, o.h);
    }
  }

  /** What the retry loop knows between rounds: the stored record, or that record without the rejected token. */
  ghost predicate TokenAside(p: string, w: World, role: Role) {
    var usage := ReplayUsage(w.trace, p);
    && ReplayKeys(w.trace, p).Some? && usage.Some?
    && (usage.value == role.usage
        || (role.usage == usage.value.WithoutToken() && Rejected(w.req, p) in w.trace))
  }

  lemma AsideMeansStored(env: Env, f: Facts, x: Witness, p: string, w: World, h: Heap)
    requires Holds(env, f, x, p, w, h) && HasRole in f && InStep(f) && TokenAside(p, w, h.role.value)
    requires h.role.value.usage.v3Token != ""
    ensures Holds(env, Synced(f), x, p, w, h)
  {
    hide ReplayKeys, ReplayUsage, ReplayPk, TokenSource;
  }

  lemma TokenKept(env: Env, f: Facts, x: Witness, p: string, w: World, h: Heap)
    requires Inv(env, w) && InStep(f) && HasRole in f && HasFreshToken !in f && Holds(env, f, x, p, w, h)
    requires TokenAside(p, w, h.role.value)
    requires !h.role.value.usage.V3TokenNeedsRenew(env.Seconds(w.tick))
    ensures var e := Kept(w.req, p, w.tick);
            var w' := w.Ticked(1).Log(e);
            Inv(env, w') && Holds(env, Recent(Synced(f)), x.(token := e), p, w', h)
  {
    var e := Kept(w.req, p, w.tick);
    var f1, x1 := Synced(f), x.(token := e);
    RoleIsThere(env, f, x, p, w, h);
    hide Inv, Holds, Justified, TokenAside;
    AsideMeansStored(env, f, x, p, w, h);
    KeptJustified(env, f1, x, p, w, h);
    TokenForgotten(env, f1, x, p, w, h, e);
    InvIgnoresTick(env, f1, x1, p, w, h, 1);
    HoldsAfterLog(env, f1, x1, p, w.Ticked(1), h, e);
    ReplayAppended(w.trace, e, p);
    hide TokenSource;
    MarkRecent(env, f1, x1, p, w.Ticked(1).Log(e), h);
  }

  /** A token that is kept is the stored one, and good; so it comes from a renewal. */
  lemma KeptJustified(env: Env, f: Facts, x: Witness, p: string, w: World, h: Heap)
    requires Inv(env, w) && Holds(env, f, x, p, w, h) && HasRole in f && UsageAgree in f
    requires !h.role.value.usage.V3TokenNeedsRenew(env.Seconds(w.tick))
    ensures Justified(env, w.trace, Kept(w.req, p, w.tick)) && TokenSource(w.trace, p).Some?
  {
    StoredTokenIsGranted(env, w.trace, p);
    hide ReplayKeys, ReplayUsage, ReplayPk, TokenSource, Sound;
  }

  lemma RefreshJustified(env: Env, p: string, w: World, role: Role, at: nat)
    requires TokenAside(p, w, role) && role.usage.V3TokenNeedsRenew(env.Seconds(at)) && env.oauth(at + 1).Granted?
    ensures Justified(env, w.trace, SavedUsage(w.req, p, Refreshed(env, at, role.usage), Refresh(at)))
  {
    hide ReplayKeys, ReplayUsage, ReplayPk, TokenSource;
  }

  lemma TokenRefreshed(env: Env, f: Facts, x: Witness, p: string, w: World, h: Heap)
    requires Inv(env, w) && InStep(f) && HasRole in f && HasFreshToken !in f && Holds(env, f, x, p, w, h)
    requires TokenAside(p, w, h.role.value)
    requires h.role.value.usage.V3TokenNeedsRenew(env.Seconds(w.tick)) && env.oauth(w.tick + 1).Granted?
    ensures var v := Refreshed(env, w.tick, h.role.value.usage);
            var e := SavedUsage(w.req, p, v, Refresh(w.tick));
            var w' := w.Ticked(4).WithUsage(p, v, Refresh(w.tick));
            Inv(env, w') && Holds(env, Recent(Synced(f)), x.(token := e), p, w', h.WithUsage(v))
  {
    RoleIsThere(env, f, x, p, w, h);
    var v := Refreshed(env, w.tick, h.role.value.usage);
    var e := SavedUsage(w.req, p, v, Refresh(w.tick));
    var x1 := x.(token := e);
    RefreshJustified(env, p, w, h.role.value, w.tick);
    hide Inv, Holds, Justified, TokenAside, InStep;
    TokenForgotten(env, f, x, p, w, h, e);
    InvIgnoresTick(env, f, x1, p, w, h, 4);
    HoldsAfterUsage(env, f, x1, p, w.Ticked(4), h, v, Refresh(w.tick));
    ReplayAppended(w.trace, e, p);
    hide TokenSource;
    MarkRecent(env, Synced(f), x1, p, w.Ticked(4).WithUsage(p, v, Refresh(w.tick)), h.WithUsage(v));
  }

  lemma TokenKeeps(env: Env, f: Facts, x: Witness, p: string, w: World, h: Heap) returns (x': Witness)
    requires Inv(env, w) && InStep(f) && HasRole in f && HasFreshToken !in f && Holds(env, f, x, p, w, h)
    requires h.role.Some? && TokenAside(p, w, h.role.value)
    ensures var o := EnsureTokenDo(env, p, w, h);
            && Inv(env, o.w) && o.w.req == w.req
            && (o.reply == Continue ==> Holds(env, Recent(Synced(f)), x', p, o.w, o.h))
  {
    hide Inv, Holds, TokenAside, Recent, Synced, InStep, Justified;
    x' := x;
    if !h.role.value.usage.V3TokenNeedsRenew(env.Seconds(w.tick)) {
      TokenKept(env, f, x, p, w, h);
      x' := x.(token := Kept(w.req, p, w.tick));
    } else if env.oauth(w.tick + 1).Denied? {
      InvIgnoresTick(env, f, x, p, w, h, 2);
    } else if env.Lands(w.tick + 3) {
      TokenRefreshed(env, f, x, p, w, h);
      x' := x.(token := SavedUsage(w.req, p, Refreshed(env, w.tick, h.role.value.usage), Refresh(w.tick)));
    } else {
      InvIgnoresTick(env, f, x, p, w, h, 4);
      NeutralJustified(env, w.trace, LostToken(w.req, p));
      LogKeeps(env, w.Ticked(4), LostToken(w.req, p));
    }
  }

  /** One fetch: the call is justified, and after a rejection the token is set aside. */
  lemma CallKeeps(env: Env, f: Facts, x: Witness, p: string, w: World, h: Heap, effect: Effect, at: nat)
    requires Inv(env, w) && InStep(f) && HasRole in f && WasChecked in f && V3Able in f
    requires (IsProbe(effect) || HasPaid in f)
    requires UsageAgree !in f && HasFreshToken !in f && Holds(env, Recent(Synced(f)), x, p, w, h)
    requires h.role.Some? && effect.V3Call? && effect.token == h.role.value.usage.v3Token
    ensures var w1 := w.Log(Performed(w.req, p, effect, at));
            var w2, h2 := w1.Log(Rejected(w.req, p)), h.WithUsage(h.role.value.usage.WithoutToken());
            && Inv(env, w1) && Holds(env, Synced(f), x, p, w1, h)
            && Inv(env, w2) && Holds(env, f, x, p, w2, h2) && TokenAside(p, w2, h2.role.value)
  {
    var f1, e, e2 := Synced(f), Performed(w.req, p, effect, at), Rejected(w.req, p);
    hide Inv, Holds, Justified, TokenAside, InStep;
    RecentForgotten(env, f1, x, p, w, h);
    SourceIsKnown(env, f1, x, p, w, h);
    EffectJustified(env, f1, x, p, w, h, effect, at);
    HoldsAfterLog(env, f1, x, p, w, h, e);
    NeutralJustified(env, w.Log(e).trace, e2);
    HoldsAfterLog(env, f1, x, p, w.Log(e), h, e2);
    SetTokenAside(env, f, x, p, w.Log(e).Log(e2), h);
  }

  lemma SourceIsKnown(env: Env, f: Facts, x: Witness, p: string, w: World, h: Heap)
    requires Holds(env, Recent(f), x, p, w, h)
    ensures TokenSource(w.trace, p).Some?
  {
    hide TokenSource;
  }

  lemma SetTokenAside(env: Env, f: Facts, x: Witness, p: string, w: World, h: Heap)
    requires Holds(env, Synced(f), x, p, w, h) && HasRole in f && InStep(f) && HasFreshToken !in f && UsageAgree !in f
    requires Rejected(w.req, p) in w.trace
    ensures h.role.Some?
    ensures var h' := h.WithUsage(h.role.value.usage.WithoutToken());
            Holds(env, f, x, p, w, h') && TokenAside(p, w, h'.role.value)
  {
    hide ReplayKeys, ReplayUsage, ReplayPk, TokenSource;
  }

  lemma RoleIsThere(env: Env, f: Facts, x: Witness, p: string, w: World, h: Heap)
    requires Holds(env, f, x, p, w, h) && HasRole in f
    ensures h.role.Some?
  {}

  lemma {:induction false} FetchKeeps(env: Env, f: Facts, x: Witness, p: string, probe: bool, w: World, h: Heap, rounds: nat)
    returns (x': Witness)
    requires Inv(env, w) && InStep(f) && UsageAgree !in f && HasRole in f && WasChecked in f && V3Able in f
    requires (probe || HasPaid in f) && HasFreshToken !in f
    requires Holds(env, f, x, p, w, h) && h.role.Some? && TokenAside(p, w, h.role.value)
    ensures var o := FetchDo(env, p, probe, w, h, rounds);
            && Inv(env, o.w) && o.w.req == w.req
            && (o.reply == Continue ==> Holds(env, Synced(f), x', p, o.w, o.h))
    decreases rounds
  {
    hide Inv, Holds, TokenAside, InStep, EnsureTokenDo, Synced, Recent;
    x' := x;
    if rounds > 0 {
      x' := TokenKeeps(env, f, x, p, w, h);
      var o := EnsureTokenDo(env, p, w, h);
      if o.reply == Continue {
        TokenKeptRole(env, p, w, h);
        var answer, w0 := env.upstream(o.w.tick), o.w.Ticked(1);
        var effect := V3Call(probe, o.h.role.value.usage.v3Token, answer);
        InvIgnoresTick(env, Recent(Synced(f)), x', p, o.w, o.h, 1);
        CallKeeps(env, f, x', p, w0, o.h, effect, o.w.tick);
        var w1 := w0.Log(Performed(w.req, p, effect, o.w.tick));
        if answer.Status? && answer.code == 403 && answer.inactiveDeveloper {
          var h2 := o.h.WithUsage(o.h.role.value.usage.WithoutToken());
          x' := FetchKeeps(env, f, x', p, probe, w1.Log(Rejected(w.req, p)), h2, rounds - 1);
        } else if answer.Status? && answer.code != 403 {
          TransientIsNoFact(env, Synced(f), x', p, w1, o.h, o.h.(status := Some(answer.code)));
        }
      }
    }
  }

  lemma TokenKeptRole(env: Env, p: string, w: World, h: Heap)
    requires h.role.Some?
    ensures EnsureTokenDo(env, p, w, h).h.role.Some?
  {}

  lemma TransientIsNoFact(env: Env, f: Facts, x: Witness, p: string, w: World, h: Heap, h': Heap)
    requires Holds(env, f, x, p, w, h) && h'.role == h.role
    ensures Holds(env, f, x, p, w, h')
  {}

  lemma InvIgnoresTick(env: Env, f: Facts, x: Witness, p: string, w: World, h: Heap, n: nat)
    requires Inv(env, w) && Holds(env, f, x, p, w, h)
    ensures Inv(env, w.Ticked(n)) && Holds(env, f, x, p, w.Ticked(n), h)
  {
    hide ReplayKeys, ReplayUsage, ReplayPk, TokenSource, Sound;
  }

  lemma AsideIsInStep(f: Facts)
    requires CanCall(f)
    ensures InStep(Aside(f)) && HasFreshToken !in Aside(f) && UsageAgree !in Aside(f)
    ensures forall a :: a in f && a != UsageAgree && a != HasFreshToken ==> a in Aside(f)
  {}

  /** Setting the token aside and getting back in step forgets nothing but when the token was seen good. */
  lemma BackInStep(env: Env, f: Facts, x: Witness, p: string, w: World, h: Heap)
    requires CanCall(f)
    ensures Holds(env, Recent(Synced(Aside(f))), x, p, w, h) ==> Holds(env, Recent(f), x, p, w, h)
    ensures Holds(env, Synced(Aside(f)), x, p, w, h) ==> Holds(env, NotRecent(f), x, p, w, h)
  {
    hide ReplayKeys, ReplayUsage, ReplayPk, TokenSource;
  }

  lemma EnsureKeeps(env: Env, f: Facts, x: Witness, p: string, s: Step, w: World, h: Heap) returns (x': Witness)
    requires Inv(env, w) && Holds(env, f, x, p, w, h) && Next(f, s).Some? && s.EnsureToken?
    ensures StepKeeps(env, f, x', p, s, w, h)
  {
    assert HasRole in f && CanCall(f) && Next(f, s) == Some(Recent(f));
    hide Inv, Holds, TokenAside, EnsureTokenDo, Synced, Recent, NotRecent, Aside, Next, InStep, CanCall;
    AsideIsInStep(f);
    StoredIsAside(env, f, x, p, w, h);
    x' := TokenKeeps(env, Aside(f), x, p, w, h);
    var o := EnsureTokenDo(env, p, w, h);
    BackInStep(env, f, x', p, o.w, o.h);
  }

  lemma FetchStepKeeps(env: Env, f: Facts, x: Witness, p: string, s: Step, w: World, h: Heap) returns (x': Witness)
    requires Inv(env, w) && Holds(env, f, x, p, w, h) && Next(f, s).Some? && s.FetchV3?
    ensures StepKeeps(env, f, x', p, s, w, h)
  {
    assert HasRole in f && CanCall(f) && WasChecked in f && V3Able in f && (s.probe || HasPaid in f);
    assert Next(f, s) == Some(NotRecent(f));
    hide Inv, Holds, TokenAside, FetchDo, Synced, Recent, NotRecent, Aside, Next, InStep, CanCall;
    AsideIsInStep(f);
    StoredIsAside(env, f, x, p, w, h);
    x' := FetchKeeps(env, Aside(f), x, p, s.probe, w, h, FETCH_ROUNDS);
    var o := FetchDo(env, p, s.probe, w, h, FETCH_ROUNDS);
    BackInStep(env, f, x', p, o.w, o.h);
  }

  lemma StoredIsAside(env: Env, f: Facts, x: Witness, p: string, w: World, h: Heap)
    requires Holds(env, f, x, p, w, h) && HasRole in f && CanCall(f)
    ensures Holds(env, Aside(f), x, p, w, h) && h.role.Some? && TokenAside(p, w, h.role.value)
  {
    hide ReplayKeys, ReplayUsage, ReplayPk, TokenSource;
  }

  lemma ApplyKeeps(env: Env, f: Facts, x: Witness, p: string, s: Step, w: World, h: Heap) returns (x': Witness)
    requires Inv(env, w) && Holds(env, f, x, p, w, h) && Next(f, s).Some?
    ensures StepKeeps(env, f, x', p, s, w, h)
  {
    hide *;
    x' := x;
    match s {
      case ReadRole(_) => x' := ReadRoleKeeps(env, f, x, p, s, w, h);
      case DeleteRecord(_) => DeleteKeeps(env, f, x, p, s, w, h);
      case BlockImported | BlockForceProxy | BlockIncapableOf(_) => GatesKeep(env, f, x, p, s, w, h);
      case BlockUsageExceedingLimits => x' := LimitsKeep(env, f, x, p, s, w, h);
      case UpdateKeys(_) | SetInitialUsage | ForgetToken | ImportPem(_) => EditsKeep(env, f, x, p, s, w, h);
      case SaveKeys(_) | SaveUsage(_) => SavesKeep(env, f, x, p, s, w, h);
      case DecreaseQuota => x' := DecreaseKeeps(env, f, x, p, s, w, h);
      case RetrievePrivateKey => PrivateKeyKeeps(env, f, x, p, s, w, h);
      case EnsureToken => x' := EnsureKeeps(env, f, x, p, s, w, h);
      case FetchV3(_) => x' := FetchStepKeeps(env, f, x, p, s, w, h);
      case RetrieveV2Signature | RetrieveV3Token | RehydrateToken | CallV2 => EffectsKeep(env, f, x, p, s, w, h);
      case _ => ReadersKeep(env, f, x, p, s, w, h);
    }
  }
}
