/** What a single request does when nothing fails, in closed form. */
module Outcomes {
  import opened Records
  import opened Codec
  import opened Engine
  import opened Vocabulary
  import opened Frames
  import opened Exchange
  import opened Interleaving
  import opened Retry

  ghost predicate NothingFails(env: Env, from: nat, n: nat) {
    forall t :: from <= t < from + n ==> env.ok(t)
  }

  /** A usage record as creation leaves it: no limits, no token. */
  const BLANK_USAGE := RoleUsage("", -1, -1, -1, -1, -1)

  /** The record a creation starts from: what is stored, or the given default. */
  function Starting<T>(found: Found<T>, default: T): T {
    if found.Is? then found.value else default
  }

  lemma EditedKeysAreTaken(k: RoleKeys, u: KeyUpdate)
    ensures var k' := Normalised(Updated(k, u));
            CredentialsTaken(k, u, k') && k'.maxQPS == QpsRead(Taken(u.qps, k.maxQPS))
    ensures INITIAL_KEYS == NEW_KEYS
  {}

  lemma RawRead(env: Env, p: string, w: World)
    requires !KeysIn(w.store, p).Broken? && !UsageIn(w.store, p).Broken? && env.ok(w.tick) && env.ok(w.tick + 1)
    ensures var role := InitialRole(p).(keys := Starting(KeysIn(w.store, p), INITIAL_KEYS),
                                        usage := Starting(UsageIn(w.store, p), ZERO_USAGE));
            Apply(env, p, ReadRole(false), w, EMPTY_HEAP) == Go(w.Ticked(2), EMPTY_HEAP.(role := Some(role)))
  {}

  lemma SavedKeysAreRead(env: Env, p: string, cause: KeysCause, w: World, h: Heap)
    requires h.role.Some? && env.ok(w.tick)
    ensures var o := Apply(env, p, SaveKeys(cause), w, h);
            && o.reply == Continue && o.h == h && o.w.tick == w.tick + 1
            && KeysIn(o.w.store, p) == Is(Normalised(h.role.value.keys)) && UsageIn(o.w.store, p) == UsageIn(w.store, p)
  {
    KeysReadBack(h.role.value.keys);
    hide EncodeKeys, DecodeKeys;
  }

  lemma SavedUsageIsRead(env: Env, p: string, cause: UsageCause, w: World, h: Heap)
    requires h.role.Some? && env.ok(w.tick)
    ensures var o := Apply(env, p, SaveUsage(cause), w, h);
            && o.reply == Continue && o.h == h
            && UsageIn(o.w.store, p) == Is(h.role.value.usage) && KeysIn(o.w.store, p) == KeysIn(w.store, p)
  {
    UsageReadBack(h.role.value.usage);
    hide EncodeUsage, DecodeUsage;
  }

  lemma EditsApplied(env: Env, p: string, w: World, h: Heap, u: KeyUpdate)
    requires h.role.Some?
    ensures Apply(env, p, BlockImported, w, h) == Gate(w, h, !h.role.value.keys.imported)
    ensures Apply(env, p, UpdateKeys(u), w, h) == Go(w, h.WithKeys(Updated(h.role.value.keys, u)))
  {}

  lemma UsageEditsApplied(env: Env, p: string, w: World, h: Heap)
    requires h.role.Some?
    ensures Apply(env, p, SetInitialUsage, w, h) == Go(w, h.WithUsage(BLANK_USAGE))
    ensures Apply(env, p, ForgetToken, w, h) == Go(w, h.WithUsage(h.role.value.usage.WithoutToken()))
  {}

  /** Creation: refused on an imported role, else every requested key field is stored over what was there, or over a new
      role's, and the usage record is reset, token included, whatever limits and token a role of that name had. */
  lemma CreationOutcome(env: Env, w: World, p: string, u: KeyUpdate)
    requires !KeysIn(w.store, p).Broken? && !UsageIn(w.store, p).Broken? && NothingFails(env, w.tick, 4)
    ensures var (w', reply) := RunRequest(env, w, Request(p, Create(u)));
            var k := Starting(KeysIn(w.store, p), NEW_KEYS);
            if k.imported then reply == Refused && w'.store == w.store
            else
              && reply == Continue && KeysIn(w'.store, p).Is?
              && CredentialsTaken(k, u, KeysIn(w'.store, p).value)
              && KeysIn(w'.store, p).value.maxQPS == QpsRead(Taken(u.qps, k.maxQPS))
              && UsageIn(w'.store, p) == Is(RoleUsage("", -1, -1, -1, -1, -1))
  {
    var w0 := w.(req := w.req + 1);
    var steps := [ReadRole(false), BlockImported, UpdateKeys(u), SaveKeys(FromRequest), SetInitialUsage, SaveUsage(Reset)];
    FlatRequest(env, w, Request(p, Create(u)), steps);
    EditedKeysAreTaken(Starting(KeysIn(w.store, p), INITIAL_KEYS), u);
    RawRead(env, p, w0);
    hide Apply, RunSteps, RunRequest, KeysIn, UsageIn, Updated, Normalised, HandlerOf, CredentialsTaken, QpsRead, Taken;
    assert steps[1..] == [BlockImported, UpdateKeys(u), SaveKeys(FromRequest)] + [SetInitialUsage, SaveUsage(Reset)];
    Unfold(env, p, steps, w0, EMPTY_HEAP);
    var o := Apply(env, p, ReadRole(false), w0, EMPTY_HEAP);
    KeysEdited(env, p, u, [SetInitialUsage, SaveUsage(Reset)], o.w, o.h);
    if !o.h.role.value.keys.imported {
      var h := o.h.WithKeys(Updated(o.h.role.value.keys, u));
      UsageIsReset(env, p, Apply(env, p, SaveKeys(FromRequest), o.w, h).w, h);
    }
  }

  /** Edit the keys of a role that was not imported, save them, and go on. */
  lemma KeysEdited(env: Env, p: string, u: KeyUpdate, rest: seq<Step>, w: World, h: Heap)
    requires h.role.Some? && env.ok(w.tick)
    ensures var o := RunSteps(env, p, [BlockImported, UpdateKeys(u), SaveKeys(FromRequest)] + rest, w, h);
            if h.role.value.keys.imported then o == Out(w, h, Refused)
            else
              var h1 := h.WithKeys(Updated(h.role.value.keys, u));
              var w1 := Apply(env, p, SaveKeys(FromRequest), w, h1).w;
              && o == RunSteps(env, p, rest, w1, h1) && w1.tick == w.tick + 1
              && KeysIn(w1.store, p) == Is(Normalised(h1.role.value.keys)) && UsageIn(w1.store, p) == UsageIn(w.store, p)
  {
    var steps := [BlockImported, UpdateKeys(u), SaveKeys(FromRequest)] + rest;
    assert steps[1..] == [UpdateKeys(u), SaveKeys(FromRequest)] + rest;
    assert steps[1..][1..] == [SaveKeys(FromRequest)] + rest && steps[1..][1..][1..] == rest;
    EditsApplied(env, p, w, h, u);
    hide Apply, RunSteps, KeysIn, UsageIn, Updated, Normalised;
    Unfold(env, p, steps, w, h);
    if !h.role.value.keys.imported {
      var h1 := h.WithKeys(Updated(h.role.value.keys, u));
      Unfold(env, p, steps[1..], w, h);
      Unfold(env, p, steps[1..][1..], w, h1);
      SavedKeysAreRead(env, p, FromRequest, w, h1);
    }
  }

  lemma UsageIsReset(env: Env, p: string, w: World, h: Heap)
    requires h.role.Some? && env.ok(w.tick)
    ensures var o := RunSteps(env, p, [SetInitialUsage, SaveUsage(Reset)], w, h);
            o.reply == Continue && UsageIn(o.w.store, p) == Is(BLANK_USAGE) && KeysIn(o.w.store, p) == KeysIn(w.store, p)
  {
    UsageEditsApplied(env, p, w, h);
    hide Apply, RunSteps, KeysIn, UsageIn;
    assert [SetInitialUsage, SaveUsage(Reset)][1..] == [SaveUsage(Reset)];
    Unfold(env, p, [SetInitialUsage, SaveUsage(Reset)], w, h);
    OneStep(env, p, SaveUsage(Reset), w, h.WithUsage(BLANK_USAGE));
    SavedUsageIsRead(env, p, Reset, w, h.WithUsage(BLANK_USAGE));
  }

  /** An update is refused on an imported role, else stores every requested key field over the previous one and leaves
      the usage record, limits and token, as it was. */
  lemma UpdateOutcome(env: Env, w: World, p: string, u: KeyUpdate)
    requires KeysIn(w.store, p).Is? && UsageIn(w.store, p).Is? && NothingFails(env, w.tick, 3)
    ensures var (w', reply) := RunRequest(env, w, Request(p, Update(u)));
            var k := KeysIn(w.store, p).value;
            if k.imported then reply == Refused && w'.store == w.store
            else
              && reply == Continue && KeysIn(w'.store, p).Is?
              && CredentialsTaken(k, u, KeysIn(w'.store, p).value)
              && KeysIn(w'.store, p).value.maxQPS == QpsRead(Taken(u.qps, k.maxQPS))
              && UsageIn(w'.store, p) == UsageIn(w.store, p)
  {
    var w0 := w.(req := w.req + 1);
    var steps := [ReadRole(true), BlockImported, UpdateKeys(u), SaveKeys(FromRequest)];
    FlatRequest(env, w, Request(p, Update(u)), steps);
    EditedKeysAreTaken(KeysIn(w.store, p).value, u);
    RoleReadTicks(env, p, w0);
    RoleRead(env, p, w0);
    hide Apply, RunSteps, RunRequest, KeysIn, UsageIn, Updated, Normalised, HandlerOf, CredentialsTaken, QpsRead, Taken;
    assert steps[1..] == [BlockImported, UpdateKeys(u), SaveKeys(FromRequest)] + [];
    Unfold(env, p, steps, w0, EMPTY_HEAP);
    var o := Apply(env, p, ReadRole(true), w0, EMPTY_HEAP);
    KeysEdited(env, p, u, [], o.w, o.h);
    if !o.h.role.value.keys.imported {
      var h := o.h.WithKeys(Updated(o.h.role.value.keys, u));
      NothingLeft(env, p, Apply(env, p, SaveKeys(FromRequest), o.w, h).w, h);
    }
  }

  lemma NothingLeft(env: Env, p: string, w: World, h: Heap)
    ensures RunSteps(env, p, [], w, h) == Go(w, h)
  {}

  /** Deleting the token blanks it and its times, and nothing else: limits, remaining uses and keys stay. */
  lemma TokenDeletionOutcome(env: Env, w: World, p: string)
    requires KeysIn(w.store, p).Is? && UsageIn(w.store, p).Is? && NothingFails(env, w.tick, 3)
    ensures var (w', reply) := RunRequest(env, w, Request(p, DeleteToken));
            && reply == Continue && KeysIn(w'.store, p) == KeysIn(w.store, p)
            && UsageIn(w'.store, p) == Is(UsageIn(w.store, p).value.(v3Token := "", v3TokenExpiry := -1, v3TokenObtained := -1))
  {
    var w0 := w.(req := w.req + 1);
    var steps := [ReadRole(true), ForgetToken, SaveUsage(Forget)];
    FlatRequest(env, w, Request(p, DeleteToken), steps);
    RoleReadTicks(env, p, w0);
    RoleRead(env, p, w0);
    hide Apply, RunSteps, RunRequest, KeysIn, UsageIn, HandlerOf;
    assert steps[1..] == [ForgetToken, SaveUsage(Forget)];
    Unfold(env, p, steps, w0, EMPTY_HEAP);
    var o := Apply(env, p, ReadRole(true), w0, EMPTY_HEAP);
    TokenIsBlanked(env, p, o.w, o.h);
  }

  lemma TokenIsBlanked(env: Env, p: string, w: World, h: Heap)
    requires h.role.Some? && env.ok(w.tick)
    ensures var o := RunSteps(env, p, [ForgetToken, SaveUsage(Forget)], w, h);
            && o.reply == Continue && UsageIn(o.w.store, p) == Is(h.role.value.usage.WithoutToken())
            && KeysIn(o.w.store, p) == KeysIn(w.store, p)
  {
    UsageEditsApplied(env, p, w, h);
    hide Apply, RunSteps, KeysIn, UsageIn;
    var h1 := h.WithUsage(h.role.value.usage.WithoutToken());
    assert [ForgetToken, SaveUsage(Forget)][1..] == [SaveUsage(Forget)];
    Unfold(env, p, [ForgetToken, SaveUsage(Forget)], w, h);
    OneStep(env, p, SaveUsage(Forget), w, h1);
    SavedUsageIsRead(env, p, Forget, w, h1);
  }

  // ---- admission ----

  /** A gate's verdict on a role, at a second of the clock. */
  predicate Passes(s: Step, role: Role, second: int) {
    match s
    case BlockForceProxy => !role.keys.forceProxyMode
    case BlockIncapableOf(api) => if api == 2 then AbleV2(role.keys) else api == 3 && AbleV3(role.keys)
    case _ => WithinLimits(role.usage, second)
  }

  lemma GateApplied(env: Env, p: string, s: Step, w: World, h: Heap)
    requires h.role.Some? && HasNoEffect(s)
    ensures var o := Apply(env, p, s, w, h);
            && o.h == h && o.reply == (if Passes(s, h.role.value, Second(env, w.tick)) then Continue else Refused)
            && o.w == (if !s.BlockUsageExceedingLimits? then w
                       else if o.reply == Continue then w.Ticked(1).Log(Checked(w.req, p, w.tick)) else w.Ticked(1))
  {}

  predicate AllPass(gates: seq<Step>, role: Role, second: int) {
    forall s <- gates :: Passes(s, role, second)
  }

  /** A run that wrote nothing and had no effect. */
  ghost predicate NothingDone(w: World, w': World) {
    w'.store == w.store && forall e <- w'.trace :: e in w.trace || e.Loaded? || e.Checked?
  }

  /** A list of gates, with the limits check among them once, before whatever follows. */
  lemma {:induction false} GatesDecide(env: Env, p: string, gates: seq<Step>, rest: seq<Step>, n: nat, w: World, h: Heap)
    requires h.role.Some? && (forall s <- gates :: HasNoEffect(s))
    requires n < |gates| && forall i :: 0 <= i < |gates| ==> (gates[i].BlockUsageExceedingLimits? <==> i == n)
    ensures var o := RunSteps(env, p, gates + rest, w, h);
            if AllPass(gates, h.role.value, Second(env, w.tick))
            then o == RunSteps(env, p, rest, w.Ticked(1).Log(Checked(w.req, p, w.tick)), h)
            else o.reply == Refused && NothingDone(w, o.w)
    decreases n
  {
    hide Apply, RunSteps, Passes;
    var s, after := gates[0], gates[1..];
    assert gates == [s] + after && (gates + rest)[0] == s && (gates + rest)[1..] == after + rest;
    GateApplied(env, p, s, w, h);
    Unfold(env, p, gates + rest, w, h);
    var o := Apply(env, p, s, w, h);
    if n > 0 {
      if o.reply == Continue { GatesDecide(env, p, after, rest, n - 1, o.w, h); }
    } else if o.reply == Continue {
      LastGates(env, p, after, rest, o.w, h, Second(env, w.tick));
    }
  }

  /** Gates after the limits check do not look at the clock. */
  lemma {:induction false} LastGates(env: Env, p: string, gates: seq<Step>, rest: seq<Step>, w: World, h: Heap, second: int)
    requires h.role.Some? && (forall s <- gates :: HasNoEffect(s) && !s.BlockUsageExceedingLimits?)
    ensures var o := RunSteps(env, p, gates + rest, w, h);
            if AllPass(gates, h.role.value, second) then o == RunSteps(env, p, rest, w, h)
            else o.reply == Refused && NothingDone(w, o.w)
    decreases |gates|
  {
    hide Apply, RunSteps, WithinLimits;
    if gates == [] {
      assert gates + rest == rest;
    } else {
      var s, after := gates[0], gates[1..];
      assert gates == [s] + after && (gates + rest)[0] == s && (gates + rest)[1..] == after + rest;
      GateApplied(env, p, s, w, h);
      Unfold(env, p, gates + rest, w, h);
      if Passes(s, h.role.value, second) { LastGates(env, p, after, rest, w, h, second); }
    }
  }

  /** The world once role `p` has been read and has passed the limits check. */
  function Checkpoint(p: string, k: RoleKeys, u: RoleUsage, w: World): World {
    w.Ticked(2).Log(Loaded(w.req, p, k, u)).Ticked(1).Log(Checked(w.req, p, w.tick + 2))
  }

  lemma AtCheckpoint(p: string, k: RoleKeys, u: RoleUsage, w: World)
    ensures var w' := Checkpoint(p, k, u, w);
            && w'.store == w.store && w'.tick == w.tick + 3 && w'.req == w.req && !IsAnswered(w'.trace)
            && NothingDone(w, w') && NothingDone(w, w'.Ticked(2))
  {}

  lemma LeavesAUse(u: RoleUsage, second: int)
    ensures WithinLimits(u, second) && u.explicitNumUses > 0 ==> u.remainingNumUses > 0
  {}

  /** A chain that reads the role and passes it through gates goes on from there exactly when all of them let it. */
  lemma RoleIsTaken(env: Env, p: string, gates: seq<Step>, rest: seq<Step>, n: nat, w: World) returns (h: Heap)
    requires KeysIn(w.store, p).Is? && UsageIn(w.store, p).Is? && env.ok(w.tick) && env.ok(w.tick + 1)
    requires forall s <- gates :: HasNoEffect(s)
    requires n < |gates| && forall i :: 0 <= i < |gates| ==> (gates[i].BlockUsageExceedingLimits? <==> i == n)
    ensures h == EMPTY_HEAP.(role := Some(Role(p, KeysIn(w.store, p).value, UsageIn(w.store, p).value, None)))
    ensures var o := RunSteps(env, p, [ReadRole(true)] + (gates + rest), w, EMPTY_HEAP);
            if AllPass(gates, h.role.value, Second(env, w.tick + 2))
            then o == RunSteps(env, p, rest, Checkpoint(p, h.role.value.keys, h.role.value.usage, w), h)
            else o.reply == Refused && NothingDone(w, o.w)
  {
    hide *;
    var steps := [ReadRole(true)] + (gates + rest);
    assert steps[0] == ReadRole(true) && steps[1..] == gates + rest;
    WholeRead(env, p, w);
    Unfold(env, p, steps, w, EMPTY_HEAP);
    var o := Apply(env, p, ReadRole(true), w, EMPTY_HEAP);
    h := o.h;
    GatesDecide(env, p, gates, rest, n, o.w, o.h);
    ReadFirst(p, h.role.value.keys, h.role.value.usage, w);
  }

  lemma ReadFirst(p: string, k: RoleKeys, u: RoleUsage, w: World)
    ensures var w1 := w.Ticked(2).Log(Loaded(w.req, p, k, u));
            && w1.Ticked(1).Log(Checked(w1.req, p, w1.tick)) == Checkpoint(p, k, u, w) && w1.tick == w.tick + 2
            && forall w': World :: NothingDone(w1, w') ==> NothingDone(w, w')
  {}

  lemma WholeRead(env: Env, p: string, w: World)
    requires KeysIn(w.store, p).Is? && UsageIn(w.store, p).Is? && env.ok(w.tick) && env.ok(w.tick + 1)
    ensures var (k, u) := (KeysIn(w.store, p).value, UsageIn(w.store, p).value);
            Apply(env, p, ReadRole(true), w, EMPTY_HEAP) ==
            Out(w.Ticked(2).Log(Loaded(w.req, p, k, u)), EMPTY_HEAP.(role := Some(Role(p, k, u, None))), Continue)
  {}

  lemma QuotaTaken(env: Env, p: string, w: World, h: Heap)
    requires h.role.Some? && UsageIn(w.store, p) == Is(h.role.value.usage) && env.ok(w.tick)
    requires h.role.value.usage.explicitNumUses > 0 ==> h.role.value.usage.remainingNumUses > 0
    ensures var o := Apply(env, p, DecreaseQuota, w, h);
            && o.reply == Continue && o.h == h.WithUsage(OneUseLess(h.role.value.usage)) && o.w.req == w.req
            && o.h.role.Some? && o.h.role.value.usage == OneUseLess(h.role.value.usage)
            && o.w.tick == w.tick + (if h.role.value.usage.explicitNumUses > 0 then 1 else 0)
            && UsageIn(o.w.store, p) == Is(OneUseLess(h.role.value.usage)) && KeysIn(o.w.store, p) == KeysIn(w.store, p)
  {
    UsageReadBack(h.role.value.usage.Reduced());
    hide EncodeUsage, DecodeUsage;
  }

  ghost predicate EndsWith(tr: Trace, e: Event) {
    |tr| > 0 && tr[|tr| - 1] == e
  }

  /** How a request that was admitted is answered, and its last event: a grant or V2 call whose effect is at tick `t`. */
  ghost predicate SpenderAnswered(env: Env, op: Op, term: int, t: nat, req: nat, p: string, tr: Trace, reply: Reply)
    requires IsSpender(op)
  {
    match op
    case Grant(Some(2)) => reply == Respond(Credential) && EndsWith(tr, Performed(req, p, V2Signature, t))
    case Grant(_) =>
      (match env.oauth(t)
       case Denied => reply == Fail
       case Granted(token, _, serverSecond) =>
         if serverSecond > 0 && term > 0 && serverSecond > term then reply == Fail
         else reply == Respond(Credential) && EndsWith(tr, Performed(req, p, TokenGrant(token), t)))
    case _ =>
      EndsWith(tr, Performed(req, p, V2Call, t))
      && reply == if env.upstream(t).TransportError? then Fail else Respond(Relayed)
  }

  /** A grant or V2 call, whatever OAuth, upstream and clock say: it is admitted exactly when, at the second of the limits
      check, the stored term is not over, a use is left, the stored keys make up what the API takes, and for a grant the
      role is not bound to the proxy. Then exactly one use is gone if they are counted, the keys are untouched, and the
      answer follows the effect; a V3 grant fails when OAuth denies it or dates it after the role's term. Otherwise it is
      refused and nothing is done. */
  lemma AdmissionIsExact(env: Env, w: World, r: Request)
    requires IsSpender(r.op) && Preflight(w.live, r.op) == None && NothingFails(env, w.tick, 4)
    requires KeysIn(w.store, r.role).Is? && UsageIn(w.store, r.role).Is?
    ensures var (w', reply) := RunRequest(env, w, r);
            var (p, k, u) := (r.role, KeysIn(w.store, r.role).value, UsageIn(w.store, r.role).value);
            var second := env.clock(w.tick + 2) / 1_000_000_000;
            var forV3 := r.op.Grant? && r.op.api != Some(2);
            if && (u.explicitTerm <= 0 || second <= u.explicitTerm)
               && (u.explicitNumUses <= 0 || u.remainingNumUses > 0)
               && k.apiKey != "" && k.keySecret != ""
               && (if forV3 then k.areaId != "" && k.username != "" && k.password != "" else k.areaNid > 0)
               && (r.op.Grant? ==> !k.forceProxyMode)
            then
              && KeysIn(w'.store, p) == Is(k)
              && UsageIn(w'.store, p) ==
                 Is(u.(remainingNumUses := if u.explicitNumUses > 0 then u.remainingNumUses - 1 else u.remainingNumUses))
              && SpenderAnswered(env, r.op, u.explicitTerm, w.tick + 3 + (if u.explicitNumUses > 0 then 1 else 0), w.req + 1, p,
                                 w'.trace, reply)
            else reply == Refused && NothingDone(w, w')
  {
    hide *;
    FourSteps(env, w.tick);
    InItsFields(env, r.op, KeysIn(w.store, r.role).value, UsageIn(w.store, r.role).value, w.tick);
    SameStart(w, w.req + 1);
    SpenderRuns(env, w, r);
    SpenderChain(env, w.(req := w.req + 1), r.role, r.op);
  }

  lemma FourSteps(env: Env, t: nat)
    ensures NothingFails(env, t, 4) ==> env.ok(t) && env.ok(t + 1) && env.ok(t + 3)
  {}

  lemma InItsFields(env: Env, op: Op, k: RoleKeys, u: RoleUsage, t: nat)
    ensures WithinLimits(u, Second(env, t + 2)) <==>
              && (u.explicitTerm <= 0 || env.clock(t + 2) / 1_000_000_000 <= u.explicitTerm)
              && (u.explicitNumUses <= 0 || u.remainingNumUses > 0)
    ensures (if op.Grant? && op.api != Some(2) then AbleV3(k) else AbleV2(k)) <==>
              && k.apiKey != "" && k.keySecret != ""
              && (if op.Grant? && op.api != Some(2) then k.areaId != "" && k.username != "" && k.password != ""
                  else k.areaNid > 0)
    ensures OneUseLess(u) ==
            u.(remainingNumUses := if u.explicitNumUses > 0 then u.remainingNumUses - 1 else u.remainingNumUses)
  {}

  lemma SameStart(w: World, req: nat)
    ensures forall w': World :: NothingDone(w.(req := req), w') <==> NothingDone(w, w')
  {}

  lemma SpenderChain(env: Env, w: World, p: string, op: Op)
    requires IsSpender(op) && (op.Grant? && op.api.Some? ==> 2 <= op.api.value <= 3)
    requires env.ok(w.tick) && env.ok(w.tick + 1) && env.ok(w.tick + 3)
    requires KeysIn(w.store, p).Is? && UsageIn(w.store, p).Is?
    ensures var o := RunSteps(env, p, StepsOf(HandlerOf(op)), w, EMPTY_HEAP);
            var (k, u) := (KeysIn(w.store, p).value, UsageIn(w.store, p).value);
            if && WithinLimits(u, Second(env, w.tick + 2))
               && (if op.Grant? && op.api != Some(2) then AbleV3(k) else AbleV2(k)) && (op.Grant? ==> !k.forceProxyMode)
            then
              && KeysIn(o.w.store, p) == Is(k) && UsageIn(o.w.store, p) == Is(OneUseLess(u))
              && SpenderAnswered(env, op, u.explicitTerm, w.tick + 3 + (if u.explicitNumUses > 0 then 1 else 0), w.req, p,
                                 o.w.trace, o.reply)
            else o.reply == Refused && NothingDone(w, o.w)
  {
    hide *;
    LeavesAUse(UsageIn(w.store, p).value, Second(env, w.tick + 2));
    var n := SpenderShape(op);
    var gates := GatesOfSpender(op);
    var h := RoleIsTaken(env, p, gates, SpenderTail(op), n, w);
    GatesMeanAdmissible(op, gates, h.role.value, Second(env, w.tick + 2));
    AtCheckpoint(p, h.role.value.keys, h.role.value.usage, w);
    if AllPass(gates, h.role.value, Second(env, w.tick + 2)) {
      SpendAndAnswer(env, p, op, Checkpoint(p, h.role.value.keys, h.role.value.usage, w), h);
    }
  }

  lemma EffectApplied(env: Env, p: string, op: Op, w: World, h: Heap)
    requires IsSpender(op) && h.role.Some? && (op.Grant? && op.api.Some? ==> 2 <= op.api.value <= 3)
    ensures var o := Apply(env, p, EffectStep(op), w, h);
            && o.w.store == w.store && (o.reply == Continue || o.reply == Fail) && (o.reply == Continue ==> o.h.role.Some?)
            && SpenderAnswered(env, op, h.role.value.usage.explicitTerm, w.tick, w.req, p, o.w.trace,
                               if o.reply == Fail then Fail else Respond(OutputOf(op)))
  {
    hide KeysIn, UsageIn, PkIn, ParseDesired, DecodeExchange, EnsureTokenDo, FetchDo;
  }

  lemma EffectAnswers(env: Env, p: string, op: Op, w: World, h: Heap)
    requires IsSpender(op) && h.role.Some? && (op.Grant? && op.api.Some? ==> 2 <= op.api.value <= 3)
    ensures var o := RunSteps(env, p, SpenderTail(op)[1..], w, h);
            && o.w.store == w.store
            && SpenderAnswered(env, op, h.role.value.usage.explicitTerm, w.tick, w.req, p, o.w.trace, o.reply)
  {
    var rest := [EffectStep(op), Render(OutputOf(op))];
    assert SpenderTail(op)[1..] == rest && rest[0] == EffectStep(op) && rest[1..] == [Render(OutputOf(op))];
    hide *;
    EffectApplied(env, p, op, w, h);
    Unfold(env, p, rest, w, h);
    var o := Apply(env, p, EffectStep(op), w, h);
    if o.reply == Continue {
      OneStep(env, p, Render(OutputOf(op)), o.w, o.h);
      Rendered(env, p, OutputOf(op), o.w, o.h);
    }
  }

  lemma Rendered(env: Env, p: string, output: Output, w: World, h: Heap)
    requires h.role.Some?
    ensures Apply(env, p, Render(output), w, h) == Out(w, h, Respond(output))
  {}

  function EffectStep(op: Op): Step {
    if !op.Grant? then CallV2 else if op.api == Some(2) then RetrieveV2Signature else RetrieveV3Token
  }

  function SpenderTail(op: Op): seq<Step> {
    [DecreaseQuota, EffectStep(op), Render(OutputOf(op))]
  }

  function OutputOf(op: Op): Output {
    if op.Grant? then Credential else Relayed
  }

  lemma SpendAndAnswer(env: Env, p: string, op: Op, w: World, h: Heap)
    requires IsSpender(op) && h.role.Some? && (op.Grant? && op.api.Some? ==> 2 <= op.api.value <= 3)
    requires UsageIn(w.store, p) == Is(h.role.value.usage) && env.ok(w.tick)
    requires h.role.value.usage.explicitNumUses > 0 ==> h.role.value.usage.remainingNumUses > 0
    ensures var o := RunSteps(env, p, SpenderTail(op), w, h);
            var u := h.role.value.usage;
            && UsageIn(o.w.store, p) == Is(OneUseLess(u)) && KeysIn(o.w.store, p) == KeysIn(w.store, p)
            && SpenderAnswered(env, op, u.explicitTerm, w.tick + (if u.explicitNumUses > 0 then 1 else 0), w.req, p,
                               o.w.trace, o.reply)
  {
    QuotaTaken(env, p, w, h);
    Unfold(env, p, SpenderTail(op), w, h);
    assert SpenderTail(op)[0] == DecreaseQuota;
    assert OneUseLess(h.role.value.usage).explicitTerm == h.role.value.usage.explicitTerm;
    hide Apply, RunSteps, UsageIn, KeysIn, SpenderAnswered, SpenderTail, OneUseLess;
    var o := Apply(env, p, DecreaseQuota, w, h);
    EffectAnswers(env, p, op, o.w, o.h);
  }

  lemma SpenderShape(op: Op) returns (n: nat)
    requires IsSpender(op) && (op.Grant? && op.api.Some? ==> 2 <= op.api.value <= 3)
    ensures StepsOf(HandlerOf(op)) == [ReadRole(true)] + (GatesOfSpender(op) + SpenderTail(op))
    ensures (forall g <- GatesOfSpender(op) :: HasNoEffect(g)) && n < |GatesOfSpender(op)|
    ensures forall i :: 0 <= i < |GatesOfSpender(op)| ==> (GatesOfSpender(op)[i].BlockUsageExceedingLimits? <==> i == n)
  {
    n := if op.CliV2? then 0 else 1;
  }

  function GatesOfSpender(op: Op): seq<Step>
    requires IsSpender(op)
  {
    match op
    case Grant(api) => [BlockForceProxy, BlockUsageExceedingLimits, BlockIncapableOf(if api == Some(2) then 2 else 3)]
    case ProxyV2(_) => [BlockIncapableOf(2), BlockUsageExceedingLimits]
    case _ => [BlockUsageExceedingLimits, BlockIncapableOf(2)]
  }

  lemma GatesMeanAdmissible(op: Op, gates: seq<Step>, role: Role, second: int)
    requires IsSpender(op) && gates == GatesOfSpender(op)
    ensures AllPass(gates, role, second) <==>
            && WithinLimits(role.usage, second)
            && (if op.Grant? && op.api != Some(2) then AbleV3(role.keys) else AbleV2(role.keys))
            && (op.Grant? ==> !role.keys.forceProxyMode)
  {
    assert gates[0] in gates && gates[1] in gates && (op.Grant? ==> gates[2] in gates);
  }

  lemma SpenderRuns(env: Env, w: World, r: Request)
    requires IsSpender(r.op) && Preflight(w.live, r.op) == None
    ensures var o := RunSteps(env, r.role, StepsOf(HandlerOf(r.op)), w.(req := w.req + 1), EMPTY_HEAP);
            RunRequest(env, w, r) == (o.w, o.reply)
    ensures r.op.Grant? && r.op.api.Some? ==> 2 <= r.op.api.value <= 3
  {
    SpenderIsFlat(env, r.role, r.op, w.(req := w.req + 1));
    hide RunHandler, HandlerOf, RunSteps, StepsOf;
  }

  // ---- requests that end before they begin ----

  /** Requests that are answered before the role is looked at: an import of no PEM text, a grant for an unknown API, V2
      without parameters, and a V3 change from the CLI where that is off or comes without a body. */
  predicate TurnedAway(live: Live, op: Op) {
    match op
    case Import(block) => block == None
    case Grant(api) => api.Some? && api != Some(2) && api != Some(3)
    case CliV2(hasParams) => !hasParams
    case ProxyV2(hasParams) => !hasParams
    case V3(CliWrite(hasBody)) => !live.cliWrite || !hasBody
    case V3(CliDelete) => !live.cliWrite
    case _ => false
  }

  /** These requests, and no others, are turned away with nothing read, done or written. */
  lemma TurnedAwayIsExact(env: Env, w: World, r: Request)
    ensures !r.op.Reconfigure? ==> (TurnedAway(w.live, r.op) <==> Preflight(w.live, r.op) != None)
    ensures TurnedAway(w.live, r.op) ==>
              var (w', reply) := RunRequest(env, w, r);
              && w' == w.(req := w.req + 1)
              && reply == if r.op.V3? && w.live.cliWrite then Fail else Refused
    ensures r.op.Reconfigure? ==> RunRequest(env, w, r) == (w.(req := w.req + 1, live := r.op.live), Continue)
  {
    hide RunHandler, HandlerOf;
  }

  /** Looking at a role shows it and takes no use, whatever its limits. */
  lemma ReadingIsFree(env: Env, w: World, p: string)
    requires KeysIn(w.store, p).Is? && UsageIn(w.store, p).Is? && NothingFails(env, w.tick, 2)
    ensures var (w', reply) := RunRequest(env, w, Request(p, ReadData));
            reply == Respond(RoleView) && NothingDone(w, w')
  {
    var w0, steps := w.(req := w.req + 1), [ReadRole(true), Render(RoleView)];
    assert steps[1..] == [Render(RoleView)];
    FlatRequest(env, w, Request(p, ReadData), steps);
    WholeRead(env, p, w0);
    Unfold(env, p, steps, w0, EMPTY_HEAP);
    var o := Apply(env, p, ReadRole(true), w0, EMPTY_HEAP);
    OneStep(env, p, Render(RoleView), o.w, o.h);
    Rendered(env, p, RoleView, o.w, o.h);
    hide RunSteps, RunRequest, HandlerOf, Apply, KeysIn, UsageIn;
  }
}
