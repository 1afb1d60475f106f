/** Exactly when V3 requests, existence probes and token readings are admitted, and how they are answered. */
module V3Outcomes {
  import opened Records
  import opened Codec
  import opened Engine
  import opened Vocabulary
  import opened Frames
  import opened Exchange
  import opened Interleaving
  import opened Outcomes
  import opened Retry

  /** The token as it is after the renewal due at tick `t`, if one is due. */
  function TokenThen(env: Env, t: nat, u: RoleUsage): RoleUsage
    requires TokenIsOld(u, Second(env, t)) ==> env.oauth(t + 1).Granted?
  {
    if TokenIsOld(u, Second(env, t)) then WithGrantedToken(env, t + 1, u) else u
  }

  /** One renewal, if the token is old; everything stored stays but the token and its times. */
  lemma TokenStep(env: Env, p: string, w: World, h: Heap)
    requires h.role.Some? && UsageIn(w.store, p) == Is(h.role.value.usage) && env.ok(w.tick + 3)
    ensures var (o, u) := (Apply(env, p, EnsureToken, w, h), h.role.value.usage);
            && KeysIn(o.w.store, p) == KeysIn(w.store, p) && o.w.req == w.req
            && if TokenIsOld(u, Second(env, w.tick)) && env.oauth(w.tick + 1).Denied?
               then o.reply == Fail && o.w == w.Ticked(2) && o.w.store == w.store
               else
                 && o.reply == Continue && o.h.role.Some? && o.h.role.value.usage == TokenThen(env, w.tick, u)
                 && UsageIn(o.w.store, p) == Is(TokenThen(env, w.tick, u))
                 && o.w.tick == w.tick + (if TokenIsOld(u, Second(env, w.tick)) then 4 else 1)
  {
    EnsureApplied(env, p, w, h);
    if h.role.value.usage.V3TokenNeedsRenew(env.Seconds(w.tick)) && env.oauth(w.tick + 1).Granted? {
      UsageStored(w.Ticked(4), p, Refreshed(env, w.tick, h.role.value.usage), Refresh(w.tick));
    }
    hide KeysIn, UsageIn, World.WithUsage, Apply, ApplyToRole;
  }

  lemma EnsureApplied(env: Env, p: string, w: World, h: Heap)
    requires h.role.Some?
    ensures Apply(env, p, EnsureToken, w, h) == EnsureTokenDo(env, p, w, h)
  {}

  /** How a V3 request is answered: its last event is the call that settled it, unless it failed. */
  ghost predicate V3Answered(kind: V3Kind, tr: Trace, reply: Reply) {
    if !IsAnswered(tr) then reply == Fail
    else
      var code := tr[|tr| - 1].effect.answer.code;
      match kind
      case Proxied => reply == Respond(Relayed)
      case CliDelete => reply == if code <= 299 then Continue else Refused
      case _ => reply == if code <= 299 then Respond(Relayed) else Refused
  }

  function TailOf(kind: V3Kind): seq<Step> {
    match kind
    case Proxied => [Render(Relayed)]
    case CliDelete => [BounceErrors]
    case _ => [BounceErrors, Render(Relayed)]
  }

  /** What is stored once a V3 request is over: the keys and limits as before, and `left` uses. */
  ghost predicate Leaves(w: World, p: string, k: RoleKeys, u: RoleUsage, left: int) {
    && KeysIn(w.store, p) == Is(k) && UsageIn(w.store, p).Is?
    && UsageIn(w.store, p).value.explicitNumUses == u.explicitNumUses
    && UsageIn(w.store, p).value.explicitTerm == u.explicitTerm
    && UsageIn(w.store, p).value.remainingNumUses == left
  }

  lemma {:induction false} TailAnswers(env: Env, p: string, kind: V3Kind, tail: seq<Step>, code: int, w: World, h: Heap)
    requires h.role.Some? && h.status == Some(code) && code != 403
    requires tail == TailOf(kind)
    ensures var o := RunSteps(env, p, tail, w, h);
            o.w == w && o.reply == match kind
              case Proxied => Respond(Relayed)
              case CliDelete => if code <= 299 then Continue else Refused
              case _ => if code <= 299 then Respond(Relayed) else Refused
  {
    Unfold(env, p, tail, w, h);
    assert Apply(env, p, BounceErrors, w, h) == Gate(w, h, code <= 299);
    assert Apply(env, p, Render(Relayed), w, h) == Out(w, h, Respond(Relayed));
    hide Apply;
    if kind.Proxied? || kind.CliDelete? {
      OneStep(env, p, tail[0], w, h);
    } else {
      assert tail[1..] == [Render(Relayed)];
      OneStep(env, p, Render(Relayed), w, h);
    }
    hide RunSteps;
  }

  lemma LeavesMeans(w: World, p: string, k: RoleKeys, u: RoleUsage, left: int)
    ensures Leaves(w, p, k, u, left) <==>
            && KeysIn(w.store, p) == Is(k) && UsageIn(w.store, p).Is? && SameLimits(UsageIn(w.store, p).value, u)
            && UsageIn(w.store, p).value.remainingNumUses == left
    ensures forall v: RoleUsage :: SameLimits(u, v) && Leaves(w, p, k, v, left) ==> Leaves(w, p, k, u, left)
  {}

  lemma Fetched(env: Env, p: string, probe: bool, w: World, h: Heap)
    requires h.role.Some? && UsageIn(w.store, p) == Is(h.role.value.usage) && !IsAnswered(w.trace)
    requires KeysIn(w.store, p).Is?
    ensures var o := Apply(env, p, FetchV3(probe), w, h);
            && Leaves(o.w, p, KeysIn(w.store, p).value, h.role.value.usage, h.role.value.usage.remainingNumUses)
            && (o.reply == Continue || (o.reply == Fail && !IsAnswered(o.w.trace)))
            && (o.reply == Continue ==>
                  && o.h.role.Some? && IsAnswered(o.w.trace)
                  && o.h.status == Some(o.w.trace[|o.w.trace| - 1].effect.answer.code) && o.h.status != Some(403))
  {
    hide Apply, RunSteps, FetchDo, KeysIn, UsageIn, Calls, Orderly, RefreshThenCall, Leaves;
    var o := FetchDo(env, p, probe, w, h, FETCH_ROUNDS);
    FetchApplied(env, p, probe, w, h);
    FetchIsOrderly(env, p, probe, w, h, FETCH_ROUNDS);
    FetchKeepsLimits(env, p, probe, w, h, FETCH_ROUNDS);
    LeavesMeans(o.w, p, KeysIn(w.store, p).value, h.role.value.usage, h.role.value.usage.remainingNumUses);
    if |o.w.trace| == |w.trace| { assert o.w.trace == w.trace; }
  }

  /** The fetch and what follows it. */
  lemma FetchAnswers(env: Env, p: string, probe: bool, kind: V3Kind, w: World, h: Heap)
    requires h.role.Some? && UsageIn(w.store, p) == Is(h.role.value.usage) && !IsAnswered(w.trace)
    requires KeysIn(w.store, p).Is?
    ensures var o := RunSteps(env, p, [FetchV3(probe)] + TailOf(kind), w, h);
            && Leaves(o.w, p, KeysIn(w.store, p).value, h.role.value.usage, h.role.value.usage.remainingNumUses)
            && V3Answered(kind, o.w.trace, o.reply)
  {
    hide *;
    var steps := [FetchV3(probe)] + TailOf(kind);
    assert steps[0] == FetchV3(probe) && steps[1..] == TailOf(kind);
    Unfold(env, p, steps, w, h);
    Fetched(env, p, probe, w, h);
    var o := Apply(env, p, FetchV3(probe), w, h);
    V3AnswerMeans(kind, RunSteps(env, p, steps, w, h).w.trace, RunSteps(env, p, steps, w, h).reply);
    if o.reply == Continue { TailAnswers(env, p, kind, TailOf(kind), o.h.status.value, o.w, o.h); }
  }

  lemma V3AnswerMeans(kind: V3Kind, tr: Trace, reply: Reply)
    ensures IsAnswered(tr) ==>
              && |tr| > 0 && tr[|tr| - 1].Performed? && tr[|tr| - 1].effect.V3Call?
              && tr[|tr| - 1].effect.answer.Status? && tr[|tr| - 1].effect.answer.code != 403
    ensures V3Answered(kind, tr, reply) <==>
            if !IsAnswered(tr) then reply == Fail
            else reply == match kind
              case Proxied => Respond(Relayed)
              case CliDelete => if tr[|tr| - 1].effect.answer.code <= 299 then Continue else Refused
              case _ => if tr[|tr| - 1].effect.answer.code <= 299 then Respond(Relayed) else Refused
  {}

  function V3Gates(): seq<Step> {
    [BlockUsageExceedingLimits, BlockIncapableOf(3)]
  }

  /** The chain of a V3 request or probe once its gates are passed. */
  function V3Tail(probe: bool, kind: V3Kind): seq<Step> {
    [EnsureToken] + ((if probe then [] else [DecreaseQuota]) + ([FetchV3(probe)] + TailOf(kind)))
  }

  lemma V3GatesMean(role: Role, second: int)
    ensures AllPass(V3Gates(), role, second) <==> WithinLimits(role.usage, second) && AbleV3(role.keys)
    ensures (forall s <- V3Gates() :: HasNoEffect(s)) && 0 < |V3Gates()|
    ensures forall i :: 0 <= i < |V3Gates()| ==> (V3Gates()[i].BlockUsageExceedingLimits? <==> i == 0)
  {
    assert V3Gates()[0] in V3Gates() && V3Gates()[1] in V3Gates();
  }

  /** One renewal that went well, if it was needed at all. */
  lemma TokenInHand(env: Env, p: string, w: World, h: Heap)
    requires h.role.Some? && UsageIn(w.store, p) == Is(h.role.value.usage) && (forall t: nat :: env.ok(t))
    requires !IsAnswered(w.trace)
    ensures var (o, u) := (Apply(env, p, EnsureToken, w, h), h.role.value.usage);
            if TokenIsOld(u, Second(env, w.tick)) && env.oauth(w.tick + 1).Denied?
            then o.reply == Fail && o.w == w.Ticked(2)
            else
              && o.reply == Continue && o.h.role.Some? && KeysIn(o.w.store, p) == KeysIn(w.store, p)
              && UsageIn(o.w.store, p) == Is(o.h.role.value.usage) && SameLimits(u, o.h.role.value.usage)
              && o.h.role.value.usage.remainingNumUses == u.remainingNumUses && !IsAnswered(o.w.trace)
  {
    hide *;
    TokenStep(env, p, w, h);
    NotAnsweredYet(env, p, EnsureToken, w, h);
    TokenThenKeeps(env, w.tick, h.role.value.usage);
  }

  lemma TokenThenKeeps(env: Env, t: nat, u: RoleUsage)
    ensures !(TokenIsOld(u, Second(env, t)) && env.oauth(t + 1).Denied?) ==>
              SameLimits(u, TokenThen(env, t, u)) && TokenThen(env, t, u).remainingNumUses == u.remainingNumUses
  {}

  lemma V3TailParts(probe: bool, kind: V3Kind)
    ensures var steps := V3Tail(probe, kind);
            && |steps| > 0 && steps[0] == EnsureToken
            && steps[1..] == if probe then [FetchV3(true)] + TailOf(kind) else [DecreaseQuota] + ([FetchV3(false)] + TailOf(kind))
  {
    var rest := [DecreaseQuota] + ([FetchV3(false)] + TailOf(kind));
    assert [] + ([FetchV3(true)] + TailOf(kind)) == [FetchV3(true)] + TailOf(kind);
  }

  /** From the renewal on: the quota is taken or, by an existence probe, not. */
  lemma RenewAndFetch(env: Env, p: string, probe: bool, kind: V3Kind, w: World, h: Heap)
    requires h.role.Some? && UsageIn(w.store, p) == Is(h.role.value.usage) && !IsAnswered(w.trace)
    requires KeysIn(w.store, p).Is? && forall t: nat :: env.ok(t)
    requires h.role.value.usage.explicitNumUses > 0 ==> h.role.value.usage.remainingNumUses > 0
    ensures var (o, u) := (RunSteps(env, p, V3Tail(probe, kind), w, h), h.role.value.usage);
            if TokenIsOld(u, Second(env, w.tick)) && env.oauth(w.tick + 1).Denied?
            then o.reply == Fail && o.w == w.Ticked(2)
            else
              && Leaves(o.w, p, KeysIn(w.store, p).value, u,
                        if u.explicitNumUses > 0 && !probe then u.remainingNumUses - 1 else u.remainingNumUses)
              && V3Answered(kind, o.w.trace, o.reply)
  {
    hide *;
    V3TailParts(probe, kind);
    TokenInHand(env, p, w, h);
    Unfold(env, p, V3Tail(probe, kind), w, h);
    var o := Apply(env, p, EnsureToken, w, h);
    if o.reply == Continue {
      var (u, v) := (h.role.value.usage, o.h.role.value.usage);
      LimitsAre(u, v);
      if probe {
        FetchAnswers(env, p, probe, kind, o.w, o.h);
      } else {
        SpendAndFetch(env, p, kind, o.w, o.h);
      }
      var o2 := RunSteps(env, p, V3Tail(probe, kind), w, h);
      LeavesMeans(o2.w, p, KeysIn(w.store, p).value, u,
                  if u.explicitNumUses > 0 && !probe then u.remainingNumUses - 1 else u.remainingNumUses);
    }
  }

  lemma LimitsAre(u: RoleUsage, v: RoleUsage)
    ensures SameLimits(u, v) ==> u.explicitNumUses == v.explicitNumUses && u.explicitTerm == v.explicitTerm
    ensures OneUseLess(v).remainingNumUses == if v.explicitNumUses > 0 then v.remainingNumUses - 1 else v.remainingNumUses
    ensures SameLimits(v, OneUseLess(v))
  {}

  lemma NotAnsweredYet(env: Env, p: string, s: Step, w: World, h: Heap)
    requires h.role.Some? && (s.EnsureToken? || s.DecreaseQuota?) && !IsAnswered(w.trace)
    ensures !IsAnswered(Apply(env, p, s, w, h).w.trace)
  {}

  lemma SpendAndFetch(env: Env, p: string, kind: V3Kind, w: World, h: Heap)
    requires h.role.Some? && UsageIn(w.store, p) == Is(h.role.value.usage) && !IsAnswered(w.trace)
    requires KeysIn(w.store, p).Is? && env.ok(w.tick)
    requires h.role.value.usage.explicitNumUses > 0 ==> h.role.value.usage.remainingNumUses > 0
    ensures var (o, u) := (RunSteps(env, p, [DecreaseQuota] + ([FetchV3(false)] + TailOf(kind)), w, h), h.role.value.usage);
            && Leaves(o.w, p, KeysIn(w.store, p).value, u, OneUseLess(u).remainingNumUses)
            && V3Answered(kind, o.w.trace, o.reply)
  {
    QuotaTaken(env, p, w, h);
    var (u, steps) := (h.role.value.usage, [DecreaseQuota] + ([FetchV3(false)] + TailOf(kind)));
    assert steps[1..] == [FetchV3(false)] + TailOf(kind) && h.WithUsage(OneUseLess(u)).role.value.usage == OneUseLess(u);
    assert h.WithUsage(OneUseLess(u)).role.Some?;
    hide *;
    NotAnsweredYet(env, p, DecreaseQuota, w, h);
    LimitsAre(u, u);
    Unfold(env, p, steps, w, h);
    var o := Apply(env, p, DecreaseQuota, w, h);
    FetchAnswers(env, p, false, kind, o.w, o.h);
    LeavesMeans(RunSteps(env, p, steps, w, h).w, p, KeysIn(w.store, p).value, u, OneUseLess(u).remainingNumUses);
  }

  /** A V3 request or existence probe as one flat chain. */
  lemma V3Flat(env: Env, w: World, r: Request) returns (probe: bool, kind: V3Kind)
    requires (r.op.V3? || r.op.ProbeV3?) && Preflight(w.live, r.op) == None
    ensures probe == r.op.ProbeV3? && kind == if probe then CliDelete else r.op.kind
    ensures var w0 := w.(req := w.req + 1);
            var o := RunSteps(env, r.role, [ReadRole(true)] + (V3Gates() + V3Tail(probe, kind)), w0, EMPTY_HEAP);
            RunRequest(env, w, r) == (o.w, o.reply)
  {
    probe, kind := r.op.ProbeV3?, if r.op.ProbeV3? then CliDelete else r.op.kind;
    var steps := [ReadRole(true)] + (V3Gates() + V3Tail(probe, kind));
    if probe {
      var parent, child := [ReadRole(true)] + V3Gates(), [EnsureToken, FetchV3(true), BounceErrors];
      assert HandlerOf(ProbeV3) == Nested(parent, child) && parent + child == steps;
      assert forall s <- parent :: CarriesOnlyRole(s);
      hide RunSteps, RunHandler, HandlerOf;
      NestedIsFlat(env, r.role, parent, child, w.(req := w.req + 1));
    } else {
      assert HandlerOf(r.op).steps == steps;
      hide RunSteps, HandlerOf;
      FlatRequest(env, w, r, steps);
    }
  }

  lemma InFields(env: Env, k: RoleKeys, u: RoleUsage, t: nat)
    ensures WithinLimits(u, Second(env, t + 2)) <==>
              && (u.explicitTerm <= 0 || env.clock(t + 2) / 1_000_000_000 <= u.explicitTerm)
              && (u.explicitNumUses <= 0 || u.remainingNumUses > 0)
    ensures AbleV3(k) <==> k.areaId != "" && k.apiKey != "" && k.keySecret != "" && k.username != "" && k.password != ""
    ensures TokenIsOld(u, Second(env, t + 3)) <==>
              u.v3Token == "" || env.clock(t + 3) / 1_000_000_000 > u.v3TokenExpiry - 300
  {}

  lemma ProbeAnswered(tr: Trace, reply: Reply)
    ensures V3Answered(CliDelete, tr, reply) <==>
            reply == if !IsAnswered(tr) then Fail else if tr[|tr| - 1].effect.answer.code <= 299 then Continue else Refused
  {}

  lemma ProbeFlat(env: Env, w: World, p: string) returns (probe: bool, kind: V3Kind)
    ensures probe && kind == CliDelete
    ensures var w0 := w.(req := w.req + 1);
            var o := RunSteps(env, p, [ReadRole(true)] + (V3Gates() + V3Tail(probe, kind)), w0, EMPTY_HEAP);
            RunRequest(env, w, Request(p, ProbeV3)) == (o.w, o.reply)
  {
    probe, kind := V3Flat(env, w, Request(p, ProbeV3));
    hide RunRequest, RunSteps;
  }

  /** A V3 request when storage works, whatever OAuth, upstream and clock say. It is admitted exactly when, at the second of
      the limits check, the stored term is not over, a use is left, and the stored keys are complete for V3. Then it fails
      at once, and takes no use, if a new token is needed and denied; else exactly one use is gone if they are counted, and
      it is answered by the status of the last upstream call: relayed by the proxy, for the CLI relayed up to 299 and
      refused above. If it is not admitted it is refused and nothing is done. */
  lemma V3IsExact(env: Env, w: World, r: Request)
    requires r.op.V3? && Preflight(w.live, r.op) == None && (forall t: nat :: env.ok(t))
    requires KeysIn(w.store, r.role).Is? && UsageIn(w.store, r.role).Is?
    ensures var (w', reply) := RunRequest(env, w, r);
            var (p, k, u) := (r.role, KeysIn(w.store, r.role).value, UsageIn(w.store, r.role).value);
            var second := env.clock(w.tick + 2) / 1_000_000_000;
            if && (u.explicitTerm <= 0 || second <= u.explicitTerm)
               && (u.explicitNumUses <= 0 || u.remainingNumUses > 0)
               && k.areaId != "" && k.apiKey != "" && k.keySecret != "" && k.username != "" && k.password != ""
            then
              if && (u.v3Token == "" || env.clock(w.tick + 3) / 1_000_000_000 > u.v3TokenExpiry - 300)
                 && env.oauth(w.tick + 4).Denied?
              then reply == Fail && NothingDone(w, w')
              else
                && Leaves(w', p, k, u, if u.explicitNumUses > 0 then u.remainingNumUses - 1 else u.remainingNumUses)
                && V3Answered(r.op.kind, w'.trace, reply)
            else reply == Refused && NothingDone(w, w')
  {
    hide *;
    var probe, kind := V3Flat(env, w, r);
    var (k, u) := (KeysIn(w.store, r.role).value, UsageIn(w.store, r.role).value);
    InFields(env, k, u, w.tick);
    SameStart(w, w.req + 1);
    V3Chain(env, w.(req := w.req + 1), r.role, probe, kind);
  }

  /** An existence probe: the same gates and answers, and no use is taken. */
  lemma ProbeIsExact(env: Env, w: World, p: string)
    requires (forall t: nat :: env.ok(t)) && KeysIn(w.store, p).Is? && UsageIn(w.store, p).Is?
    ensures var (w', reply) := RunRequest(env, w, Request(p, ProbeV3));
            var (k, u) := (KeysIn(w.store, p).value, UsageIn(w.store, p).value);
            var second := env.clock(w.tick + 2) / 1_000_000_000;
            if && (u.explicitTerm <= 0 || second <= u.explicitTerm)
               && (u.explicitNumUses <= 0 || u.remainingNumUses > 0)
               && k.areaId != "" && k.apiKey != "" && k.keySecret != "" && k.username != "" && k.password != ""
            then
              if && (u.v3Token == "" || env.clock(w.tick + 3) / 1_000_000_000 > u.v3TokenExpiry - 300)
                 && env.oauth(w.tick + 4).Denied?
              then reply == Fail && NothingDone(w, w')
              else
                && Leaves(w', p, k, u, u.remainingNumUses)
                && reply == (if !IsAnswered(w'.trace) then Fail
                             else if w'.trace[|w'.trace| - 1].effect.answer.code <= 299 then Continue else Refused)
            else reply == Refused && NothingDone(w, w')
  {
    hide *;
    var probe, kind := ProbeFlat(env, w, p);
    var (k, u) := (KeysIn(w.store, p).value, UsageIn(w.store, p).value);
    InFields(env, k, u, w.tick);
    var (w', reply) := RunRequest(env, w, Request(p, ProbeV3));
    ProbeAnswered(w'.trace, reply);
    SameStart(w, w.req + 1);
    V3Chain(env, w.(req := w.req + 1), p, probe, kind);
  }

  lemma V3Chain(env: Env, w: World, p: string, probe: bool, kind: V3Kind)
    requires (forall t: nat :: env.ok(t)) && KeysIn(w.store, p).Is? && UsageIn(w.store, p).Is?
    ensures var o := RunSteps(env, p, [ReadRole(true)] + (V3Gates() + V3Tail(probe, kind)), w, EMPTY_HEAP);
            var (k, u) := (KeysIn(w.store, p).value, UsageIn(w.store, p).value);
            if WithinLimits(u, Second(env, w.tick + 2)) && AbleV3(k) then
              if TokenIsOld(u, Second(env, w.tick + 3)) && env.oauth(w.tick + 4).Denied?
              then o.reply == Fail && NothingDone(w, o.w)
              else
                && Leaves(o.w, p, k, u, if u.explicitNumUses > 0 && !probe then u.remainingNumUses - 1 else u.remainingNumUses)
                && V3Answered(kind, o.w.trace, o.reply)
            else o.reply == Refused && NothingDone(w, o.w)
  {
    hide *;
    var (k, u) := (KeysIn(w.store, p).value, UsageIn(w.store, p).value);
    var (second, w1) := (Second(env, w.tick + 2), Checkpoint(p, k, u, w));
    var h := EMPTY_HEAP.(role := Some(Role(p, k, u, None)));
    AtCheckpoint(p, k, u, w);
    LeavesAUse(u, second);
    V3GatesMean(h.role.value, second);
    var h' := RoleIsTaken(env, p, V3Gates(), V3Tail(probe, kind), 0, w);
    if AllPass(V3Gates(), h.role.value, second) {
      RenewAndFetch(env, p, probe, kind, w1, h);
    }
  }

  // ---- reading the token ----

  function TokenGates(): seq<Step> {
    [BlockForceProxy, BlockUsageExceedingLimits, BlockIncapableOf(3)]
  }

  lemma TokenGatesMean(role: Role, second: int)
    ensures AllPass(TokenGates(), role, second) <==>
            WithinLimits(role.usage, second) && AbleV3(role.keys) && !role.keys.forceProxyMode
    ensures (forall s <- TokenGates() :: HasNoEffect(s)) && 1 < |TokenGates()|
    ensures forall i :: 0 <= i < |TokenGates()| ==> (TokenGates()[i].BlockUsageExceedingLimits? <==> i == 1)
  {
    assert TokenGates()[0] in TokenGates() && TokenGates()[1] in TokenGates() && TokenGates()[2] in TokenGates();
  }

  lemma TokenShown(env: Env, p: string, w: World, h: Heap)
    requires h.role.Some?
    ensures var (o, u) := (RunSteps(env, p, [RehydrateToken] + [Render(Credential)], w, h), h.role.value.usage);
            && o.w.store == w.store && o.reply == Respond(Credential)
            && EndsWith(o.w.trace, Performed(w.req, p, TokenReveal(u.v3Token, u.v3TokenExpiry), w.tick))
  {
    var steps := [RehydrateToken] + [Render(Credential)];
    assert steps[1..] == [Render(Credential)];
    Unfold(env, p, steps, w, h);
    var o := Apply(env, p, RehydrateToken, w, h);
    OneStep(env, p, Render(Credential), o.w, o.h);
    Rendered(env, p, Credential, o.w, o.h);
    hide RunSteps, KeysIn, UsageIn;
  }

  lemma RenewAndShow(env: Env, p: string, w: World, h: Heap)
    requires h.role.Some? && UsageIn(w.store, p) == Is(h.role.value.usage) && KeysIn(w.store, p).Is? && env.ok(w.tick + 3)
    ensures var o := RunSteps(env, p, [EnsureToken] + ([RehydrateToken] + [Render(Credential)]), w, h);
            TokenAnswered(env, w.tick, w.req, p, KeysIn(w.store, p).value, h.role.value.usage, o.w, o.reply)
  {
    hide *;
    TokenTailParts();
    TokenStep(env, p, w, h);
    Unfold(env, p, TokenTail()[1..], w, h);
    var o := Apply(env, p, EnsureToken, w, h);
    if o.reply == Continue { TokenShown(env, p, o.w, o.h); }
    TokenAnswerMeans(env, w.tick, w.req, p, KeysIn(w.store, p).value, h.role.value.usage,
                     RunSteps(env, p, TokenTail()[1..], w, h).w, RunSteps(env, p, TokenTail()[1..], w, h).reply);
  }

  lemma TokenAnswerMeans(env: Env, t: nat, req: nat, p: string, k: RoleKeys, u: RoleUsage, w': World, reply: Reply)
    ensures TokenAnswered(env, t, req, p, k, u, w', reply) <==>
            && KeysIn(w'.store, p) == Is(k)
            && if TokenIsOld(u, Second(env, t)) && env.oauth(t + 1).Denied?
               then reply == Fail && UsageIn(w'.store, p) == Is(u)
               else
                 && reply == Respond(Credential) && UsageIn(w'.store, p) == Is(TokenThen(env, t, u))
                 && EndsWith(w'.trace, Performed(
                      req, p, TokenReveal(TokenThen(env, t, u).v3Token, TokenThen(env, t, u).v3TokenExpiry),
                      t + (if TokenIsOld(u, Second(env, t)) then 4 else 1)))
  {}

  function TokenTail(): seq<Step> {
    [DecreaseQuota] + ([EnsureToken] + ([RehydrateToken] + [Render(Credential)]))
  }

  lemma TokenTailParts()
    ensures |TokenTail()| > 0 && TokenTail()[0] == DecreaseQuota
    ensures TokenTail()[1..] == [EnsureToken] + ([RehydrateToken] + [Render(Credential)])
    ensures |TokenTail()[1..]| > 0 && TokenTail()[1..][0] == EnsureToken
    ensures TokenTail()[1..][1..] == [RehydrateToken] + [Render(Credential)]
  {}

  /** What becomes of a token reading that is admitted: `t` is the tick of the renewal check. */
  ghost predicate TokenAnswered(env: Env, t: nat, req: nat, p: string, k: RoleKeys, u: RoleUsage, w': World, reply: Reply) {
    && KeysIn(w'.store, p) == Is(k)
    && if TokenIsOld(u, Second(env, t)) && env.oauth(t + 1).Denied? then reply == Fail && UsageIn(w'.store, p) == Is(u)
       else
         var (u', at) := (TokenThen(env, t, u), t + (if TokenIsOld(u, Second(env, t)) then 4 else 1));
         && reply == Respond(Credential) && UsageIn(w'.store, p) == Is(u')
         && EndsWith(w'.trace, Performed(req, p, TokenReveal(u'.v3Token, u'.v3TokenExpiry), at))
  }

  lemma SpendAndShow(env: Env, p: string, w: World, h: Heap)
    requires h.role.Some? && UsageIn(w.store, p) == Is(h.role.value.usage) && KeysIn(w.store, p).Is?
    requires env.ok(w.tick) && env.ok(w.tick + 3) && env.ok(w.tick + 4)
    requires h.role.value.usage.explicitNumUses > 0 ==> h.role.value.usage.remainingNumUses > 0
    ensures var (o, u) := (RunSteps(env, p, TokenTail(), w, h), h.role.value.usage);
            TokenAnswered(env, w.tick + (if u.explicitNumUses > 0 then 1 else 0), w.req, p, KeysIn(w.store, p).value,
                          OneUseLess(u), o.w, o.reply)
  {
    hide *;
    TokenTailParts();
    QuotaTaken(env, p, w, h);
    Unfold(env, p, TokenTail(), w, h);
    var o := Apply(env, p, DecreaseQuota, w, h);
    RenewAndShow(env, p, o.w, o.h);
  }

  lemma TokenFlat(env: Env, w: World, p: string)
    ensures var o := RunSteps(env, p, [ReadRole(true)] + (TokenGates() + TokenTail()), w.(req := w.req + 1), EMPTY_HEAP);
            RunRequest(env, w, Request(p, ReadToken)) == (o.w, o.reply)
  {
    var (parent, child) := (HandlerOf(ReadToken).parent, HandlerOf(ReadToken).child);
    assert parent + child == [ReadRole(true)] + (TokenGates() + TokenTail());
    assert forall s <- parent :: CarriesOnlyRole(s);
    hide RunSteps, RunHandler, HandlerOf;
    NestedIsFlat(env, p, parent, child, w.(req := w.req + 1));
  }

  lemma TokenChain(env: Env, w: World, p: string)
    requires env.ok(w.tick) && env.ok(w.tick + 1) && env.ok(w.tick + 3) && env.ok(w.tick + 6) && env.ok(w.tick + 7)
    requires KeysIn(w.store, p).Is? && UsageIn(w.store, p).Is?
    ensures var (w', reply) := RunRequest(env, w, Request(p, ReadToken));
            var (k, u) := (KeysIn(w.store, p).value, UsageIn(w.store, p).value);
            if WithinLimits(u, Second(env, w.tick + 2)) && AbleV3(k) && !k.forceProxyMode
            then TokenAnswered(env, w.tick + 3 + (if u.explicitNumUses > 0 then 1 else 0), w.req + 1, p, k, OneUseLess(u),
                               w', reply)
            else reply == Refused && NothingDone(w, w')
  {
    hide *;
    TokenFlat(env, w, p);
    SameStart(w, w.req + 1);
    var w0 := w.(req := w.req + 1);
    var (k, u, second) := (KeysIn(w.store, p).value, UsageIn(w.store, p).value, Second(env, w.tick + 2));
    TokenGatesMean(Role(p, k, u, None), second);
    var h := RoleIsTaken(env, p, TokenGates(), TokenTail(), 1, w0);
    AtCheckpoint(p, k, u, w0);
    LeavesAUse(u, second);
    if AllPass(TokenGates(), h.role.value, second) { SpendAndShow(env, p, Checkpoint(p, k, u, w0), h); }
  }

  /** How a token reading that was admitted is answered, `t` being the tick at which the age of the token is looked at: it
      fails if a new one is needed and denied, else reveals the token in hand or the one just granted, which is stored. */
  ghost predicate TokenRevealed(env: Env, t: nat, req: nat, p: string, u: RoleUsage, left: int, w': World, reply: Reply) {
    var renew := u.v3Token == "" || env.clock(t) / 1_000_000_000 > u.v3TokenExpiry - 300;
    if renew && env.oauth(t + 1).Denied? then reply == Fail && UsageIn(w'.store, p) == Is(u.(remainingNumUses := left))
    else
      var (token, expiry, obtained) :=
        if renew then (env.oauth(t + 1).token,
                       env.clock(t + 1) / 1_000_000_000 + env.oauth(t + 1).expiresIn,
                       env.clock(t + 2) / 1_000_000_000)
        else (u.v3Token, u.v3TokenExpiry, u.v3TokenObtained);
      && reply == Respond(Credential)
      && UsageIn(w'.store, p) == Is(RoleUsage(token, expiry, obtained, u.explicitNumUses, left, u.explicitTerm))
      && EndsWith(w'.trace, Performed(req, p, TokenReveal(token, expiry), t + (if renew then 4 else 1)))
  }

  lemma TokenInFields(env: Env, t: nat, req: nat, p: string, k: RoleKeys, u: RoleUsage, w': World, reply: Reply)
    ensures TokenAnswered(env, t, req, p, k, OneUseLess(u), w', reply) ==>
              && KeysIn(w'.store, p) == Is(k)
              && TokenRevealed(env, t, req, p, u, if u.explicitNumUses > 0 then u.remainingNumUses - 1 else u.remainingNumUses,
                               w', reply)
  {
    hide KeysIn, UsageIn, EndsWith;
  }

  lemma EightSteps(env: Env, t: nat)
    ensures NothingFails(env, t, 8) ==> env.ok(t) && env.ok(t + 1) && env.ok(t + 3) && env.ok(t + 6) && env.ok(t + 7)
  {}

  /** Reading the token, whatever OAuth and the clock say. It is admitted exactly when the stored term is not over, a use
      is left, the stored keys are complete for V3 and the role is not bound to the proxy. Then one use is gone if they
      are counted, even if a new token is needed and denied, which fails; else what is revealed, and then stored, is the
      token in hand or, if that is missing or has fewer than 300 seconds to live, exactly the one OAuth just granted. */
  lemma TokenReadIsExact(env: Env, w: World, p: string)
    requires NothingFails(env, w.tick, 8) && KeysIn(w.store, p).Is? && UsageIn(w.store, p).Is?
    ensures var (w', reply) := RunRequest(env, w, Request(p, ReadToken));
            var (k, u) := (KeysIn(w.store, p).value, UsageIn(w.store, p).value);
            var second := env.clock(w.tick + 2) / 1_000_000_000;
            if && (u.explicitTerm <= 0 || second <= u.explicitTerm)
               && (u.explicitNumUses <= 0 || u.remainingNumUses > 0)
               && k.areaId != "" && k.apiKey != "" && k.keySecret != "" && k.username != "" && k.password != ""
               && !k.forceProxyMode
            then
              && KeysIn(w'.store, p) == Is(k)
              && TokenRevealed(env, w.tick + 3 + (if u.explicitNumUses > 0 then 1 else 0), w.req + 1, p, u,
                               if u.explicitNumUses > 0 then u.remainingNumUses - 1 else u.remainingNumUses, w', reply)
            else reply == Refused && NothingDone(w, w')
  {
    var (k, u) := (KeysIn(w.store, p).value, UsageIn(w.store, p).value);
    var (w', reply) := RunRequest(env, w, Request(p, ReadToken));
    hide *;
    EightSteps(env, w.tick);
    TokenChain(env, w, p);
    InFields(env, k, u, w.tick);
    TokenInFields(env, w.tick + 3 + (if u.explicitNumUses > 0 then 1 else 0), w.req + 1, p, k, u, w', reply);
  }
}
