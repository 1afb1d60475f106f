/** What holds of every serial run from an empty store, whatever fails on the way. */
module Lifecycle {
  import opened Records
  import opened Engine
  import opened Traces
  import opened Vocabulary
  import opened Safety
  import opened Runs
  import opened Frames

  ghost function Stored<T>(f: Found<T>): Option<T> {
    if f.Is? then Some(f.value) else None
  }

  lemma EveryRunIsSafe(env: Env, live: Live, rs: seq<Request>)
    ensures Inv(env, RunAll(env, Empty(live), rs))
  {
    EmptyIsSafe(env, live);
    RunKeeps(env, Empty(live), rs);
  }

  // ---- storage ----

  /** After any run the records are consistent and all of them still decode. */
  lemma StorageStaysConsistent(env: Env, live: Live, rs: seq<Request>, p: string)
    ensures var store := RunAll(env, Empty(live), rs).store;
            && !KeysIn(store, p).Broken? && !UsageIn(store, p).Broken? && !PkIn(store, p).Broken?
            && RecordsConsistent(Stored(KeysIn(store, p)), Stored(UsageIn(store, p)), Stored(PkIn(store, p)))
  {
    var w := RunAll(env, Empty(live), rs);
    EveryRunIsSafe(env, live, rs);
    RecordsStayConsistent(env, w.trace, p);
    hide ReplayKeys, ReplayUsage, ReplayPk, RunAll, KeysIn, UsageIn, PkIn, Sound, RecordsConsistent;
    assert AgreesOn(w.store, w.trace, p);
  }

  /** And not only after a run: so they are between any two of its storage operations. */
  lemma EveryMomentIsConsistent(env: Env, live: Live, rs: seq<Request>, p: string, i: nat)
    requires i <= |RunAll(env, Empty(live), rs).trace|
    ensures var sofar := RunAll(env, Empty(live), rs).trace[..i];
            RecordsConsistent(ReplayKeys(sofar, p), ReplayUsage(sofar, p), ReplayPk(sofar, p))
  {
    var tr := RunAll(env, Empty(live), rs).trace;
    EveryRunIsSafe(env, live, rs);
    hide RunAll, ReplayKeys, ReplayUsage, ReplayPk, RecordsConsistent;
    if i < |tr| { SoundAt(env, tr, i); } else { assert tr[..i] == tr; }
    RecordsStayConsistent(env, tr[..i], p);
  }

  /** Every handler but creation and deletion starts by requiring the role. */
  predicate RequiresRole(live: Live, op: Op) {
    !op.Create? && !op.Delete? && Preflight(live, op) == None
  }

  lemma StartsByReading(op: Op)
    requires !op.Create? && !op.Delete? && !op.Reconfigure? && (op.Import? ==> op.block.Some?)
    ensures var steps := match HandlerOf(op) case Flat(s) => s case Nested(s, _) => s;
            steps != [] && steps[0] == ReadRole(true)
  {}

  lemma ChainStops(env: Env, p: string, steps: seq<Step>, w: World, h: Heap)
    requires steps != [] && Apply(env, p, steps[0], w, h).reply != Continue
    ensures RunSteps(env, p, steps, w, h) == Apply(env, p, steps[0], w, h)
  {}

  /** A role that lacks its key or its usage record is refused by every handler that requires it, or the handler fails
      if a record cannot be read: nothing is written and nothing happens. */
  lemma HalfWrittenIsRefused(env: Env, w: World, r: Request)
    requires RequiresRole(w.live, r.op) && (!KeysIn(w.store, r.role).Is? || !UsageIn(w.store, r.role).Is?)
    ensures var (w', reply) := RunRequest(env, w, r);
            && w'.store == w.store && w'.trace == w.trace
            && reply ==
               if env.ok(w.tick) && KeysIn(w.store, r.role).Absent? then Refused
               else if env.ok(w.tick) && KeysIn(w.store, r.role).Is? && env.ok(w.tick + 1) && UsageIn(w.store, r.role).Absent?
               then Refused
               else Fail
  {
    var w0 := w.(req := w.req + 1);
    StartsByReading(r.op);
    var o := ReadRoleDo(env, r.role, true, w0, EMPTY_HEAP);
    assert (o.reply == Refused || o.reply == Fail) && o.w.store == w.store && o.w.trace == w.trace;
    assert Apply(env, r.role, ReadRole(true), w0, EMPTY_HEAP) == o;
    hide ReadRoleDo, Apply, KeysIn, UsageIn;
    match HandlerOf(r.op) {
      case Flat(steps) => ChainStops(env, r.role, steps, w0, EMPTY_HEAP);
      case Nested(parent, _) => ChainStops(env, r.role, parent, w0, EMPTY_HEAP);
    }
  }

  /** Whatever state a role is in, half-written or damaged, a deletion that meets no failure clears it. */
  lemma DeletionClears(env: Env, w: World, p: string)
    requires env.ok(w.tick) && env.ok(w.tick + 1) && env.ok(w.tick + 2)
    ensures var (w', reply) := RunRequest(env, w, Request(p, Delete));
            && reply == Continue
            && w'.store == w.store - {RolePath(p, UsageRecord), RolePath(p, PkRecord), RolePath(p, KeyRecord)}
  {
    FlatRequest(env, w, Request(p, Delete), DELETION);
    hide RunRequest, HandlerOf, RunSteps;
    DeletionChain(env, p, w.(req := w.req + 1));
    ThreeFromStore(w.store, RolePath(p, UsageRecord), RolePath(p, PkRecord), RolePath(p, KeyRecord));
  }

  const DELETION := [DeleteRecord(UsageRecord), DeleteRecord(PkRecord), DeleteRecord(KeyRecord)]

  lemma ThreeFromStore(store: Store, a: Path, b: Path, c: Path)
    ensures store - {a} - {b} - {c} == store - {a, b, c}
  {}

  lemma DeletionChain(env: Env, p: string, w: World)
    requires env.ok(w.tick) && env.ok(w.tick + 1) && env.ok(w.tick + 2)
    ensures var o := RunSteps(env, p, DELETION, w, EMPTY_HEAP);
            && o.reply == Continue
            && o.w.store == w.store - {RolePath(p, UsageRecord)} - {RolePath(p, PkRecord)} - {RolePath(p, KeyRecord)}
  {
    hide RunSteps, Apply;
    var w1 := w.Ticked(1).Without(p, UsageRecord);
    var w2 := w1.Ticked(1).Without(p, PkRecord);
    assert DELETION == [DeleteRecord(UsageRecord)] + ([DeleteRecord(PkRecord)] + ([DeleteRecord(KeyRecord)] + []));
    OneDeleted(env, p, UsageRecord, [DeleteRecord(PkRecord)] + ([DeleteRecord(KeyRecord)] + []), w);
    OneDeleted(env, p, PkRecord, [DeleteRecord(KeyRecord)] + [], w1);
    OneDeleted(env, p, KeyRecord, [], w2);
    NoSteps(env, p, w2.Ticked(1).Without(p, KeyRecord));
  }

  lemma OneDeleted(env: Env, p: string, kind: Kind, rest: seq<Step>, w: World)
    requires env.ok(w.tick)
    ensures RunSteps(env, p, [DeleteRecord(kind)] + rest, w, EMPTY_HEAP) ==
            RunSteps(env, p, rest, w.Ticked(1).Without(p, kind), EMPTY_HEAP)
  {
    assert ([DeleteRecord(kind)] + rest)[1..] == rest;
    assert Apply(env, p, DeleteRecord(kind), w, EMPTY_HEAP) == Go(w.Ticked(1).Without(p, kind), EMPTY_HEAP);
    hide Apply;
  }

  lemma NoSteps(env: Env, p: string, w: World)
    ensures RunSteps(env, p, [], w, EMPTY_HEAP) == Go(w, EMPTY_HEAP)
  {}

  // ---- quota ----

  /** The ledger of every run: units spent, still stored, and forfeited are together the units imported; and at most
      as many requests had an effect under a quota as units were spent. */
  lemma QuotaIsConserved(env: Env, live: Live, rs: seq<Request>, p: string)
    ensures var w := RunAll(env, Empty(live), rs);
            var u := UsageIn(w.store, p);
            var left := if u.Is? && u.value.explicitNumUses > 0 && u.value.remainingNumUses > 0
                        then u.value.remainingNumUses else 0;
            && Spent(w.trace, p) + left + ForfeitedUses(w.trace, p) == ImportedUses(w.trace, p)
            && |BoundRequests(w.trace, p)| <= Spent(w.trace, p) <= ImportedUses(w.trace, p)
  {
    var w := RunAll(env, Empty(live), rs);
    EveryRunIsSafe(env, live, rs);
    LedgerBalances(env, w.trace, p);
    BoundRequestsPay(env, w.trace, p);
    hide RunAll, ReplayKeys, ReplayUsage, ReplayPk, Sound, UsageIn, KeysIn, PkIn;
    assert AgreesOn(w.store, w.trace, p);
  }

  // ---- gates ----

  /** In every run, each effect was admitted, was about the stored token if about one, and a revealed token was
      acquired in its request or seen there with the renewal margin left. */
  lemma EveryEffectIsGated(env: Env, live: Live, rs: seq<Request>, i: nat)
    requires i < |RunAll(env, Empty(live), rs).trace|
    ensures var (tr, e) := (RunAll(env, Empty(live), rs).trace[..i], RunAll(env, Empty(live), rs).trace[i]);
            e.Performed? ==>
              && Admitted(env, tr, e.req, e.role, e.effect)
              && ReplayUsage(tr, e.role).Some?
              && (e.effect.V3Call? || e.effect.TokenReveal? ==> e.effect.token == ReplayUsage(tr, e.role).value.v3Token)
              && (e.effect.TokenReveal? ==> FreshToken(env, tr, e.req, e.role, e.effect.expiry))
  {
    EveryRunIsSafe(env, live, rs);
    SoundAt(env, RunAll(env, Empty(live), rs).trace, i);
    hide RunAll, Admitted, ReplayUsage, ReplayKeys, ReplayPk, Sound, FreshToken;
  }

  /** Every token used for a V3 call or revealed, in every run, is exactly the token of the OAuth answer that the role's
      latest renewal got, with nothing having replaced or forgotten it in between; a revealed expiry is the second of
      that answer plus the lifetime it gave. */
  lemma TokensAreTheGrantedOnes(env: Env, live: Live, rs: seq<Request>, i: nat) returns (j: nat, at: nat)
    requires i < |RunAll(env, Empty(live), rs).trace|
    requires var e := RunAll(env, Empty(live), rs).trace[i];
             e.Performed? && (e.effect.V3Call? || e.effect.TokenReveal?)
    ensures var tr := RunAll(env, Empty(live), rs).trace;
            var (p, effect) := (tr[i].role, tr[i].effect);
            && j < i && tr[j].SavedUsage? && tr[j].role == p && tr[j].cause == Refresh(at)
            && (forall k :: j < k < i ==> !ChangesToken(tr[k], p))
            && env.oauth(at + 1).Granted? && effect.token == env.oauth(at + 1).token
            && (effect.TokenReveal? ==>
                  effect.expiry == env.clock(at + 1) / 1_000_000_000 + env.oauth(at + 1).expiresIn)
  {
    EveryRunIsSafe(env, live, rs);
    hide RunAll, ChangesToken, Sound;
    j, at := TokenOfEffect(env, RunAll(env, Empty(live), rs).trace, i);
  }

  /** Every renewal, in every run, stores the token of the answer it got, the second of the answer plus its lifetime as
      expiry and the second it was stored as time obtained, leaves the limits alone, and happens only when no token is
      stored, fewer than 300 seconds of its life are left, or the upstream rejected it in this request. */
  lemma RenewalsStoreTheAnswer(env: Env, live: Live, rs: seq<Request>, i: nat)
    requires i < |RunAll(env, Empty(live), rs).trace|
    ensures var (tr, e) := (RunAll(env, Empty(live), rs).trace[..i], RunAll(env, Empty(live), rs).trace[i]);
            e.SavedUsage? && e.cause.Refresh? ==>
              && ReplayUsage(tr, e.role).Some? && env.oauth(e.cause.at + 1).Granted?
              && var (before, answer) := (ReplayUsage(tr, e.role).value, env.oauth(e.cause.at + 1));
                 && e.usage == RoleUsage(answer.token,
                                         env.clock(e.cause.at + 1) / 1_000_000_000 + answer.expiresIn,
                                         env.clock(e.cause.at + 2) / 1_000_000_000,
                                         before.explicitNumUses, before.remainingNumUses, before.explicitTerm)
                 && (|| before.v3Token == ""
                     || env.clock(e.cause.at) / 1_000_000_000 > before.v3TokenExpiry - 300
                     || Rejected(e.req, e.role) in tr)
  {
    EveryRunIsSafe(env, live, rs);
    SoundAt(env, RunAll(env, Empty(live), rs).trace, i);
    hide RunAll, Admitted, ReplayUsage, ReplayKeys, ReplayPk, Sound, FreshToken, TokenSource;
  }

  /** Every role read in a run was the role last saved, a QPS of zero having become the default. */
  lemma ReadsReturnTheLastSave(env: Env, live: Live, rs: seq<Request>, i: nat)
    requires i < |RunAll(env, Empty(live), rs).trace|
    ensures var (tr, e) := (RunAll(env, Empty(live), rs).trace[..i], RunAll(env, Empty(live), rs).trace[i]);
            e.Loaded? ==> ReplayKeys(tr, e.role) == Some(e.keys) && ReplayUsage(tr, e.role) == Some(e.usage)
  {
    EveryRunIsSafe(env, live, rs);
    SoundAt(env, RunAll(env, Empty(live), rs).trace, i);
    hide RunAll, ReplayUsage, ReplayKeys, ReplayPk, Sound;
  }

  // ---- limits that stick ----

  ghost predicate NoImportOrDelete(rs: seq<Request>, p: string) {
    forall r <- rs :: r.role == p ==> !r.op.Import? && !r.op.Delete?
  }

  lemma Extension(env: Env, w: World, rs: seq<Request>) returns (ext: Trace)
    ensures RunAll(env, w, rs).trace == w.trace + ext
    ensures forall e <- ext :: e.req > w.req && Stems(env, rs, e)
  {
    var w' := RunAll(env, w, rs);
    RunIsFramed(env, w, rs);
    hide RunAll, Stems;
    ext := w'.trace[|w.trace|..];
    forall e | e in ext ensures e.req > w.req && Stems(env, rs, e) {
      var i :| 0 <= i < |ext| && ext[i] == e;
      assert w'.trace[|w.trace| + i] == e;
    }
  }

  /** Through any run without another import or a deletion of it, an imported role keeps its keys, its term and the
      size of its quota, and its remaining uses do not grow. */
  lemma LimitsOutliveRuns(env: Env, w: World, rs: seq<Request>, p: string)
    requires Inv(env, w) && NoImportOrDelete(rs, p)
    requires KeysIn(w.store, p).Is? && KeysIn(w.store, p).value.imported && UsageIn(w.store, p).Is?
    ensures var w' := RunAll(env, w, rs);
            && KeysIn(w'.store, p) == KeysIn(w.store, p)
            && UsageIn(w'.store, p).Is? && SameLimits(UsageIn(w'.store, p).value, UsageIn(w.store, p).value)
            && UsageIn(w'.store, p).value.remainingNumUses <= UsageIn(w.store, p).value.remainingNumUses
  {
    var w' := RunAll(env, w, rs);
    RunKeeps(env, w, rs);
    var ext := Extension(env, w, rs);
    forall e | e in ext && e.role == p ensures !IsImportOrDeletion(e) {
      if IsImportOrDeletion(e) { OnlyImportsAndDeletions(env, rs, e); }
    }
    hide RunAll, Stems, Sound, ReplayKeys, ReplayUsage, ReplayPk, KeysIn, UsageIn, PkIn, SameLimits;
    assert AgreesOn(w.store, w.trace, p) && AgreesOn(w'.store, w'.trace, p);
    LimitsStick(env, w.trace, ext, p);
  }

  /** Now the stored term is over, or the stored quota has no use left. */
  ghost predicate Barred(env: Env, w: World, p: string) {
    && KeysIn(w.store, p).Is? && UsageIn(w.store, p).Is?
    && !WithinLimits(UsageIn(w.store, p).value, Second(env, w.tick))
  }

  predicate IsGated(op: Op) {
    op.Grant? || op.ReadToken? || op.CliV2? || op.ProxyV2? || op.V3? || op.ProbeV3?
  }

  lemma ClockGoesOn(env: Env, s: nat, t: nat)
    requires env.Monotone() && s <= t
    ensures Second(env, s) <= Second(env, t)
  {
    assert env.clock(s) <= env.clock(t);
  }

  lemma BarredStays(env: Env, w: World, rs: seq<Request>, p: string)
    requires Inv(env, w) && env.Monotone() && NoImportOrDelete(rs, p) && Barred(env, w, p)
    ensures Barred(env, RunAll(env, w, rs), p)
  {
    RecordsStayConsistent(env, w.trace, p);
    assert KeysIn(w.store, p).value.imported by {
      hide ReplayKeys, ReplayUsage, ReplayPk, Sound, KeysIn, UsageIn, PkIn;
      assert AgreesOn(w.store, w.trace, p);
    }
    LimitsOutliveRuns(env, w, rs, p);
    RunIsFramed(env, w, rs);
    hide RunAll, KeysIn, UsageIn, Inv;
    ClockGoesOn(env, w.tick, RunAll(env, w, rs).tick);
  }

  predicate IsPureGate(s: Step) {
    s.BlockForceProxy? || s.BlockIncapableOf?
  }

  /** Gates that only look do not help a role past the limits check. */
  lemma {:induction false} GatesThenLimits(env: Env, p: string, steps: seq<Step>, n: nat, w: World, h: Heap)
    requires n < |steps| && steps[n] == BlockUsageExceedingLimits && forall i :: 0 <= i < n ==> IsPureGate(steps[i])
    requires h.role.Some? && env.Monotone()
    requires !WithinLimits(h.role.value.usage, Second(env, w.tick))
    ensures var o := RunSteps(env, p, steps, w, h);
            o.reply == Refused && o.w.store == w.store && o.w.trace == w.trace
  {
    if n > 0 {
      var o := Apply(env, p, steps[0], w, h);
      assert IsPureGate(steps[0]) && o.w == w && o.h == h && (o.reply == Continue || o.reply == Refused);
      hide Apply;
      if o.reply == Continue {
        GatesThenLimits(env, p, steps[1..], n - 1, w, h);
      }
    }
  }

  ghost function GatesOf(op: Op): seq<Step>
    requires IsGated(op)
  {
    match HandlerOf(op)
    case Flat(steps) => steps
    case Nested(parent, _) => parent
  }

  lemma GatedShape(op: Op) returns (n: nat)
    requires IsGated(op)
    ensures var steps := GatesOf(op);
            && |steps| > n + 1 && steps[0] == ReadRole(true) && steps[n + 1] == BlockUsageExceedingLimits
            && (forall i :: 1 <= i < n + 1 ==> IsPureGate(steps[i]))
  {
    n := if op.ReadToken? || op.Grant? || op.ProxyV2? then 1 else 0;
  }

  /** Nothing was written, and nothing happened but perhaps a read of the role. */
  ghost predicate OnlyRead(w: World, w': World) {
    && w'.store == w.store
    && (w'.trace == w.trace
        || (|w'.trace| == |w.trace| + 1 && w'.trace[..|w.trace|] == w.trace && w'.trace[|w.trace|].Loaded?))
  }

  lemma BarredChain(env: Env, w: World, p: string, steps: seq<Step>, n: nat)
    requires env.Monotone() && Barred(env, w, p)
    requires |steps| > n + 1 && steps[0] == ReadRole(true) && steps[n + 1] == BlockUsageExceedingLimits
    requires forall i :: 1 <= i < n + 1 ==> IsPureGate(steps[i])
    ensures var o := RunSteps(env, p, steps, w, EMPTY_HEAP);
            (o.reply == Refused || o.reply == Fail) && OnlyRead(w, o.w)
  {
    var o := ReadRoleDo(env, p, true, w, EMPTY_HEAP);
    assert Apply(env, p, steps[0], w, EMPTY_HEAP) == o;
    if o.reply == Continue {
      assert o.w.trace[..|o.w.trace| - 1] == w.trace;
      ClockGoesOn(env, w.tick, o.w.tick);
      assert o.h.role.value.usage == UsageIn(w.store, p).value;
      hide ReadRoleDo, Apply, KeysIn, UsageIn;
      GatesThenLimits(env, p, steps[1..], n, o.w, o.h);
    }
  }

  /** Once a role is expired or depleted, then through any run without a new import or a deletion of it every gated
      request is turned away: it writes nothing, and the trace shows a read at most. */
  lemma OnceRefusedAlwaysRefused(env: Env, w: World, rs: seq<Request>, r: Request)
    requires Inv(env, w) && env.Monotone() && NoImportOrDelete(rs, r.role) && Barred(env, w, r.role) && IsGated(r.op)
    ensures var w1 := RunAll(env, w, rs);
            var (w2, reply) := RunRequest(env, w1, r);
            (reply == Refused || reply == Fail) && OnlyRead(w1, w2)
  {
    BarredStays(env, w, rs, r.role);
    hide RunAll, RunRequest, Barred;
    BarredRequest(env, RunAll(env, w, rs), r);
  }

  /** A gated handler whose gates do not let it go on has answered by then. */
  lemma GatesAnswer(env: Env, w: World, r: Request)
    requires IsGated(r.op) && Preflight(w.live, r.op) == None
    requires RunSteps(env, r.role, GatesOf(r.op), w.(req := w.req + 1), EMPTY_HEAP).reply != Continue
    ensures var o := RunSteps(env, r.role, GatesOf(r.op), w.(req := w.req + 1), EMPTY_HEAP);
            RunRequest(env, w, r) == (o.w, o.reply)
  {
    hide RunSteps, HandlerOf, Preflight;
  }

  lemma BarredRequest(env: Env, w: World, r: Request)
    requires env.Monotone() && Barred(env, w, r.role) && IsGated(r.op)
    ensures var (w', reply) := RunRequest(env, w, r);
            (reply == Refused || reply == Fail) && OnlyRead(w, w')
  {
    hide RunSteps, HandlerOf, RunHandler, GatesOf, KeysIn, UsageIn;
    if Preflight(w.live, r.op) == None {
      var n := GatedShape(r.op);
      BarredChain(env, w.(req := w.req + 1), r.role, GatesOf(r.op), n);
      GatesAnswer(env, w, r);
      hide RunRequest, Preflight;
    }
  }

  // ---- tokens ----

  predicate KeepsToken(op: Op) {
    !op.Create? && !op.Delete? && !op.DeleteToken? && !op.V3? && !op.ProbeV3?
  }

  /** With nothing failing and no request that discards tokens, `n` acquisitions of tokens that live `life` seconds
      take at least `(n - 1) * (life - 299)` seconds. */
  lemma AcquisitionsTakeTime(env: Env, w: World, rs: seq<Request>, p: string, life: int) returns (ext: Trace)
    requires Inv(env, w) && env.Monotone() && TokensLive(env, life)
    requires (forall t: nat :: env.ok(t)) && forall r <- rs :: r.role == p ==> KeepsToken(r.op)
    ensures RunAll(env, w, rs).trace == w.trace + ext
    ensures var a := Acquisitions(env, ext, p);
            |a| > 0 ==> a[|a| - 1] - a[0] >= (|a| - 1) * (life - 299)
  {
    RunKeeps(env, w, rs);
    ext := Extension(env, w, rs);
    hide RunAll;
    forall e | e in ext && e.role == p ensures !LosesToken(e) && Rejected(e.req, p) !in w.trace {
      if LosesToken(e) { OnlyTheseLoseTokens(env, rs, e); }
    }
    AcquisitionsAreSpaced(env, w.trace, ext, p, life);
    hide Acquisitions, Spaced, ReplayUsage, Inv;
    var a := Acquisitions(env, ext, p);
    if |a| > 0 { SpacingAddsUp(a, life - 299); }
  }
}
