/** What a request can touch: the records of its own role, and of the trace only what its transformers emit. */
module Frames {
  import opened Records
  import opened Codec
  import opened Engine
  import opened Traces
  import opened Vocabulary

  /** The transformers an event can come from. */
  predicate Emits(s: Step, e: Event) {
    match e
    case Loaded(_, _, _, _) => s == ReadRole(true)
    case Checked(_, _, _) => s.BlockUsageExceedingLimits?
    case Kept(_, _, _) | LostToken(_, _) => s.EnsureToken? || s.FetchV3?
    case SavedUsage(_, _, _, cause) =>
      s == SaveUsage(cause) || (cause == Spend && s.DecreaseQuota?) || (cause.Refresh? && (s.EnsureToken? || s.FetchV3?))
    case SavedKeys(_, _, _, cause) => s == SaveKeys(cause)
    case SavedPk(_, _, _) => s.RetrievePrivateKey?
    case Dropped(_, _, kind) => s == DeleteRecord(kind)
    case Rejected(_, _) => s.FetchV3?
    case Performed(_, _, effect, _) =>
      (effect.V3Call? && s == FetchV3(effect.probe)) || (effect.V2Signature? && s.RetrieveV2Signature?)
      || (effect.V2Call? && s.CallV2?) || (effect.TokenGrant? && s.RetrieveV3Token?)
      || (effect.TokenReveal? && s.RehydrateToken?)
  }

  ghost predicate SameElsewhere(p: string, a: Store, b: Store) {
    forall path: Path :: path.role != p ==> (path in a <==> path in b) && (path in a ==> a[path] == b[path])
  }

  /** From `w` to `w'` only role `p` was touched, within the request of `w`, by transformers among `steps`. */
  ghost predicate Within(env: Env, p: string, steps: seq<Step>, w: World, w': World) {
    && |w.trace| <= |w'.trace| && w'.trace[..|w.trace|] == w.trace
    && (forall i :: |w.trace| <= i < |w'.trace| ==> IsOwn(env, p, w.req, steps, w'.trace[i]))
    && SameElsewhere(p, w.store, w'.store)
    && w'.req == w.req && w'.live == w.live && w'.tick >= w.tick
  }

  ghost predicate IsOwn(env: Env, p: string, req: nat, steps: seq<Step>, e: Event) {
    && e.role == p && e.req == req && (exists s <- steps :: Emits(s, e))
    && (e.LostToken? ==> exists t: nat :: !env.ok(t))
  }

  lemma NothingIsWithin(env: Env, p: string, steps: seq<Step>, w: World, n: nat)
    ensures Within(env, p, steps, w, w.Ticked(n))
  {}

  lemma WithinComposes(env: Env, p: string, before: seq<Step>, after: seq<Step>, all: seq<Step>, w: World, w1: World, w2: World)
    requires Within(env, p, before, w, w1) && Within(env, p, after, w1, w2)
    requires forall s <- before :: s in all
    requires forall s <- after :: s in all
    ensures Within(env, p, all, w, w2)
  {
    hide Emits, SameElsewhere;
    assert w2.trace[..|w.trace|] == w2.trace[..|w1.trace|][..|w.trace|];
    forall i | |w.trace| <= i < |w2.trace| ensures IsOwn(env, p, w.req, all, w2.trace[i]) {
      if i < |w1.trace| {
        assert w2.trace[i] == w2.trace[..|w1.trace|][i] == w1.trace[i];
        assert IsOwn(env, p, w.req, before, w1.trace[i]);
      } else {
        assert IsOwn(env, p, w1.req, after, w2.trace[i]);
      }
    }
    assert SameElsewhere(p, w.store, w2.store) by { SameElsewhereComposes(p, w.store, w1.store, w2.store); }
  }

  lemma SameElsewhereComposes(p: string, a: Store, b: Store, c: Store)
    requires SameElsewhere(p, a, b) && SameElsewhere(p, b, c)
    ensures SameElsewhere(p, a, c)
  {}

  /** One event, and with it at most one record of role `p`. */
  lemma OneEvent(env: Env, p: string, s: Step, w: World, w': World, e: Event)
    requires w'.trace == w.trace + [e] && e.role == p && e.req == w.req && Emits(s, e)
    requires e.LostToken? ==> exists t: nat :: !env.ok(t)
    requires SameElsewhere(p, w.store, w'.store)
    requires w'.req == w.req && w'.live == w.live && w'.tick >= w.tick
    ensures Within(env, p, [s], w, w')
  {
    hide SameElsewhere, Emits;
    assert s in [s];
  }

  lemma TokenIsWithin(env: Env, p: string, s: Step, w: World, h: Heap)
    requires h.role.Some? && (s.EnsureToken? || s.FetchV3?)
    ensures Within(env, p, [s], w, EnsureTokenDo(env, p, w, h).w)
    ensures EnsureTokenDo(env, p, w, h).h.role.Some?
  {
    var o := EnsureTokenDo(env, p, w, h);
    if o.w.trace == w.trace {
      NothingIsWithin(env, p, [s], w, 2);
    } else {
      var e := o.w.trace[|w.trace|];
      assert o.w.trace == w.trace + [e];
      assert e.LostToken? ==> !env.Lands(w.tick + 3) && !env.ok(w.tick + 3);
      OneEvent(env, p, s, w, o.w, e);
    }
  }

  lemma LoggedIsWithin(env: Env, p: string, s: Step, w: World, e: Event)
    requires e.role == p && e.req == w.req && Emits(s, e) && !e.LostToken?
    ensures Within(env, p, [s], w, w.Ticked(1).Log(e)) && Within(env, p, [s], w, w.Log(e))
  {
    OneEvent(env, p, s, w, w.Ticked(1).Log(e), e);
    OneEvent(env, p, s, w, w.Log(e), e);
  }

  lemma {:induction false} FetchIsWithin(env: Env, p: string, probe: bool, w: World, h: Heap, rounds: nat)
    requires h.role.Some?
    ensures Within(env, p, [FetchV3(probe)], w, FetchDo(env, p, probe, w, h, rounds).w)
    decreases rounds
  {
    var s := FetchV3(probe);
    hide Within, EnsureTokenDo;
    if rounds == 0 {
      NothingIsWithin(env, p, [s], w, 0);
      assert w.Ticked(0) == w;
    } else {
      TokenIsWithin(env, p, s, w, h);
      var o := EnsureTokenDo(env, p, w, h);
      if o.reply == Continue {
        var answer := env.upstream(o.w.tick);
        var e := Performed(w.req, p, V3Call(probe, o.h.role.value.usage.v3Token, answer), o.w.tick);
        var w1 := o.w.Ticked(1).Log(e);
        assert o.w.req == w.req by { WithinMeans(env, p, [s], w, o.w); }
        LoggedIsWithin(env, p, s, o.w, e);
        WithinComposes(env, p, [s], [s], [s], w, o.w, w1);
        if answer.Status? && answer.code == 403 && answer.inactiveDeveloper {
          var w2 := w1.Log(Rejected(w.req, p));
          LoggedIsWithin(env, p, s, w1, Rejected(w.req, p));
          WithinComposes(env, p, [s], [s], [s], w, w1, w2);
          var h2 := o.h.WithUsage(o.h.role.value.usage.WithoutToken());
          FetchIsWithin(env, p, probe, w2, h2, rounds - 1);
          WithinComposes(env, p, [s], [s], [s], w, w2, FetchDo(env, p, probe, w2, h2, rounds - 1).w);
        }
      }
    }
  }

  lemma WithinMeans(env: Env, p: string, steps: seq<Step>, w: World, w': World)
    requires Within(env, p, steps, w, w')
    ensures w'.req == w.req && w'.live == w.live && w'.tick >= w.tick && |w.trace| <= |w'.trace|
  {}

  /** Every transformer but the token's refresh and the fetch is silent or adds one event. */
  lemma StepAddsOne(env: Env, p: string, s: Step, w: World, h: Heap)
    requires !s.FetchV3? && !s.EnsureToken?
    ensures var o := Apply(env, p, s, w, h);
            && o.w.req == w.req && o.w.live == w.live && o.w.tick >= w.tick
            && ((o.w.trace == w.trace && o.w.store == w.store)
                || (|o.w.trace| == |w.trace| + 1 && o.w.trace == w.trace + [o.w.trace[|w.trace|]]
                    && var e := o.w.trace[|w.trace|];
                       e.role == p && e.req == w.req && Emits(s, e) && !e.LostToken?))
  {
    hide KeysIn, UsageIn, PkIn, ParseDesired, ExportOf, Updated, Open, Refreshed;
    var o := Apply(env, p, s, w, h);
    if o.w.trace != w.trace {
      assert o.w.trace == w.trace + [o.w.trace[|w.trace|]];
    }
  }

  predicate IsWriter(s: Step) {
    s.SaveKeys? || s.SaveUsage? || s.DecreaseQuota? || s.RetrievePrivateKey? || s.DeleteRecord? || s.EnsureToken? || s.FetchV3?
  }

  lemma OthersWriteNothing(env: Env, p: string, s: Step, w: World, h: Heap)
    requires !IsWriter(s)
    ensures Apply(env, p, s, w, h).w.store == w.store
  {
    hide KeysIn, UsageIn, PkIn, ParseDesired, ExportOf, Updated, Open, DecodeExchange;
  }

  lemma StepStaysHome(env: Env, p: string, s: Step, w: World, h: Heap)
    requires !s.FetchV3? && !s.EnsureToken?
    ensures SameElsewhere(p, w.store, Apply(env, p, s, w, h).w.store)
  {
    if IsWriter(s) {
      hide KeysIn, UsageIn, PkIn, EncodeKeys, EncodeUsage;
    } else {
      OthersWriteNothing(env, p, s, w, h);
      hide Apply;
    }
  }

  lemma StepIsWithin(env: Env, p: string, s: Step, w: World, h: Heap)
    ensures Within(env, p, [s], w, Apply(env, p, s, w, h).w)
  {
    var o := Apply(env, p, s, w, h);
    if s.FetchV3? {
      if h.role.Some? { FetchIsWithin(env, p, s.probe, w, h, FETCH_ROUNDS); }
      else { NothingIsWithin(env, p, [s], w, 0); }
    } else if s.EnsureToken? {
      if h.role.Some? { TokenIsWithin(env, p, s, w, h); }
      else { NothingIsWithin(env, p, [s], w, 0); }
    } else {
      StepAddsOne(env, p, s, w, h);
      StepStaysHome(env, p, s, w, h);
      hide Apply, Emits, SameElsewhere;
      if o.w.trace == w.trace {
        NothingIsWithin(env, p, [s], w, o.w.tick - w.tick);
      } else {
        OneEvent(env, p, s, w, o.w, o.w.trace[|w.trace|]);
      }
    }
  }

  lemma {:induction false} ChainIsWithin(env: Env, p: string, steps: seq<Step>, w: World, h: Heap)
    ensures Within(env, p, steps, w, RunSteps(env, p, steps, w, h).w)
    decreases |steps|
  {
    hide Within, Apply;
    if steps == [] {
      NothingIsWithin(env, p, steps, w, 0);
      assert w.Ticked(0) == w;
    } else {
      var o := Apply(env, p, steps[0], w, h);
      StepIsWithin(env, p, steps[0], w, h);
      if o.reply == Continue {
        ChainIsWithin(env, p, steps[1..], o.w, o.h);
        WithinComposes(env, p, [steps[0]], steps[1..], steps, w, o.w, RunSteps(env, p, steps[1..], o.w, o.h).w);
      } else {
        NothingIsWithin(env, p, [], o.w, 0);
        assert o.w.Ticked(0) == o.w;
        WithinComposes(env, p, [steps[0]], [], steps, w, o.w, o.w);
      }
    }
  }

  lemma {:induction false} ChainsJoin(env: Env, p: string, a: seq<Step>, b: seq<Step>, w: World, h: Heap)
    ensures RunSteps(env, p, a + b, w, h) ==
            (var o := RunSteps(env, p, a, w, h); if o.reply != Continue then o else RunSteps(env, p, b, o.w, o.h))
    decreases |a|
  {
    hide Apply;
    if a == [] { assert a + b == b; }
    else {
      assert (a + b)[0] == a[0] && (a + b)[1..] == a[1..] + b;
      var o := Apply(env, p, a[0], w, h);
      if o.reply == Continue { ChainsJoin(env, p, a[1..], b, o.w, o.h); }
    }
  }

  function StepsOf(handler: Handler): seq<Step> {
    match handler
    case Flat(steps) => steps
    case Nested(parent, child) => parent + child
  }

  lemma HandlerIsWithin(env: Env, p: string, handler: Handler, w: World)
    ensures Within(env, p, StepsOf(handler), w, RunHandler(env, p, handler, w).w)
  {
    hide Within, RunSteps;
    match handler {
      case Flat(steps) => ChainIsWithin(env, p, steps, w, EMPTY_HEAP);
      case Nested(parent, child) =>
        var o := RunSteps(env, p, parent, w, EMPTY_HEAP);
        ChainIsWithin(env, p, parent, w, EMPTY_HEAP);
        if o.reply == Continue {
          var h := EMPTY_HEAP.(role := o.h.role);
          ChainIsWithin(env, p, child, o.w, h);
          WithinComposes(env, p, parent, child, parent + child, w, o.w, RunSteps(env, p, child, o.w, h).w);
        } else {
          NothingIsWithin(env, p, [], o.w, 0);
          assert o.w.Ticked(0) == o.w;
          WithinComposes(env, p, parent, [], parent + child, w, o.w, o.w);
        }
    }
  }

  predicate CarriesOnlyRole(s: Step) {
    s.ReadRole? || s.BlockForceProxy? || s.BlockUsageExceedingLimits? || s.BlockIncapableOf? || s.DecreaseQuota?
    || s.EnsureToken?
  }

  lemma {:induction false} OnlyTheRoleIsCarried(env: Env, p: string, steps: seq<Step>, w: World, h: Heap)
    requires forall s <- steps :: CarriesOnlyRole(s)
    ensures RunSteps(env, p, steps, w, h).h == h.(role := RunSteps(env, p, steps, w, h).h.role)
    decreases |steps|
  {
    if steps != [] {
      var o := Apply(env, p, steps[0], w, h);
      assert CarriesOnlyRole(steps[0]) && o.h == h.(role := o.h.role);
      hide Apply;
      if o.reply == Continue { OnlyTheRoleIsCarried(env, p, steps[1..], o.w, o.h); }
    }
  }

  /** When the parent's transformers put nothing but the role into their heap, nesting makes no difference. */
  lemma NestedIsFlat(env: Env, p: string, parent: seq<Step>, child: seq<Step>, w: World)
    requires forall s <- parent :: CarriesOnlyRole(s)
    ensures var (nested, flat) := (RunHandler(env, p, Nested(parent, child), w), RunSteps(env, p, parent + child, w, EMPTY_HEAP));
            nested.w == flat.w && nested.reply == flat.reply
  {
    hide Apply;
    OnlyTheRoleIsCarried(env, p, parent, w, EMPTY_HEAP);
    ChainsJoin(env, p, parent, child, w, EMPTY_HEAP);
    hide RunSteps;
  }

  lemma FlatRequest(env: Env, w: World, r: Request, steps: seq<Step>)
    requires !r.op.Reconfigure? && Preflight(w.live, r.op) == None && HandlerOf(r.op) == Flat(steps)
    ensures var o := RunSteps(env, r.role, steps, w.(req := w.req + 1), EMPTY_HEAP);
            RunRequest(env, w, r) == (o.w, o.reply)
  {
    hide RunSteps, HandlerOf;
  }

  // ---- whole runs ----

  /** An event that a request of `rs` on its role can have emitted. */
  ghost predicate Stems(env: Env, rs: seq<Request>, e: Event) {
    && (exists r <- rs :: r.role == e.role && !r.op.Reconfigure? && (r.op.Import? ==> r.op.block.Some?)
                          && exists s <- StepsOf(HandlerOf(r.op)) :: Emits(s, e))
    && (e.LostToken? ==> exists t: nat :: !env.ok(t))
  }

  /** A run extends the trace by events of its own requests, and leaves roles it does not name as they were. */
  ghost predicate RunFrame(env: Env, rs: seq<Request>, w: World, w': World) {
    && |w.trace| <= |w'.trace| && w'.trace[..|w.trace|] == w.trace
    && (forall i :: |w.trace| <= i < |w'.trace| ==> w'.trace[i].req > w.req && Stems(env, rs, w'.trace[i]))
    && (forall path: Path :: (forall r <- rs :: r.role != path.role) ==>
          (path in w.store <==> path in w'.store) && (path in w.store ==> w.store[path] == w'.store[path]))
    && ((forall r <- rs :: !r.op.Reconfigure?) ==> w'.live == w.live)
    && w'.tick >= w.tick && w'.req >= w.req
  }

  lemma RequestFrame(env: Env, w: World, r: Request)
    ensures RunFrame(env, [r], w, RunRequest(env, w, r).0)
  {
    var w0, w' := w.(req := w.req + 1), RunRequest(env, w, r).0;
    if r.op.Reconfigure? || Preflight(w.live, r.op) != None {
      hide Stems;
    } else {
      HandlerIsWithin(env, r.role, HandlerOf(r.op), w0);
      hide RunHandler, Emits, HandlerOf;
      assert r in [r];
      forall i | |w.trace| <= i < |w'.trace| ensures w'.trace[i].req > w.req && Stems(env, [r], w'.trace[i]) {
        assert IsOwn(env, r.role, w0.req, StepsOf(HandlerOf(r.op)), w'.trace[i]);
      }
    }
  }

  lemma FramesCompose(env: Env, rs: seq<Request>, w: World, w1: World, w2: World)
    requires rs != [] && RunFrame(env, [rs[0]], w, w1) && RunFrame(env, rs[1..], w1, w2)
    ensures RunFrame(env, rs, w, w2)
  {
    hide Emits, HandlerOf, StepsOf;
    assert w2.trace[..|w.trace|] == w2.trace[..|w1.trace|][..|w.trace|];
    forall i | |w.trace| <= i < |w2.trace| ensures w2.trace[i].req > w.req && Stems(env, rs, w2.trace[i]) {
      if i < |w1.trace| {
        assert w2.trace[i] == w2.trace[..|w1.trace|][i] == w1.trace[i];
        assert Stems(env, [rs[0]], w1.trace[i]);
      } else {
        assert Stems(env, rs[1..], w2.trace[i]);
      }
    }
    hide Stems;
    assert rs[0] in rs && forall r <- rs[1..] :: r in rs;
    forall path: Path | forall r <- rs :: r.role != path.role
      ensures (path in w.store <==> path in w2.store) && (path in w.store ==> w.store[path] == w2.store[path])
    {
      assert forall r <- rs[1..] :: r.role != path.role;
    }
  }

  /** Isolation: a serial run of any requests, failing anywhere, leaves every record of every other role as it was. */
  lemma {:induction false} RunIsFramed(env: Env, w: World, rs: seq<Request>)
    ensures RunFrame(env, rs, w, RunAll(env, w, rs))
    decreases |rs|
  {
    if rs == [] {
    } else {
      var w1 := RunRequest(env, w, rs[0]).0;
      RequestFrame(env, w, rs[0]);
      RunIsFramed(env, w1, rs[1..]);
      hide RunFrame, RunRequest;
      FramesCompose(env, rs, w, w1, RunAll(env, w1, rs[1..]));
    }
  }

  lemma WhoDeletes(op: Op, s: Step)
    requires !op.Reconfigure? && (op.Import? ==> op.block.Some?) && s in StepsOf(HandlerOf(op)) && s.DeleteRecord?
    ensures op.Delete?
  {}

  lemma WhoImports(op: Op, s: Step)
    requires !op.Reconfigure? && (op.Import? ==> op.block.Some?) && s in StepsOf(HandlerOf(op))
    requires s == SaveKeys(FromImport) || s == SaveUsage(FromTerm)
    ensures op.Import?
  {}

  lemma WhoLosesTokens(op: Op, s: Step)
    requires !op.Reconfigure? && (op.Import? ==> op.block.Some?) && s in StepsOf(HandlerOf(op))
    requires s == SaveUsage(Reset) || s == SaveUsage(Forget) || s.FetchV3? || s == DeleteRecord(UsageRecord)
    ensures op.Create? || op.Delete? || op.DeleteToken? || op.V3? || op.ProbeV3?
  {}

  /** Only imports and deletions change limits, keys or the imported mark of an imported role. */
  lemma OnlyImportsAndDeletions(env: Env, rs: seq<Request>, e: Event)
    requires Stems(env, rs, e) && IsImportOrDeletion(e)
    ensures exists r <- rs :: r.role == e.role && (r.op.Import? || r.op.Delete?)
  {
    hide HandlerOf, StepsOf;
    var r :| r in rs && r.role == e.role && !r.op.Reconfigure? && (r.op.Import? ==> r.op.block.Some?)
             && exists s <- StepsOf(HandlerOf(r.op)) :: Emits(s, e);
    var s :| s in StepsOf(HandlerOf(r.op)) && Emits(s, e);
    if s.DeleteRecord? { WhoDeletes(r.op, s); } else { WhoImports(r.op, s); }
  }

  /** Only these requests can lose a token that is still good, if no storage operation fails. */
  lemma OnlyTheseLoseTokens(env: Env, rs: seq<Request>, e: Event)
    requires Stems(env, rs, e) && LosesToken(e) && forall t: nat :: env.ok(t)
    ensures exists r <- rs :: r.role == e.role && (r.op.Create? || r.op.Delete? || r.op.DeleteToken? || r.op.V3? || r.op.ProbeV3?)
  {
    hide HandlerOf, StepsOf;
    var r :| r in rs && r.role == e.role && !r.op.Reconfigure? && (r.op.Import? ==> r.op.block.Some?)
             && exists s <- StepsOf(HandlerOf(r.op)) :: Emits(s, e);
    var s :| s in StepsOf(HandlerOf(r.op)) && Emits(s, e);
    WhoLosesTokens(r.op, s);
  }
}
