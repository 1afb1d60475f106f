/** From one transformer to whole runs: chains, handlers, requests and serial runs of any length. */
module Runs {
  import opened Records
  import opened Engine
  import opened Traces
  import opened Vocabulary
  import opened Safety

  // ---- chains ----

  /** The states `fs` are those a chain goes through. */
  ghost predicate Walk(fs: seq<Facts>, steps: seq<Step>) {
    |fs| == |steps| + 1 && forall i :: 0 <= i < |steps| ==> Next(fs[i], steps[i]) == Some(fs[i + 1])
  }

  lemma {:induction false} ChainKeeps(env: Env, fs: seq<Facts>, x: Witness, p: string, steps: seq<Step>, w: World, h: Heap)
    returns (x': Witness)
    requires Inv(env, w) && Walk(fs, steps) && Holds(env, fs[0], x, p, w, h)
    ensures var o := RunSteps(env, p, steps, w, h);
            Inv(env, o.w) && o.w.req == w.req && (o.reply == Continue ==> Holds(env, fs[|steps|], x', p, o.w, o.h))
    decreases |steps|
  {
    hide Inv, Holds, Next, Apply;
    x' := x;
    if steps != [] {
      assert Next(fs[0], steps[0]) == Some(fs[1]);
      x' := ApplyKeeps(env, fs[0], x, p, steps[0], w, h);
      var o := Apply(env, p, steps[0], w, h);
      if o.reply == Continue {
        assert Walk(fs[1..], steps[1..]);
        x' := ChainKeeps(env, fs[1..], x', p, steps[1..], o.w, o.h);
      }
    }
  }

  /** Every handler chain is a walk from the start, and a nested handler's child chain goes on where its parent ends. */
  ghost predicate Disciplined(handler: Handler, fs: seq<Facts>, gs: seq<Facts>) {
    fs != [] && fs[0] == START &&
    match handler
    case Flat(steps) => Walk(fs, steps)
    case Nested(parent, child) => Walk(fs, parent) && Walk(gs, child) && gs[0] == fs[|parent|]
  }

  const READ: Facts := {NotPaid, HasRole, Keyed, KeysAgree, UsageAgree, WasLoaded}

  lemma CreateIsDisciplined(u: KeyUpdate) returns (fs: seq<Facts>)
    ensures Disciplined(HandlerOf(Create(u)), fs, [])
  {
    var f1: Facts := {NotPaid, HasRole, AsRead};
    var f3: Facts := {NotPaid, HasRole, Home};
    var f4: Facts := {NotPaid, HasRole, Home, Keyed};
    fs := [START, f1, f1 + {Home}, f3, f4, f4 + {Unlimited}, {NotPaid, HasRole}];
    assert (f1 + {Home}) * {HasRole, Home, Keyed, NotPaid} == f3;
    assert f3 * {HasRole, Home, NotPaid} + {Keyed} == f4;
    assert f4 * {HasRole, Home, Keyed, NotPaid} + {Unlimited} == f4 + {Unlimited};
    assert (f4 + {Unlimited}) * {HasRole, NotPaid} == {NotPaid, HasRole};
  }

  lemma ImportIsDisciplined(c: Sealed) returns (fs: seq<Facts>)
    ensures Disciplined(HandlerOf(Import(Some(c))), fs, [])
  {
    var f3: Facts := {NotPaid, HasRole, Incoming};
    var f4: Facts := {NotPaid, HasRole, Incoming, Stamped};
    fs := [START, READ, READ, f3, f4, {NotPaid, HasRole}];
    assert READ * {HasRole, NotPaid} + {Incoming} == f3;
    assert f3 * {HasRole, Incoming, NotPaid} + {Stamped} == f4;
    assert f4 * {HasRole, NotPaid} == {NotPaid, HasRole};
  }

  lemma KeepersAreDisciplined(op: Op) returns (fs: seq<Facts>)
    requires op.ReadData? || op.Delete? || op.Export? || op.ReadPem? || op.DeleteToken?
    ensures Disciplined(HandlerOf(op), fs, [])
  {
    match op {
      case Delete => fs := [START, START + {NoUsage}, START + {NoUsage} + {NoPk}, START + {NoUsage} + {NoPk}];
      case DeleteToken =>
        var f2: Facts := {NotPaid, HasRole, Forgotten};
        assert READ * {HasRole, NotPaid} + {Forgotten} == f2;
        assert f2 * {HasRole, NotPaid} == {NotPaid, HasRole};
        fs := [START, READ, f2, {NotPaid, HasRole}];
      case ReadData => fs := [START, READ, READ];
      case ReadPem => fs := [START, READ, READ, READ];
      case _ => fs := [START, READ, READ, READ, READ];
    }
  }

  lemma UpdateIsDisciplined(op: Op) returns (fs: seq<Facts>)
    requires op.Update?
    ensures Disciplined(HandlerOf(op), fs, [])
  {
    var f3: Facts := {NotPaid, HasRole, Home, Keyed};
    assert (READ + {Home}) * {HasRole, Home, Keyed, NotPaid} == f3;
    assert f3 * {HasRole, Home, NotPaid} + {Keyed} == f3;
    fs := [START, READ, READ + {Home}, f3, f3];
  }

  lemma GrantIsDisciplined(api: Option<int>) returns (fs: seq<Facts>, gs: seq<Facts>)
    requires api.Some? ==> 2 <= api.value <= 3
    ensures Disciplined(HandlerOf(Grant(api)), fs, gs)
  {
    var f2 := READ + {MayHandOut};
    var f3 := f2 + {WasChecked};
    var f4 := f3 + (if Or(api, 3) == 2 then {V2Able} else {V3Able});
    var f5 := PaidUp(f4);
    assert CanCall(f4) && {WasChecked, MayHandOut, HasPaid, UsageAgree} <= f5;
    hide PaidUp;
    fs, gs := [START, READ, f2, f3, f4, f5], [f5, f5, f5];
  }

  lemma ReadTokenIsDisciplined() returns (fs: seq<Facts>, gs: seq<Facts>)
    ensures Disciplined(HandlerOf(ReadToken), fs, gs)
  {
    var f2 := READ + {MayHandOut};
    var f3 := f2 + {WasChecked};
    var f4 := f3 + {V3Able};
    var f5 := PaidUp(f4);
    var f6 := Recent(f5);
    assert CanCall(f4) && CanCall(f5) && {WasChecked, V3Able, MayHandOut, HasPaid, HasFreshToken, UsageAgree} <= f6;
    hide PaidUp, Recent;
    fs, gs := [START, READ, f2, f3, f4, f5, f6], [f6, f6, f6];
  }

  lemma CliV2IsDisciplined(op: Op) returns (fs: seq<Facts>)
    requires op.CliV2?
    ensures Disciplined(HandlerOf(op), fs, [])
  {
    var f2 := READ + {WasChecked};
    var f3 := f2 + {V2Able};
    var f4 := PaidUp(f3);
    assert CanCall(f3) && {WasChecked, V2Able, HasPaid, UsageAgree} <= f4;
    hide PaidUp;
    fs := [START, READ, f2, f3, f4, f4, f4];
  }

  lemma ProxyV2IsDisciplined(op: Op) returns (fs: seq<Facts>, gs: seq<Facts>)
    requires op.ProxyV2?
    ensures Disciplined(HandlerOf(op), fs, gs)
  {
    var f2 := READ + {V2Able};
    var f3 := f2 + {WasChecked};
    var f4 := PaidUp(f3);
    assert CanCall(f3) && {WasChecked, V2Able, HasPaid, UsageAgree} <= f4;
    hide PaidUp;
    fs, gs := [START, READ, f2, f3, f4], [f4, f4, f4];
  }

  lemma ProbeIsDisciplined() returns (fs: seq<Facts>, gs: seq<Facts>)
    ensures Disciplined(HandlerOf(ProbeV3), fs, gs)
  {
    var f2 := READ + {WasChecked};
    var f3 := f2 + {V3Able};
    var f4 := Recent(f3);
    var f5 := NotRecent(f4);
    assert CanCall(f3) && CanCall(f4) && {WasChecked, V3Able} <= f4 && HasRole in f5;
    hide Recent, NotRecent;
    fs, gs := [START, READ, f2, f3], [f3, f4, f5, f5];
  }

  lemma V3IsDisciplined(op: Op) returns (fs: seq<Facts>)
    requires op.V3?
    ensures Disciplined(HandlerOf(op), fs, [])
  {
    var f2 := READ + {WasChecked};
    var f3 := f2 + {V3Able};
    var f4 := Recent(f3);
    var f5 := PaidUp(f4);
    var f6 := NotRecent(f5);
    assert CanCall(f3) && CanCall(f4) && {WasChecked, NotPaid} <= f4;
    assert CanCall(f5) && {WasChecked, V3Able, HasPaid} <= f5 && HasRole in f6;
    hide Recent, NotRecent, PaidUp, CanCall;
    var base := [START, READ, f2, f3, f4, f5];
    assert Walk(base, V3_BASE);
    fs := base + if op.kind.Proxied? || op.kind.CliDelete? then [f6, f6] else [f6, f6, f6];
  }

  lemma Discipline(op: Op) returns (fs: seq<Facts>, gs: seq<Facts>)
    requires !op.Reconfigure? && (op.Import? ==> op.block.Some?) && (op.Grant? && op.api.Some? ==> 2 <= op.api.value <= 3)
    ensures Disciplined(HandlerOf(op), fs, gs)
  {
    hide *;
    gs := [];
    match op {
      case Create(u) => fs := CreateIsDisciplined(u);
      case Import(Some(c)) => fs := ImportIsDisciplined(c);
      case Grant(api) => fs, gs := GrantIsDisciplined(api);
      case ReadToken => fs, gs := ReadTokenIsDisciplined();
      case CliV2(_) => fs := CliV2IsDisciplined(op);
      case ProxyV2(_) => fs, gs := ProxyV2IsDisciplined(op);
      case V3(_) => fs := V3IsDisciplined(op);
      case ProbeV3 => fs, gs := ProbeIsDisciplined();
      case Update(_) => fs := UpdateIsDisciplined(op);
      case _ => fs := KeepersAreDisciplined(op);
    }
  }

  // ---- requests and runs ----

  /** Between requests: the invariant, with every event of an earlier or the present request. */
  lemma RequestKeeps(env: Env, w: World, r: Request)
    requires Inv(env, w)
    ensures Inv(env, RunRequest(env, w, r).0)
  {
    var w0 := w.(req := w.req + 1);
    assert Inv(env, w0) && (forall e <- w0.trace :: !IsSpend(e, w0.req)) by {
      hide ReplayKeys, ReplayUsage, ReplayPk, TokenSource, Sound;
      forall p ensures AgreesOn(w0.store, w0.trace, p) { assert AgreesOn(w.store, w.trace, p); }
    }
    if r.op.Reconfigure? {
      hide ReplayKeys, ReplayUsage, ReplayPk, TokenSource, Sound;
      var w' := w0.(live := r.op.live);
      forall p ensures AgreesOn(w'.store, w'.trace, p) { assert AgreesOn(w.store, w.trace, p); }
    } else if Preflight(w.live, r.op) == None {
      var fs, gs := Discipline(r.op);
      HandlerKeeps(env, r.role, HandlerOf(r.op), fs, gs, w0);
      hide Inv;
    }
  }

  lemma StartHolds(env: Env, x: Witness, p: string, w: World)
    requires forall e <- w.trace :: !IsSpend(e, w.req)
    ensures Holds(env, START, x, p, w, EMPTY_HEAP)
  {}

  /** The child's heap holds the role the parent established, and no fact is about anything else in a heap. */
  lemma HandlerKeeps(env: Env, p: string, handler: Handler, fs: seq<Facts>, gs: seq<Facts>, w: World)
    requires Inv(env, w) && Disciplined(handler, fs, gs) && (forall e <- w.trace :: !IsSpend(e, w.req))
    ensures Inv(env, RunHandler(env, p, handler, w).w)
  {
    var x := Witness(ZERO_USAGE, 0, LostToken(0, p), LostToken(0, p));
    StartHolds(env, x, p, w);
    hide Inv, Holds;
    match handler {
      case Flat(steps) => x := ChainKeeps(env, fs, x, p, steps, w, EMPTY_HEAP);
      case Nested(parent, child) =>
        x := ChainKeeps(env, fs, x, p, parent, w, EMPTY_HEAP);
        var o := RunSteps(env, p, parent, w, EMPTY_HEAP);
        if o.reply == Continue {
          TransientIsNoFact(env, gs[0], x, p, o.w, o.h, EMPTY_HEAP.(role := o.h.role));
          x := ChainKeeps(env, gs, x, p, child, o.w, EMPTY_HEAP.(role := o.h.role));
        }
    }
  }

  lemma {:induction false} RunKeeps(env: Env, w: World, rs: seq<Request>)
    requires Inv(env, w)
    ensures Inv(env, RunAll(env, w, rs))
    decreases |rs|
  {
    hide Inv, RunRequest;
    if rs != [] {
      RequestKeeps(env, w, rs[0]);
      RunKeeps(env, RunRequest(env, w, rs[0]).0, rs[1..]);
    }
  }

  lemma EmptyIsSafe(env: Env, live: Live)
    ensures Inv(env, Empty(live))
  {}
}
