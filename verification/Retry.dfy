/** The fetch that retries after a token was lost upstream. */
module Retry {
  import opened Records
  import opened Codec
  import opened Engine
  import opened Vocabulary
  import opened Frames

  ghost function Calls(tr: Trace): nat {
    if tr == [] then 0
    else Calls(tr[..|tr| - 1]) + if tr[|tr| - 1].Performed? && tr[|tr| - 1].effect.V3Call? then 1 else 0
  }

  lemma CallsPlus(tr: Trace, e: Event)
    ensures Calls(tr + [e]) == Calls(tr) + if e.Performed? && e.effect.V3Call? then 1 else 0
  {
    assert (tr + [e])[..|tr + [e]| - 1] == tr;
  }

  /** At `j` a new token is stored, or lost, and if anything follows it is a call with the token just stored. */
  ghost predicate RefreshThenCall(tr: Trace, j: nat) {
    && (j < |tr| ==> tr[j].LostToken? || (tr[j].SavedUsage? && tr[j].cause.Refresh?))
    && (j + 1 < |tr| ==>
          tr[j].SavedUsage? && tr[j + 1].Performed? && tr[j + 1].effect.V3Call?
          && tr[j + 1].effect.token == tr[j].usage.v3Token)
  }

  predicate TokenWasLost(answer: Upstream) {
    answer == Status(403, true)
  }

  /** A call is the last event, or was answered that its token is no longer known and is then marked rejected; and
      after a rejection comes a refresh, then a call with the refreshed token. */
  ghost predicate InOrder(tr: Trace, i: nat)
    requires i < |tr|
  {
    && (tr[i].Performed? ==>
          tr[i].effect.V3Call?
          && (i == |tr| - 1 || (TokenWasLost(tr[i].effect.answer) && tr[i + 1].Rejected?)))
    && (tr[i].Rejected? ==> RefreshThenCall(tr, i + 1))
  }

  ghost predicate Orderly(tr: Trace, n: nat) {
    forall i: nat :: n <= i < |tr| ==> InOrder(tr, i)
  }

  /** The fetch ended well: the last event is the call, its answer is what is returned and is no 403, its token is the
      heap's, and the heap's record is the stored one. */
  ghost predicate Returned(p: string, o: Out) {
    var tr := o.w.trace;
    && IsAnswered(tr) && o.h.status == Some(tr[|tr| - 1].effect.answer.code)
    && o.h.role.Some? && tr[|tr| - 1].effect.token == o.h.role.value.usage.v3Token
    && UsageIn(o.w.store, p) == Is(o.h.role.value.usage)
  }

  /** What is to be shown of a fetch that started in `w` and ended in `o`. */
  ghost predicate WellFetched(p: string, w: World, h: Heap, o: Out, rounds: nat)
    requires h.role.Some?
  {
    && |w.trace| <= |o.w.trace| && o.w.trace[..|w.trace|] == w.trace
    && Calls(o.w.trace) <= Calls(w.trace) + rounds
    && Orderly(o.w.trace, |w.trace|)
    && (h.role.value.usage.v3Token == "" ==> RefreshThenCall(o.w.trace, |w.trace|))
    && (o.reply == Continue || o.reply == Fail)
    && (o.reply == Continue ==> Returned(p, o))
    && (o.reply == Fail && |o.w.trace| > |w.trace| ==> !IsAnswered(o.w.trace))
  }

  /** The last event is a call that the upstream answered with anything but a 403. */
  ghost predicate IsAnswered(tr: Trace) {
    && |tr| > 0 && tr[|tr| - 1].Performed? && tr[|tr| - 1].effect.V3Call?
    && tr[|tr| - 1].effect.answer.Status? && tr[|tr| - 1].effect.answer.code != 403
  }

  /** One token refresh: nothing new and a token in hand, or one event and, if it went well, the new token stored. */
  lemma TokenEnsured(env: Env, p: string, w: World, h: Heap)
    requires h.role.Some? && (UsageIn(w.store, p) == Is(h.role.value.usage) || h.role.value.usage.v3Token == "")
    ensures var o := EnsureTokenDo(env, p, w, h);
            && (o.reply == Continue || o.reply == Fail) && o.w.req == w.req
            && (o.w.trace == w.trace || (|o.w.trace| == |w.trace| + 1 && o.w.trace[..|w.trace|] == w.trace))
            && (o.w.trace == w.trace ==> o.reply == Fail)
            && (o.w.trace != w.trace ==>
                  var e := o.w.trace[|w.trace|];
                  o.w.trace == w.trace + [e] && !e.Performed? && !e.Rejected?
                  && (h.role.value.usage.v3Token == "" ==> e.LostToken? || (e.SavedUsage? && e.cause.Refresh?)))
            && (o.reply == Continue ==>
                  && o.h.role.Some? && UsageIn(o.w.store, p) == Is(o.h.role.value.usage) && o.w.trace != w.trace
                  && (h.role.value.usage.v3Token == "" ==>
                        o.w.trace[|w.trace|].SavedUsage? && o.w.trace[|w.trace|].usage.v3Token == o.h.role.value.usage.v3Token))
  {
    var o := EnsureTokenDo(env, p, w, h);
    if o.w.trace != w.trace { assert o.w.trace == w.trace + [o.w.trace[|w.trace|]]; }
    if h.role.value.usage.V3TokenNeedsRenew(env.Seconds(w.tick)) && env.oauth(w.tick + 1).Granted? {
      UsageReadBack(Refreshed(env, w.tick, h.role.value.usage));
    }
  }

  /** A round that ends the fetch: the refresh failed, or the call did not report a lost token. */
  lemma LastRound(p: string, w: World, h: Heap, o: Out, fin: Out, rounds: nat)
    requires h.role.Some? && rounds > 0
    requires |w.trace| <= |o.w.trace| <= |w.trace| + 1 && o.w.trace[..|w.trace|] == w.trace
    requires |o.w.trace| > |w.trace| ==>
               var e := o.w.trace[|w.trace|];
               o.w.trace == w.trace + [e] && !e.Performed? && !e.Rejected?
               && (h.role.value.usage.v3Token == "" ==> e.LostToken? || (e.SavedUsage? && e.cause.Refresh?))
    requires fin.w.trace == o.w.trace
             || (|fin.w.trace| == |o.w.trace| + 1 && |o.w.trace| > |w.trace|
                 && var call := fin.w.trace[|o.w.trace|];
                    fin.w.trace == o.w.trace + [call] && call.Performed? && call.effect.V3Call?
                    && (h.role.value.usage.v3Token == "" ==>
                          o.w.trace[|w.trace|].SavedUsage? && o.w.trace[|w.trace|].usage.v3Token == call.effect.token))
    requires (fin.reply == Continue || fin.reply == Fail) && (fin.reply == Continue ==> Returned(p, fin))
    requires fin.reply == Fail && fin.w.trace != o.w.trace ==> !IsAnswered(fin.w.trace)
    ensures WellFetched(p, w, h, fin, rounds)
  {
    hide Returned;
    if |o.w.trace| > |w.trace| { CallsPlus(w.trace, o.w.trace[|w.trace|]); } else { assert o.w.trace == w.trace; }
    if fin.w.trace != o.w.trace { CallsPlus(o.w.trace, fin.w.trace[|o.w.trace|]); }
    hide Calls;
    var n, tr := |w.trace|, fin.w.trace;
    assert tr[..n] == w.trace;
    assert Calls(tr) <= Calls(w.trace) + rounds;
    assert Orderly(tr, n);
    assert h.role.value.usage.v3Token == "" ==> RefreshThenCall(tr, n);
  }

  /** A round whose call reports a lost token, followed by what the remaining rounds do. */
  lemma AnotherRound(p: string, w: World, h: Heap, e: Event, call: Event, rejected: Event, w2: World, h2: Heap, fin: Out,
                     rounds: nat)
    requires h.role.Some? && h2.role.Some? && h2.role.value.usage.v3Token == "" && rounds > 0
    requires !e.Performed? && !e.Rejected? && rejected.Rejected? && w2.trace == w.trace + [e] + [call] + [rejected]
    requires call.Performed? && call.effect.V3Call? && TokenWasLost(call.effect.answer)
    requires h.role.value.usage.v3Token == "" ==> e.SavedUsage? && e.cause.Refresh? && e.usage.v3Token == call.effect.token
    requires WellFetched(p, w2, h2, fin, rounds - 1)
    ensures WellFetched(p, w, h, fin, rounds)
  {
    var n := |w.trace|;
    hide Returned;
    CallsPlus(w.trace, e);
    CallsPlus(w.trace + [e], call);
    CallsPlus(w.trace + [e] + [call], rejected);
    hide Calls;
    var tr := fin.w.trace;
    assert tr[..n] == w2.trace[..n] == w.trace;
    assert Calls(tr) <= Calls(w2.trace) + (rounds - 1) && Calls(w2.trace) == Calls(w.trace) + 1;
    assert tr[n] == w2.trace[n] == e && tr[n + 1] == w2.trace[n + 1] == call && tr[n + 2] == w2.trace[n + 2] == rejected;
    assert Orderly(tr, n + 3) && RefreshThenCall(tr, n + 3);
    forall i | n <= i < |tr| ensures InOrder(tr, i) {
      assert i >= n + 3 ==> InOrder(tr, i);
    }
  }

  /** The call of a round, and what is left to do when it reports a lost token. */
  ghost function CallOf(env: Env, p: string, probe: bool, o: Out): Event
    requires o.h.role.Some?
  {
    Performed(o.w.req, p, V3Call(probe, o.h.role.value.usage.v3Token, env.upstream(o.w.tick)), o.w.tick)
  }

  ghost function SetAside(p: string, o: Out, call: Event): (r: (World, Heap))
    requires o.h.role.Some?
    ensures r.0.trace == o.w.trace + [call] + [Rejected(o.w.req, p)]
    ensures r.1.role.Some? && r.1.role.value.usage.v3Token == ""
  {
    (o.w.Ticked(1).Log(call).Log(Rejected(o.w.req, p)), o.h.WithUsage(o.h.role.value.usage.WithoutToken()))
  }

  /** How a round ends the fetch whose call reported no lost token. */
  ghost function Ended(o: Out, call: Event, answer: Upstream): Out {
    var w := o.w.Ticked(1).Log(call);
    if answer.Status? && answer.code != 403 then Go(w, o.h.(status := Some(answer.code))) else Out(w, o.h, Fail)
  }

  /** One round of the fetch. */
  lemma RoundMeans(env: Env, p: string, probe: bool, w: World, h: Heap, rounds: nat)
    requires h.role.Some? && rounds > 0 && EnsureTokenDo(env, p, w, h).h.role.Some? && EnsureTokenDo(env, p, w, h).w.req == w.req
    ensures var o := EnsureTokenDo(env, p, w, h);
            FetchDo(env, p, probe, w, h, rounds) ==
            if o.reply != Continue then o
            else
              var (answer, call) := (env.upstream(o.w.tick), CallOf(env, p, probe, o));
              if TokenWasLost(answer)
              then FetchDo(env, p, probe, SetAside(p, o, call).0, SetAside(p, o, call).1, rounds - 1)
              else Ended(o, call, answer)
  {
    hide EnsureTokenDo;
  }

  /** For any number of rounds: no more calls than rounds; every call but the last was answered that its token is no
      longer known; every further call uses a token stored after the previous rejection; and what is returned is not a
      403 and leaves the stored record equal to the one in memory. */
  lemma {:induction false} FetchIsOrderly(env: Env, p: string, probe: bool, w: World, h: Heap, rounds: nat)
    requires h.role.Some? && (UsageIn(w.store, p) == Is(h.role.value.usage) || h.role.value.usage.v3Token == "")
    ensures WellFetched(p, w, h, FetchDo(env, p, probe, w, h, rounds), rounds)
    decreases rounds
  {
    hide EnsureTokenDo, FetchDo, WellFetched, UsageIn, Calls, Orderly, RefreshThenCall;
    if rounds == 0 {
      NoRounds(env, p, probe, w, h);
    } else {
      var o, fin := EnsureTokenDo(env, p, w, h), FetchDo(env, p, probe, w, h, rounds);
      TokenEnsured(env, p, w, h);
      TokenKeepsRole(env, p, w, h);
      RoundMeans(env, p, probe, w, h, rounds);
      if o.reply != Continue {
        LastRound(p, w, h, o, fin, rounds);
      } else {
        var call := CallOf(env, p, probe, o);
        if TokenWasLost(env.upstream(o.w.tick)) {
          var (w2, h2) := SetAside(p, o, call);
          FetchIsOrderly(env, p, probe, w2, h2, rounds - 1);
          hide SetAside;
          AnotherRound(p, w, h, o.w.trace[|w.trace|], call, Rejected(w.req, p), w2, h2, fin, rounds);
        } else {
          assert fin.reply == Continue ==> Returned(p, fin);
          hide Returned;
          LastRound(p, w, h, o, fin, rounds);
        }
      }
    }
  }

  lemma NoRounds(env: Env, p: string, probe: bool, w: World, h: Heap)
    requires h.role.Some?
    ensures WellFetched(p, w, h, FetchDo(env, p, probe, w, h, 0), 0) && FetchDo(env, p, probe, w, h, 0) == Out(w, h, Fail)
  {
    hide Calls;
    assert w.trace[..|w.trace|] == w.trace;
  }

  lemma TokenKeepsRole(env: Env, p: string, w: World, h: Heap)
    requires h.role.Some?
    ensures EnsureTokenDo(env, p, w, h).h.role.Some? && EnsureTokenDo(env, p, w, h).w.req == w.req
  {}

  /** The fetch gives up only after three calls that all reported a lost token, unless an error ended it before. */
  lemma {:induction false} GivesUpAfterAllRounds(env: Env, p: string, probe: bool, w: World, h: Heap, rounds: nat)
    requires h.role.Some?
    requires forall t: nat :: env.ok(t) && env.oauth(t).Granted? && TokenWasLost(env.upstream(t))
    ensures FetchDo(env, p, probe, w, h, rounds).reply == Fail
    ensures Calls(FetchDo(env, p, probe, w, h, rounds).w.trace) == Calls(w.trace) + rounds
    decreases rounds
  {
    hide EnsureTokenDo, FetchDo, Calls;
    if rounds == 0 {
      NoRounds(env, p, probe, w, h);
    } else {
      var o := EnsureTokenDo(env, p, w, h);
      var e := RenewalSucceeds(env, p, w, h);
      RoundMeans(env, p, probe, w, h, rounds);
      var call := CallOf(env, p, probe, o);
      assert TokenWasLost(env.upstream(o.w.tick));
      var (w2, h2) := SetAside(p, o, call);
      CallsPlus(w.trace, e);
      CallsPlus(o.w.trace, call);
      CallsPlus(o.w.trace + [call], Rejected(w.req, p));
      hide SetAside;
      GivesUpAfterAllRounds(env, p, probe, w2, h2, rounds - 1);
    }
  }

  lemma FetchApplied(env: Env, p: string, probe: bool, w: World, h: Heap)
    requires h.role.Some?
    ensures Apply(env, p, FetchV3(probe), w, h) == FetchDo(env, p, probe, w, h, 3)
  {
    hide FetchDo, EnsureTokenDo, KeysIn, UsageIn;
  }

  /** A request makes exactly three calls before it gives up. */
  lemma GivesUpAfterThree(env: Env, p: string, probe: bool, w: World, h: Heap)
    requires h.role.Some?
    requires forall t: nat :: env.ok(t) && env.oauth(t).Granted? && TokenWasLost(env.upstream(t))
    ensures var o := Apply(env, p, FetchV3(probe), w, h);
            o.reply == Fail && Calls(o.w.trace) == Calls(w.trace) + 3
  {
    hide *;
    GivesUpAfterAllRounds(env, p, probe, w, h, 3);
    FetchApplied(env, p, probe, w, h);
  }

  lemma RenewalSucceeds(env: Env, p: string, w: World, h: Heap) returns (e: Event)
    requires h.role.Some? && forall t: nat :: env.ok(t) && env.oauth(t).Granted? && TokenWasLost(env.upstream(t))
    ensures var o := EnsureTokenDo(env, p, w, h);
            o.reply == Continue && o.h.role.Some? && o.w.req == w.req && o.w.trace == w.trace + [e] && !e.Performed?
  {
    var o := EnsureTokenDo(env, p, w, h);
    e := o.w.trace[|w.trace|];
    assert env.ok(w.tick + 3) && env.oauth(w.tick + 1).Granted?;
    assert o.w.trace == w.trace + [e];
  }

  lemma UsageStored(w: World, p: string, u: RoleUsage, cause: UsageCause)
    ensures var w' := w.WithUsage(p, u, cause);
            && UsageIn(w'.store, p) == Is(u) && KeysIn(w'.store, p) == KeysIn(w.store, p)
            && w'.tick == w.tick && w'.req == w.req
  {
    UsageReadBack(u);
    hide EncodeUsage, DecodeUsage, DecodeKeys;
  }

  /** Renewals leave limits, remaining uses and keys alone. */
  lemma {:induction false} FetchKeepsLimits(env: Env, p: string, probe: bool, w: World, h: Heap, rounds: nat)
    requires h.role.Some? && UsageIn(w.store, p).Is?
    requires var (u, v) := (UsageIn(w.store, p).value, h.role.value.usage);
             SameLimits(u, v) && u.remainingNumUses == v.remainingNumUses
    ensures var o := FetchDo(env, p, probe, w, h, rounds);
            && KeysIn(o.w.store, p) == KeysIn(w.store, p) && UsageIn(o.w.store, p).Is?
            && SameLimits(UsageIn(o.w.store, p).value, UsageIn(w.store, p).value)
            && UsageIn(o.w.store, p).value.remainingNumUses == UsageIn(w.store, p).value.remainingNumUses
    decreases rounds
  {
    hide FetchDo, EnsureTokenDo, KeysIn, UsageIn;
    if rounds == 0 {
      NoRounds(env, p, probe, w, h);
    } else {
      var o := EnsureTokenDo(env, p, w, h);
      RenewalKeepsLimits(env, p, w, h);
      TokenKeepsRole(env, p, w, h);
      RoundMeans(env, p, probe, w, h, rounds);
      if o.reply == Continue && TokenWasLost(env.upstream(o.w.tick)) {
        var (w2, h2) := SetAside(p, o, CallOf(env, p, probe, o));
        FetchKeepsLimits(env, p, probe, w2, h2, rounds - 1);
      }
    }
  }

  lemma RenewalKeepsLimits(env: Env, p: string, w: World, h: Heap)
    requires h.role.Some? && UsageIn(w.store, p).Is?
    requires var (u, v) := (UsageIn(w.store, p).value, h.role.value.usage);
             SameLimits(u, v) && u.remainingNumUses == v.remainingNumUses
    ensures var o := EnsureTokenDo(env, p, w, h);
            && KeysIn(o.w.store, p) == KeysIn(w.store, p) && UsageIn(o.w.store, p).Is? && o.h.role.Some?
            && SameLimits(UsageIn(o.w.store, p).value, UsageIn(w.store, p).value)
            && UsageIn(o.w.store, p).value.remainingNumUses == UsageIn(w.store, p).value.remainingNumUses
            && SameLimits(o.h.role.value.usage, h.role.value.usage)
            && o.h.role.value.usage.remainingNumUses == h.role.value.usage.remainingNumUses
  {
    if h.role.value.usage.V3TokenNeedsRenew(env.Seconds(w.tick)) && env.oauth(w.tick + 1).Granted? {
      UsageReadBack(Refreshed(env, w.tick, h.role.value.usage));
    }
    hide EncodeUsage, DecodeUsage, DecodeKeys;
  }

  // ---- in a request ----

  ghost predicate InStep(p: string, w: World, h: Heap) {
    h.role.Some? && UsageIn(w.store, p) == Is(h.role.value.usage)
  }

  predicate LeadsUp(s: Step) {
    s == ReadRole(true) || s.BlockUsageExceedingLimits? || s.BlockIncapableOf? || s.EnsureToken? || s.DecreaseQuota?
  }

  lemma LeadsUpInStep(env: Env, p: string, s: Step, w: World, h: Heap)
    requires LeadsUp(s) && (s.ReadRole? || InStep(p, w, h)) && Apply(env, p, s, w, h).reply == Continue
    ensures InStep(p, Apply(env, p, s, w, h).w, Apply(env, p, s, w, h).h)
  {
    if s.EnsureToken? {
      TokenEnsured(env, p, w, h);
    } else if s.DecreaseQuota? {
      UsageReadBack(h.role.value.usage.Reduced());
    }
  }

  /** The transformers before the fetch leave the heap's usage record in step with the stored one. */
  lemma {:induction false} ChainLeadsUp(env: Env, p: string, steps: seq<Step>, w: World, h: Heap)
    requires (forall s <- steps :: LeadsUp(s)) && (InStep(p, w, h) || (steps != [] && steps[0].ReadRole?))
    requires RunSteps(env, p, steps, w, h).reply == Continue
    ensures InStep(p, RunSteps(env, p, steps, w, h).w, RunSteps(env, p, steps, w, h).h)
    decreases |steps|
  {
    if steps != [] {
      LeadsUpInStep(env, p, steps[0], w, h);
      hide Apply, InStep;
      ChainLeadsUp(env, p, steps[1..], Apply(env, p, steps[0], w, h).w, Apply(env, p, steps[0], w, h).h);
    }
  }

  lemma QuietStart(env: Env, p: string, base: seq<Step>, w: World, h: Heap) returns (o: Out)
    requires forall s <- base :: LeadsUp(s)
    ensures o == RunSteps(env, p, base, w, h)
    ensures |o.w.trace| >= |w.trace| && o.w.trace[..|w.trace|] == w.trace
    ensures forall i :: |w.trace| <= i < |o.w.trace| ==> !o.w.trace[i].Performed? && !o.w.trace[i].Rejected?
  {
    hide RunSteps;
    o := RunSteps(env, p, base, w, h);
    ChainIsWithin(env, p, base, w, h);
    forall i | |w.trace| <= i < |o.w.trace| ensures !o.w.trace[i].Performed? && !o.w.trace[i].Rejected? {
      assert IsOwn(env, p, w.req, base, o.w.trace[i]);
    }
  }

  lemma {:induction false} QuietCalls(tr: Trace, n: nat)
    requires n <= |tr| && forall i :: n <= i < |tr| ==> !tr[i].Performed?
    ensures Calls(tr) == Calls(tr[..n])
  {
    if n == |tr| { assert tr[..n] == tr; }
    else {
      QuietCalls(tr[..|tr| - 1], n);
      assert tr[..|tr| - 1][..n] == tr[..n];
    }
  }

  predicate IsTail(s: Step) {
    s.BounceErrors? || s.Render?
  }

  lemma {:induction false} TailIsSilent(env: Env, p: string, steps: seq<Step>, w: World, h: Heap)
    requires forall s <- steps :: IsTail(s)
    ensures RunSteps(env, p, steps, w, h).w == w
    decreases |steps|
  {
    if steps != [] {
      assert IsTail(steps[0]) && Apply(env, p, steps[0], w, h).w == w && Apply(env, p, steps[0], w, h).h == h;
      hide Apply;
      TailIsSilent(env, p, steps[1..], w, h);
    }
  }

  lemma V3Shape(kind: V3Kind) returns (tail: seq<Step>)
    ensures HandlerOf(V3(kind)) == Flat(V3_BASE + ([FetchV3(false)] + tail)) && forall s <- tail :: IsTail(s)
  {
    tail := match kind
      case Proxied => [Render(Relayed)]
      case CliDelete => [BounceErrors]
      case _ => [BounceErrors, Render(Relayed)];
    assert HandlerOf(V3(kind)).steps == V3_BASE + ([FetchV3(false)] + tail);
  }

  lemma V3ChainIsOrderly(env: Env, p: string, base: seq<Step>, probe: bool, tail: seq<Step>, w: World)
    requires base != [] && base[0].ReadRole? && (forall s <- base :: LeadsUp(s)) && forall s <- tail :: IsTail(s)
    ensures var tr := RunSteps(env, p, base + ([FetchV3(probe)] + tail), w, EMPTY_HEAP).w.trace;
            Calls(tr) <= Calls(w.trace) + FETCH_ROUNDS && Orderly(tr, |w.trace|)
  {
    var o := QuietStart(env, p, base, w, EMPTY_HEAP);
    QuietCalls(o.w.trace, |w.trace|);
    ChainsJoin(env, p, base, [FetchV3(probe)] + tail, w, EMPTY_HEAP);
    if o.reply == Continue {
      ChainLeadsUp(env, p, base, w, EMPTY_HEAP);
      FetchIsOrderly(env, p, probe, o.w, o.h, FETCH_ROUNDS);
      FetchThenTail(env, p, probe, tail, o.w, o.h);
      hide RunSteps, InStep, FetchDo, Calls, Returned, UsageIn, RefreshThenCall;
      OrderlyThroughout(o.w.trace, FetchDo(env, p, probe, o.w, o.h, FETCH_ROUNDS).w.trace, |w.trace|);
    } else {
      hide RunSteps, FetchDo, Calls;
    }
  }

  lemma OrderlyThroughout(before: Trace, tr: Trace, n: nat)
    requires n <= |before| <= |tr| && tr[..|before|] == before && Orderly(tr, |before|)
    requires forall i :: n <= i < |before| ==> !before[i].Performed? && !before[i].Rejected?
    ensures Orderly(tr, n)
  {
    hide RefreshThenCall;
    forall i: nat | n <= i < |tr| ensures InOrder(tr, i) {
      if i < |before| { assert tr[i] == before[i]; } else { assert InOrder(tr, i); }
    }
  }

  /** Every V3 request and every existence probe, whatever it meets: at most three upstream calls, in order. */
  lemma V3RequestsAreOrderly(env: Env, w: World, r: Request)
    requires r.op.V3? || r.op.ProbeV3?
    ensures var tr := RunRequest(env, w, r).0.trace;
            Calls(tr) <= Calls(w.trace) + 3 && Orderly(tr, |w.trace|)
  {
    var w0 := w.(req := w.req + 1);
    if r.op.ProbeV3? {
      ProbeIsFlat(env, w, r);
      V3ChainIsOrderly(env, r.role, PROBE_BASE, true, [BounceErrors], w0);
      hide RunSteps, RunRequest, Calls, Orderly;
    } else if Preflight(w.live, r.op) == None {
      var tail := V3Shape(r.op.kind);
      FlatRequest(env, w, r, V3_BASE + ([FetchV3(false)] + tail));
      V3ChainIsOrderly(env, r.role, V3_BASE, false, tail, w0);
      hide RunSteps, HandlerOf, Calls, Orderly;
    }
  }

  const PROBE_BASE := [ReadRole(true), BlockUsageExceedingLimits, BlockIncapableOf(3), EnsureToken]

  lemma ProbeIsFlat(env: Env, w: World, r: Request)
    requires r.op.ProbeV3?
    ensures RunRequest(env, w, r).0 ==
            RunSteps(env, r.role, PROBE_BASE + ([FetchV3(true)] + [BounceErrors]), w.(req := w.req + 1), EMPTY_HEAP).w
  {
    var parent := [ReadRole(true), BlockUsageExceedingLimits, BlockIncapableOf(3)];
    var child := [EnsureToken, FetchV3(true), BounceErrors];
    assert HandlerOf(ProbeV3) == Nested(parent, child) && forall s <- parent :: CarriesOnlyRole(s);
    assert parent + child == PROBE_BASE + ([FetchV3(true)] + [BounceErrors]);
    hide RunSteps, RunHandler, HandlerOf;
    NestedIsFlat(env, r.role, parent, child, w.(req := w.req + 1));
  }

  lemma FetchThenTail(env: Env, p: string, probe: bool, tail: seq<Step>, w: World, h: Heap)
    requires h.role.Some? && forall s <- tail :: IsTail(s)
    ensures RunSteps(env, p, [FetchV3(probe)] + tail, w, h).w == FetchDo(env, p, probe, w, h, FETCH_ROUNDS).w
  {
    hide FetchDo;
    var o := FetchDo(env, p, probe, w, h, FETCH_ROUNDS);
    assert ([FetchV3(probe)] + tail)[1..] == tail;
    assert Apply(env, p, FetchV3(probe), w, h) == o;
    hide Apply;
    TailIsSilent(env, p, tail, o.w, o.h);
  }
}
