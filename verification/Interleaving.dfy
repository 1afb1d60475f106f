/** Requests in flight at the same time. Storage operations are atomic and the transformers between them are not
    synchronised, so a usage record read by one request can be overwritten by another before it is written back. */
module Interleaving {
  import opened Records
  import opened Codec
  import opened Engine
  import opened Traces
  import opened Vocabulary
  import opened Frames
  import opened Overspend

  datatype Slot = Idle | Busy(req: nat, rest: seq<Step>, heap: Heap)

  /** A fixed number of slots, each with at most one request in flight, over one storage. */
  datatype Pool = Pool(w: World, slots: seq<Slot>)

  datatype Move = Begin(slot: nat, op: Op) | Advance(slot: nat)

  /** The requests that only read the usage record, spend, and have their effect. */
  predicate IsSpender(op: Op) {
    op.Grant? || op.CliV2? || op.ProxyV2?
  }

  function Take(env: Env, p: string, pool: Pool, m: Move): Pool {
    var w, slots := pool.w, pool.slots;
    if m.slot >= |slots| then pool
    else match m
      case Begin(j, op) =>
        if slots[j].Busy? || !IsSpender(op) || Preflight(w.live, op) != None then pool
        else Pool(w.(req := w.req + 1), slots[j := Busy(w.req + 1, StepsOf(HandlerOf(op)), EMPTY_HEAP)])
      case Advance(j) =>
        if slots[j].Idle? then pool
        else if slots[j].rest == [] then Pool(w, slots[j := Idle])
        else
          var Busy(req, rest, heap) := slots[j];
          var o := Apply(env, p, rest[0], w.(req := req), heap);
          Pool(o.w.(req := w.req), slots[j := if o.reply == Continue then Busy(req, rest[1..], o.h) else Idle])
  }

  function TakeAll(env: Env, p: string, pool: Pool, moves: seq<Move>): Pool
    decreases |moves|
  {
    if moves == [] then pool else TakeAll(env, p, Take(env, p, pool, moves[0]), moves[1..])
  }

  // ---- what is counted ----

  /** Units spent on `p` by requests numbered above `r0`, and the requests that spent or had an effect. */
  ghost function SpentSince(tr: Trace, p: string, r0: nat): nat {
    if tr == [] then 0
    else
      var e, before := tr[|tr| - 1], tr[..|tr| - 1];
      SpentSince(before, p, r0) + if e.SavedUsage? && e.cause == Spend && e.role == p && e.req > r0 then 1 else 0
  }

  ghost function Payers(tr: Trace, p: string, r0: nat): set<nat> {
    set e | e in tr && e.SavedUsage? && e.cause == Spend && e.role == p && e.req > r0 :: e.req
  }

  ghost function Served(tr: Trace, p: string, r0: nat): set<nat> {
    set e | e in tr && e.Performed? && e.role == p && e.req > r0 :: e.req
  }

  lemma {:induction false} PayersAreSpends(tr: Trace, p: string, r0: nat)
    ensures |Payers(tr, p, r0)| <= SpentSince(tr, p, r0)
  {
    if tr == [] {
      assert Payers(tr, p, r0) == {};
    } else {
      var e, before := tr[|tr| - 1], tr[..|tr| - 1];
      PayersAreSpends(before, p, r0);
      assert tr == before + [e];
      if e.SavedUsage? && e.cause == Spend && e.role == p && e.req > r0 {
        assert Payers(tr, p, r0) == Payers(before, p, r0) + {e.req};
      } else {
        assert Payers(tr, p, r0) == Payers(before, p, r0);
      }
    }
  }

  lemma OneMore(tr: Trace, e: Event, p: string, r0: nat)
    ensures SpentSince(tr + [e], p, r0) ==
            SpentSince(tr, p, r0) + if e.SavedUsage? && e.cause == Spend && e.role == p && e.req > r0 then 1 else 0
    ensures Payers(tr, p, r0) <= Payers(tr + [e], p, r0)
    ensures e.SavedUsage? && e.cause == Spend && e.role == p && e.req > r0 ==> e.req in Payers(tr + [e], p, r0)
    ensures forall q :: q in Served(tr + [e], p, r0) ==> q in Served(tr, p, r0) || (e.Performed? && q == e.req)
  {
    assert (tr + [e])[..|tr + [e]| - 1] == tr;
    assert e in tr + [e];
  }

  // ---- where a request stands ----

  /** Transformers after which storage and the role in the heap are as before. */
  predicate IsHarmless(s: Step) {
    s.BlockForceProxy? || s.BlockUsageExceedingLimits? || s.BlockIncapableOf?
    || s.RetrieveV2Signature? || s.RetrieveV3Token? || s.CallV2? || s.Render?
  }

  predicate HasNoEffect(s: Step) {
    s.BlockForceProxy? || s.BlockUsageExceedingLimits? || s.BlockIncapableOf?
  }

  predicate Finishing(rest: seq<Step>) {
    rest == [] || (IsHarmless(rest[0]) && Finishing(rest[1..]))
  }

  /** The unit is yet to be spent, after the limits check unless `passed` already. */
  predicate Spending(rest: seq<Step>, passed: bool) {
    rest != [] &&
    if rest[0] == DecreaseQuota then passed && Finishing(rest[1..])
    else HasNoEffect(rest[0]) && Spending(rest[1..], passed || rest[0].BlockUsageExceedingLimits?)
  }

  lemma {:induction false} FinishingSpendsNoMore(rest: seq<Step>)
    requires Finishing(rest)
    ensures DecreaseQuota !in rest
  {
    if rest != [] { FinishingSpendsNoMore(rest[1..]); }
  }

  lemma {:induction false} SpendingHasToSpend(rest: seq<Step>, passed: bool)
    requires Spending(rest, passed)
    ensures DecreaseQuota in rest
  {
    if rest[0] != DecreaseQuota { SpendingHasToSpend(rest[1..], passed || rest[0].BlockUsageExceedingLimits?); }
  }

  lemma {:induction false} PassedIsMore(rest: seq<Step>, a: bool, b: bool)
    requires Spending(rest, a) && (a ==> b)
    ensures Spending(rest, b)
  {
    if rest[0] != DecreaseQuota {
      PassedIsMore(rest[1..], a || rest[0].BlockUsageExceedingLimits?, b || rest[0].BlockUsageExceedingLimits?);
    }
  }

  lemma SpendersSpend(op: Op)
    requires IsSpender(op)
    ensures var steps := StepsOf(HandlerOf(op));
            steps != [] && steps[0] == ReadRole(true) && Spending(steps[1..], false)
  {
    var steps := StepsOf(HandlerOf(op));
    match op {
      case CliV2(_) =>
        assert steps[1..] == [BlockUsageExceedingLimits, BlockIncapableOf(2), DecreaseQuota, CallV2, Render(Relayed)];
        SpendingAt(steps[1..], 2, 0);
      case ProxyV2(_) =>
        assert steps[1..] == [BlockIncapableOf(2), BlockUsageExceedingLimits, DecreaseQuota, CallV2, Render(Relayed)];
        SpendingAt(steps[1..], 2, 1);
      case Grant(api) =>
        SpendingAt(steps[1..], 3, 1);
    }
  }

  lemma {:induction false} FinishingAll(rest: seq<Step>)
    requires forall i :: 0 <= i < |rest| ==> IsHarmless(rest[i])
    ensures Finishing(rest)
  {
    if rest != [] { FinishingAll(rest[1..]); }
  }

  /** A chain that checks the limits at `c`, spends at `n`, and besides only gates and then has its effect. */
  lemma {:induction false} SpendingAt(rest: seq<Step>, n: nat, c: nat)
    requires c < n < |rest| && rest[n] == DecreaseQuota && rest[c] == BlockUsageExceedingLimits
    requires forall i :: 0 <= i < n ==> HasNoEffect(rest[i])
    requires forall i :: n < i < |rest| ==> IsHarmless(rest[i])
    ensures Spending(rest, false)
  {
    if c > 0 {
      SpendingAt(rest[1..], n - 1, c - 1);
      PassedIsMore(rest[1..], false, rest[0].BlockUsageExceedingLimits?);
    } else {
      SpendingFrom(rest[1..], n - 1);
    }
  }

  lemma {:induction false} SpendingFrom(rest: seq<Step>, n: nat)
    requires n < |rest| && rest[n] == DecreaseQuota
    requires forall i :: 0 <= i < n ==> HasNoEffect(rest[i])
    requires forall i :: n < i < |rest| ==> IsHarmless(rest[i])
    ensures Spending(rest, true)
  {
    if n == 0 { FinishingAll(rest[1..]); } else { SpendingFrom(rest[1..], n - 1); }
  }

  /** A record of the quota in question: `size` units were granted, and at most `most` of them are left. */
  ghost predicate InQuota(u: RoleUsage, size: int, most: nat) {
    u.explicitNumUses == size > 0 && 0 <= u.remainingNumUses <= most
  }

  ghost predicate SlotOk(slot: Slot, tr: Trace, p: string, r0: nat, size: int, most: nat) {
    slot.Busy? ==>
      && slot.req > r0
      && ((slot.heap.role == None && slot.rest != [] && slot.rest[0] == ReadRole(true) && Spending(slot.rest[1..], false))
          || (slot.heap.role.Some? && InQuota(slot.heap.role.value.usage, size, most)
              && Spending(slot.rest, !slot.heap.role.value.usage.Depleted()))
          || (slot.heap.role.Some? && Finishing(slot.rest) && slot.req in Payers(tr, p, r0)))
  }

  /** The slot holds a usage record that it is still to write back. */
  predicate Holds(slot: Slot) {
    slot.Busy? && slot.heap.role.Some? && DecreaseQuota in slot.rest
  }

  /** The value a slot may spend from: what it holds, or else, or if it gives up, what is stored. */
  ghost function InHand(slot: Slot, givesUp: bool, stored: int): int {
    if Holds(slot) && !givesUp then slot.heap.role.value.usage.remainingNumUses else stored
  }

  ghost function Hands(slots: seq<Slot>, quitters: set<nat>, stored: int): seq<int> {
    seq(|slots|, i requires 0 <= i < |slots| => InHand(slots[i], i in quitters, stored))
  }

  ghost predicate StoresQuota(store: Store, p: string, size: int, most: nat) {
    UsageIn(store, p).Is? && InQuota(UsageIn(store, p).value, size, most)
  }

  /** Whichever holders give up, what has been spent is within reach of the values then in hand. */
  ghost predicate WithinReach(pool: Pool, p: string, r0: nat, most: nat)
    requires UsageIn(pool.w.store, p).Is?
  {
    forall quitters: set<nat> ::
      InReach(SpentSince(pool.w.trace, p, r0), pool.slots, quitters, UsageIn(pool.w.store, p).value.remainingNumUses, most)
  }

  ghost predicate InReach(spent: nat, slots: seq<Slot>, quitters: set<nat>, stored: int, most: nat) {
    spent <= Reach(Hands(slots, quitters, stored), most)
  }

  ghost predicate PoolOk(pool: Pool, p: string, r0: nat, size: int, most: nat) {
    && StoresQuota(pool.w.store, p, size, most)
    && pool.w.req >= r0
    && (forall i :: 0 <= i < |pool.slots| ==> SlotOk(pool.slots[i], pool.w.trace, p, r0, size, most))
    && Served(pool.w.trace, p, r0) <= Payers(pool.w.trace, p, r0)
    && WithinReach(pool, p, r0, most)
  }

  // ---- one move ----

  /** Slot `j` changes, and what it has in hand is as before or what is stored. */
  lemma HandSettles(slots: seq<Slot>, j: nat, slot: Slot, stored: int, quitters: set<nat>) returns (before: set<nat>)
    requires j < |slots|
    requires InHand(slot, false, stored) == stored || InHand(slot, false, stored) == InHand(slots[j], false, stored)
    ensures Hands(slots[j := slot], quitters, stored) == Hands(slots, before, stored)
  {
    before := if InHand(slot, j in quitters, stored) == stored then quitters + {j} else quitters;
  }

  /** A move that spends nothing and leaves the usage record alone. */
  lemma QuietMove(pool: Pool, pool': Pool, j: nat, slot: Slot, p: string, r0: nat, size: int, most: nat)
    requires PoolOk(pool, p, r0, size, most) && j < |pool.slots| && pool'.slots == pool.slots[j := slot]
    requires UsageIn(pool'.w.store, p) == UsageIn(pool.w.store, p) && pool'.w.req >= pool.w.req
    requires SpentSince(pool'.w.trace, p, r0) == SpentSince(pool.w.trace, p, r0)
    requires Payers(pool.w.trace, p, r0) <= Payers(pool'.w.trace, p, r0)
    requires Served(pool'.w.trace, p, r0) <= Payers(pool'.w.trace, p, r0)
    requires SlotOk(slot, pool'.w.trace, p, r0, size, most)
    requires var stored := UsageIn(pool.w.store, p).value.remainingNumUses;
             InHand(slot, false, stored) == stored || InHand(slot, false, stored) == InHand(pool.slots[j], false, stored)
    ensures PoolOk(pool', p, r0, size, most)
  {
    var stored := UsageIn(pool.w.store, p).value.remainingNumUses;
    hide UsageIn, Reach, SpentSince, Payers, Served, Spending, Finishing, InHand, Hands, Holds;
    forall quitters: set<nat> ensures InReach(SpentSince(pool'.w.trace, p, r0), pool'.slots, quitters, stored, most) {
      var before := HandSettles(pool.slots, j, slot, stored, quitters);
      assert InReach(SpentSince(pool.w.trace, p, r0), pool.slots, before, stored, most);
    }
    forall i | 0 <= i < |pool'.slots| ensures SlotOk(pool'.slots[i], pool'.w.trace, p, r0, size, most) {
      assert i != j ==> SlotOk(pool.slots[i], pool.w.trace, p, r0, size, most);
    }
  }

  /** The move that spends: the slot writes back one less than it held, whatever is stored by now. */
  lemma SpendingMove(pool: Pool, pool': Pool, j: nat, slot: Slot, v: RoleUsage, p: string, r0: nat, size: int, most: nat)
    requires PoolOk(pool, p, r0, size, most) && j < |pool.slots| && pool'.slots == pool.slots[j := slot]
    requires Holds(pool.slots[j]) && InQuota(v, size, most) && v.remainingNumUses + 1 == InHand(pool.slots[j], false, 0) <= most
    requires UsageIn(pool'.w.store, p) == Is(v) && pool'.w.req >= pool.w.req
    requires SpentSince(pool'.w.trace, p, r0) == SpentSince(pool.w.trace, p, r0) + 1
    requires Payers(pool.w.trace, p, r0) <= Payers(pool'.w.trace, p, r0)
    requires Served(pool'.w.trace, p, r0) <= Payers(pool'.w.trace, p, r0)
    requires !Holds(slot) && SlotOk(slot, pool'.w.trace, p, r0, size, most)
    ensures PoolOk(pool', p, r0, size, most)
  {
    var stored, left, h := UsageIn(pool.w.store, p).value.remainingNumUses, v.remainingNumUses, v.remainingNumUses + 1;
    forall quitters: set<nat> ensures InReach(SpentSince(pool'.w.trace, p, r0), pool'.slots, quitters, left, most) {
      var before := quitters - {j};
      var a, b := Hands(pool.slots, before, stored), Hands(pool'.slots, quitters, left);
      assert InReach(SpentSince(pool.w.trace, p, r0), pool.slots, before, stored, most);
      assert WroteBack(a, b, j, h) by {
        hide UsageIn, Reach, SpentSince, Payers, Served, Spending, Finishing, Holds, PoolOk;
        forall i | 0 <= i < |a| && i != j ensures b[i] == a[i] || b[i] == h - 1 {
          assert pool'.slots[i] == pool.slots[i];
        }
      }
      ReachAfter(a, b, j, h, most);
    }
    hide UsageIn, Reach, SpentSince, Payers, Served, Spending, Finishing, InHand, Hands, Holds;
    forall i | 0 <= i < |pool'.slots| ensures SlotOk(pool'.slots[i], pool'.w.trace, p, r0, size, most) {
      assert i != j ==> SlotOk(pool.slots[i], pool.w.trace, p, r0, size, most);
    }
  }

  lemma HarmlessStep(env: Env, p: string, s: Step, w: World, h: Heap)
    requires h.role.Some? && IsHarmless(s)
    ensures var o := Apply(env, p, s, w, h);
            && o.w.store == w.store && o.w.req == w.req
            && (o.w.trace == w.trace
                || (|o.w.trace| == |w.trace| + 1 && o.w.trace == w.trace + [o.w.trace[|w.trace|]]
                    && var e := o.w.trace[|w.trace|];
                       e.req == w.req && (e.Checked? || (e.Performed? && !HasNoEffect(s)))))
            && (o.reply == Continue ==> o.h.role == h.role)
            && (o.reply == Continue && s.BlockUsageExceedingLimits? ==> !h.role.value.usage.Depleted())
  {
    var o := Apply(env, p, s, w, h);
    if o.w.trace != w.trace { assert o.w.trace == w.trace + [o.w.trace[|w.trace|]]; }
  }

  lemma ReadStep(env: Env, p: string, w: World, h: Heap)
    requires UsageIn(w.store, p).Is?
    ensures var o := Apply(env, p, ReadRole(true), w, h);
            && o.w.store == w.store && o.w.req == w.req
            && (o.w.trace == w.trace
                || (|o.w.trace| == |w.trace| + 1 && o.w.trace == w.trace + [o.w.trace[|w.trace|]]
                    && o.w.trace[|w.trace|].Loaded?))
            && (o.reply == Continue ==> o.h.role.Some? && o.h.role.value.usage == UsageIn(w.store, p).value)
  {}

  lemma SpendStep(env: Env, p: string, w: World, h: Heap, size: int, most: nat)
    requires h.role.Some? && InQuota(h.role.value.usage, size, most)
    ensures var o := Apply(env, p, DecreaseQuota, w, h);
            var v := h.role.value.usage.Reduced();
            && o.w.req == w.req
            && o.reply == (if env.ok(w.tick) then Continue else Fail) && o.h == h.WithUsage(v)
            && (if env.Lands(w.tick)
                then UsageIn(o.w.store, p) == Is(v) && o.w.trace == w.trace + [SavedUsage(w.req, p, v, Spend)]
                else o.reply == Fail && o.w.store == w.store && o.w.trace == w.trace)
  {
    UsageReadBack(h.role.value.usage.Reduced());
  }

  /** What a slot becomes once its next transformer has run. */
  function After(slot: Slot, o: Out): Slot
    requires slot.Busy? && slot.rest != []
  {
    if o.reply == Continue then Busy(slot.req, slot.rest[1..], o.h) else Idle
  }

  lemma HoldsWhenSpending(slot: Slot, passed: bool)
    requires slot.Busy? && slot.heap.role.Some? && Spending(slot.rest, passed)
    ensures Holds(slot)
  {
    SpendingHasToSpend(slot.rest, passed);
  }

  lemma BeginKeeps(env: Env, p: string, pool: Pool, j: nat, op: Op, r0: nat, size: int, most: nat)
    requires PoolOk(pool, p, r0, size, most) && j < |pool.slots| && IsSpender(op)
    ensures var w := pool.w.(req := pool.w.req + 1);
            PoolOk(Pool(w, pool.slots[j := Busy(w.req, StepsOf(HandlerOf(op)), EMPTY_HEAP)]), p, r0, size, most)
  {
    SpendersSpend(op);
    var w := pool.w.(req := pool.w.req + 1);
    var slot := Busy(w.req, StepsOf(HandlerOf(op)), EMPTY_HEAP);
    hide HandlerOf, StepsOf, Spending, Finishing, WithinReach, Payers, Served, UsageIn;
    QuietMove(pool, Pool(w, pool.slots[j := slot]), j, slot, p, r0, size, most);
  }

  lemma FreedKeeps(pool: Pool, w: World, j: nat, p: string, r0: nat, size: int, most: nat)
    requires PoolOk(pool, p, r0, size, most) && j < |pool.slots| && w.store == pool.w.store && w.req >= pool.w.req
    requires w.trace == pool.w.trace
    ensures PoolOk(Pool(w, pool.slots[j := Idle]), p, r0, size, most)
  {
    QuietMove(pool, Pool(w, pool.slots[j := Idle]), j, Idle, p, r0, size, most);
    hide PoolOk;
  }

  /** A step that adds at most one event, that event being no spend and an effect only of a request that has paid. */
  lemma QuietStepKeeps(pool: Pool, w: World, j: nat, slot: Slot, p: string, r0: nat, size: int, most: nat)
    requires PoolOk(pool, p, r0, size, most) && j < |pool.slots| && w.store == pool.w.store && w.req == pool.w.req
    requires w.trace == pool.w.trace
             || (|w.trace| == |pool.w.trace| + 1 && w.trace == pool.w.trace + [w.trace[|pool.w.trace|]]
                 && var e := w.trace[|pool.w.trace|];
                    !e.SavedUsage? && (e.Performed? ==> e.req in Payers(pool.w.trace, p, r0)))
    requires SlotOk(slot, pool.w.trace, p, r0, size, most)
    requires var stored := UsageIn(pool.w.store, p).value.remainingNumUses;
             InHand(slot, false, stored) == stored || InHand(slot, false, stored) == InHand(pool.slots[j], false, stored)
    ensures PoolOk(Pool(w, pool.slots[j := slot]), p, r0, size, most)
  {
    if w.trace != pool.w.trace { OneMore(pool.w.trace, w.trace[|pool.w.trace|], p, r0); }
    hide UsageIn, Spending, Finishing, SpentSince, Payers, Served, WithinReach, InHand;
    QuietMove(pool, Pool(w, pool.slots[j := slot]), j, slot, p, r0, size, most);
  }

  lemma ReadingKeeps(env: Env, p: string, pool: Pool, j: nat, r0: nat, size: int, most: nat)
    requires PoolOk(pool, p, r0, size, most) && j < |pool.slots| && pool.slots[j].Busy? && pool.slots[j].rest != []
    requires pool.slots[j].heap.role == None
    ensures PoolOk(Take(env, p, pool, Advance(j)), p, r0, size, most)
  {
    var slot := pool.slots[j];
    var w0 := pool.w.(req := slot.req);
    assert SlotOk(slot, pool.w.trace, p, r0, size, most);
    ReadStep(env, p, w0, slot.heap);
    var o := Apply(env, p, slot.rest[0], w0, slot.heap);
    if o.reply == Continue {
      PassedIsMore(slot.rest[1..], false, !o.h.role.value.usage.Depleted());
      HoldsWhenSpending(After(slot, o), !o.h.role.value.usage.Depleted());
    }
    hide Apply, UsageIn, Spending, Finishing, SpentSince, Payers, Served, WithinReach, Holds;
    QuietStepKeeps(pool, o.w.(req := pool.w.req), j, After(slot, o), p, r0, size, most);
  }

  lemma FinishingKeeps(env: Env, p: string, pool: Pool, j: nat, r0: nat, size: int, most: nat)
    requires PoolOk(pool, p, r0, size, most) && j < |pool.slots| && pool.slots[j].Busy? && pool.slots[j].rest != []
    requires pool.slots[j].heap.role.Some? && Finishing(pool.slots[j].rest) && pool.slots[j].req in Payers(pool.w.trace, p, r0)
    ensures PoolOk(Take(env, p, pool, Advance(j)), p, r0, size, most)
  {
    var slot := pool.slots[j];
    var w0 := pool.w.(req := slot.req);
    HarmlessStep(env, p, slot.rest[0], w0, slot.heap);
    var o := Apply(env, p, slot.rest[0], w0, slot.heap);
    assert SlotOk(slot, pool.w.trace, p, r0, size, most);
    FinishingSpendsNoMore(slot.rest[1..]);
    hide Apply, UsageIn, Spending, SpentSince, Payers, Served, WithinReach, IsHarmless;
    QuietStepKeeps(pool, o.w.(req := pool.w.req), j, After(slot, o), p, r0, size, most);
  }

  lemma GatingKeeps(env: Env, p: string, pool: Pool, j: nat, r0: nat, size: int, most: nat)
    requires PoolOk(pool, p, r0, size, most) && j < |pool.slots| && pool.slots[j].Busy? && pool.slots[j].rest != []
    requires pool.slots[j].heap.role.Some? && InQuota(pool.slots[j].heap.role.value.usage, size, most)
    requires Spending(pool.slots[j].rest, !pool.slots[j].heap.role.value.usage.Depleted())
    requires pool.slots[j].rest[0] != DecreaseQuota
    ensures PoolOk(Take(env, p, pool, Advance(j)), p, r0, size, most)
  {
    var slot := pool.slots[j];
    var w0, passed := pool.w.(req := slot.req), !slot.heap.role.value.usage.Depleted();
    HarmlessStep(env, p, slot.rest[0], w0, slot.heap);
    var o := Apply(env, p, slot.rest[0], w0, slot.heap);
    assert SlotOk(slot, pool.w.trace, p, r0, size, most);
    HoldsWhenSpending(slot, passed);
    if o.reply == Continue {
      PassedIsMore(slot.rest[1..], passed || slot.rest[0].BlockUsageExceedingLimits?, passed);
      HoldsWhenSpending(After(slot, o), passed);
    }
    hide Apply, UsageIn, Spending, Finishing, SpentSince, Payers, Served, WithinReach, Holds;
    QuietStepKeeps(pool, o.w.(req := pool.w.req), j, After(slot, o), p, r0, size, most);
  }

  lemma SpendKeeps(env: Env, p: string, pool: Pool, j: nat, r0: nat, size: int, most: nat)
    requires PoolOk(pool, p, r0, size, most) && j < |pool.slots| && pool.slots[j].Busy? && pool.slots[j].rest != []
    requires pool.slots[j].heap.role.Some? && InQuota(pool.slots[j].heap.role.value.usage, size, most)
    requires Spending(pool.slots[j].rest, !pool.slots[j].heap.role.value.usage.Depleted())
    requires pool.slots[j].rest[0] == DecreaseQuota
    ensures PoolOk(Take(env, p, pool, Advance(j)), p, r0, size, most)
  {
    var slot := pool.slots[j];
    var w0, v := pool.w.(req := slot.req), slot.heap.role.value.usage.Reduced();
    hide Apply, UsageIn, WithinReach, SpentSince, Payers, Served, HandlerOf, StepsOf;
    SpendStep(env, p, w0, slot.heap, size, most);
    var o := Apply(env, p, DecreaseQuota, w0, slot.heap);
    assert SlotOk(slot, pool.w.trace, p, r0, size, most);
    HoldsWhenSpending(slot, true);
    FinishingSpendsNoMore(slot.rest[1..]);
    if env.Lands(w0.tick) {
      OneMore(pool.w.trace, SavedUsage(slot.req, p, v, Spend), p, r0);
      SpendingMove(pool, Take(env, p, pool, Advance(j)), j, After(slot, o), v, p, r0, size, most);
    } else {
      FreedKeeps(pool, o.w.(req := pool.w.req), j, p, r0, size, most);
    }
  }

  lemma MoveKeeps(env: Env, p: string, pool: Pool, m: Move, r0: nat, size: int, most: nat)
    requires PoolOk(pool, p, r0, size, most)
    ensures PoolOk(Take(env, p, pool, m), p, r0, size, most)
  {
    hide Apply, Spending, Finishing, WithinReach, SpentSince, Payers, Served, HandlerOf, StepsOf, UsageIn;
    if m.slot < |pool.slots| {
      var slot := pool.slots[m.slot];
      assert SlotOk(slot, pool.w.trace, p, r0, size, most);
      if m.Begin? {
        if slot.Idle? && IsSpender(m.op) { BeginKeeps(env, p, pool, m.slot, m.op, r0, size, most); }
      } else if slot.Busy? {
        if slot.rest == [] { FreedKeeps(pool, pool.w, m.slot, p, r0, size, most); }
        else if slot.heap.role == None { ReadingKeeps(env, p, pool, m.slot, r0, size, most); }
        else if Finishing(slot.rest) && slot.req in Payers(pool.w.trace, p, r0) {
          FinishingKeeps(env, p, pool, m.slot, r0, size, most);
        }
        else if slot.rest[0] == DecreaseQuota { SpendKeeps(env, p, pool, m.slot, r0, size, most); }
        else { GatingKeeps(env, p, pool, m.slot, r0, size, most); }
      }
    }
  }

  lemma {:induction false} MovesKeep(env: Env, p: string, pool: Pool, moves: seq<Move>, r0: nat, size: int, most: nat)
    requires PoolOk(pool, p, r0, size, most)
    ensures PoolOk(TakeAll(env, p, pool, moves), p, r0, size, most)
    decreases |moves|
  {
    hide PoolOk, Take;
    if moves != [] {
      MoveKeeps(env, p, pool, moves[0], r0, size, most);
      MovesKeep(env, p, Take(env, p, pool, moves[0]), moves[1..], r0, size, most);
    }
  }

  lemma {:induction false} NothingSince(tr: Trace, p: string, r0: nat)
    requires forall e <- tr :: e.req <= r0
    ensures SpentSince(tr, p, r0) == 0 && Served(tr, p, r0) == {}
  {
    if tr != [] { NothingSince(tr[..|tr| - 1], p, r0); }
  }

  ghost predicate AllIdle(pool: Pool) {
    forall i :: 0 <= i < |pool.slots| ==> pool.slots[i] == Idle
  }

  /** With at most `k` requests in flight, any interleaving of their transformers and any failures, the units spent
      from a quota with `most` units left, and so the requests served, never exceed C(k + most, most) - 1. */
  lemma OverspendIsBounded(env: Env, p: string, pool: Pool, moves: seq<Move>, size: int, most: nat)
    requires AllIdle(pool) && (forall e <- pool.w.trace :: e.req <= pool.w.req)
    requires StoresQuota(pool.w.store, p, size, most) && UsageIn(pool.w.store, p).value.remainingNumUses == most
    ensures var tr := TakeAll(env, p, pool, moves).w.trace;
            |Served(tr, p, pool.w.req)| <= SpentSince(tr, p, pool.w.req) <= WorstCase(|pool.slots|, most)
  {
    var r0, last := pool.w.req, TakeAll(env, p, pool, moves);
    NothingSince(pool.w.trace, p, r0);
    forall quitters: set<nat> ensures InReach(0, pool.slots, quitters, most, most) {
      ReachStart(Hands(pool.slots, quitters, most), most);
    }
    hide TakeAll, UsageIn, SpentSince, Payers, Served, Reach, WorstCase;
    assert PoolOk(pool, p, r0, size, most);
    MovesKeep(env, p, pool, moves, r0, size, most);
    var stored := UsageIn(last.w.store, p).value.remainingNumUses;
    assert InReach(SpentSince(last.w.trace, p, r0), last.slots, {}, stored, most);
    ReachIsBounded(Hands(last.slots, {}, stored), most);
    SlotsStay(env, p, pool, moves);
    PayersAreSpends(last.w.trace, p, r0);
    Subsets(Served(last.w.trace, p, r0), Payers(last.w.trace, p, r0));
  }

  /** One request at a time never spends more than is left. */
  lemma OneAtATimeIsExact(env: Env, p: string, pool: Pool, moves: seq<Move>, size: int, most: nat)
    requires |pool.slots| == 1 && AllIdle(pool) && (forall e <- pool.w.trace :: e.req <= pool.w.req)
    requires StoresQuota(pool.w.store, p, size, most) && UsageIn(pool.w.store, p).value.remainingNumUses == most
    ensures |Served(TakeAll(env, p, pool, moves).w.trace, p, pool.w.req)| <= most
  {
    hide TakeAll, Served, UsageIn, WorstCase, SpentSince;
    OverspendIsBounded(env, p, pool, moves, size, most);
    AloneIsExact(most);
  }

  lemma {:induction false} SlotsStay(env: Env, p: string, pool: Pool, moves: seq<Move>)
    ensures |TakeAll(env, p, pool, moves).slots| == |pool.slots|
    decreases |moves|
  {
    hide Apply;
    if moves != [] { SlotsStay(env, p, Take(env, p, pool, moves[0]), moves[1..]); }
  }

  // ---- the bound is reached ----

  const V2_REST := [BlockUsageExceedingLimits, BlockIncapableOf(2), DecreaseQuota, CallV2, Render(Relayed)]

  ghost predicate CanSpend(k: RoleKeys, u: RoleUsage) {
    AbleV2(k) && u.explicitNumUses > 0 && u.explicitTerm <= 0
  }

  function Left(u: RoleUsage, n: nat): RoleUsage {
    u.(remainingNumUses := n)
  }

  function Holding(p: string, k: RoleKeys, u: RoleUsage): Heap {
    EMPTY_HEAP.(role := Some(InitialRole(p).(keys := k, usage := u)))
  }

  /** Slot `j` has read the record and goes no further for now. */
  ghost predicate HasRead(slot: Slot, p: string, r0: nat, k: RoleKeys, u: RoleUsage) {
    slot.Busy? && slot.req > r0 && slot.rest == V2_REST && slot.heap == Holding(p, k, u)
  }

  ghost predicate Stores(w: World, p: string, k: RoleKeys, u: RoleUsage) {
    KeysIn(w.store, p) == Is(k) && UsageIn(w.store, p) == Is(u)
  }

  /** A V2 request enters slot `j` and reads the role. */
  lemma Enter(env: Env, p: string, pool: Pool, j: nat, r0: nat, k: RoleKeys, u: RoleUsage) returns (moves: seq<Move>)
    requires (forall t: nat :: env.ok(t)) && j < |pool.slots| && pool.slots[j] == Idle && pool.w.req >= r0
    requires Stores(pool.w, p, k, u)
    ensures var after := TakeAll(env, p, pool, moves);
            && |after.slots| == |pool.slots| && after.slots == pool.slots[j := after.slots[j]]
            && HasRead(after.slots[j], p, r0, k, u)
            && after.w.store == pool.w.store && after.w.req >= pool.w.req
            && SpentSince(after.w.trace, p, r0) == SpentSince(pool.w.trace, p, r0)
  {
    var begun := Begun(env, p, pool, j);
    var w, steps := begun.w, [ReadRole(true)] + V2_REST;
    RoleIsRead(env, p, w, k, u);
    hide Apply, KeysIn, UsageIn, HandlerOf, StepsOf;
    assert w.(req := w.req) == w && steps[0] == ReadRole(true) && steps[1..] == V2_REST;
    moves := [Begin(j, CliV2(true)), Advance(j)];
    assert moves[1..] == [Advance(j)] && moves[1..][1..] == [];
    var read := Take(env, p, begun, Advance(j));
    assert TakeAll(env, p, begun, moves[1..]) == read;
    OneMore(w.trace, Loaded(w.req, p, k, u), p, r0);
    hide SpentSince;
  }

  lemma Begun(env: Env, p: string, pool: Pool, j: nat) returns (begun: Pool)
    requires j < |pool.slots| && pool.slots[j] == Idle
    ensures begun == Take(env, p, pool, Begin(j, CliV2(true)))
    ensures begun.w == pool.w.(req := pool.w.req + 1)
    ensures begun.slots == pool.slots[j := Busy(begun.w.req, [ReadRole(true)] + V2_REST, EMPTY_HEAP)]
  {
    begun := Take(env, p, pool, Begin(j, CliV2(true)));
    assert StepsOf(HandlerOf(CliV2(true))) == [ReadRole(true)] + V2_REST;
  }

  lemma RoleIsRead(env: Env, p: string, w: World, k: RoleKeys, u: RoleUsage)
    requires env.ok(w.tick) && env.ok(w.tick + 1) && Stores(w, p, k, u)
    ensures Apply(env, p, ReadRole(true), w, EMPTY_HEAP) == Go(w.Ticked(2).Log(Loaded(w.req, p, k, u)), Holding(p, k, u))
  {
    hide KeysIn, UsageIn;
  }

  function Advances(j: nat, n: nat): seq<Move> {
    if n == 0 then [] else [Advance(j)] + Advances(j, n - 1)
  }

  lemma Last(env: Env, p: string, pool: Pool, j: nat, n: nat)
    requires n > 0
    ensures TakeAll(env, p, pool, Advances(j, n)) == TakeAll(env, p, Take(env, p, pool, Advance(j)), Advances(j, n - 1))
  {
    assert Advances(j, n)[1..] == Advances(j, n - 1);
    hide Take;
  }

  /** A move in which only slot `j` changed, to `slot`, and `spent` units were spent. */
  ghost predicate Moved(pool: Pool, after: Pool, j: nat, slot: Slot, spent: nat, p: string, r0: nat) {
    && j < |pool.slots| && after.slots == pool.slots[j := slot] && after.w.req == pool.w.req
    && SpentSince(after.w.trace, p, r0) == SpentSince(pool.w.trace, p, r0) + spent
  }

  lemma MovedOn(a: Pool, b: Pool, c: Pool, j: nat, slot1: Slot, slot2: Slot, s1: nat, s2: nat, p: string, r0: nat)
    requires Moved(a, b, j, slot1, s1, p, r0) && Moved(b, c, j, slot2, s2, p, r0)
    ensures Moved(a, c, j, slot2, s1 + s2, p, r0)
  {
    hide SpentSince;
  }

  /** Advancing a slot by a transformer that lets it go on. */
  lemma GoesOn(env: Env, p: string, pool: Pool, j: nat, w': World, h': Heap, spent: nat, r0: nat)
    requires j < |pool.slots| && pool.slots[j].Busy? && pool.slots[j].rest != []
    requires Apply(env, p, pool.slots[j].rest[0], pool.w.(req := pool.slots[j].req), pool.slots[j].heap) == Go(w', h')
    requires SpentSince(w'.trace, p, r0) == SpentSince(pool.w.trace, p, r0) + spent
    ensures var after := Take(env, p, pool, Advance(j));
            && after.w == w'.(req := pool.w.req)
            && Moved(pool, after, j, Busy(pool.slots[j].req, pool.slots[j].rest[1..], h'), spent, p, r0)
  {
    hide Apply, SpentSince;
  }

  /** The gates that a V2 request is at let it pass on what it had read. */
  lemma GatesApplied(env: Env, p: string, w: World, k: RoleKeys, u: RoleUsage)
    requires CanSpend(k, u) && u.remainingNumUses > 0
    ensures Apply(env, p, BlockUsageExceedingLimits, w, Holding(p, k, u)) ==
            Go(w.Ticked(1).Log(Checked(w.req, p, w.tick)), Holding(p, k, u))
    ensures Apply(env, p, BlockIncapableOf(2), w, Holding(p, k, u)) == Go(w, Holding(p, k, u))
  {}

  lemma SpendApplied(env: Env, p: string, w: World, k: RoleKeys, u: RoleUsage)
    requires env.ok(w.tick) && CanSpend(k, u) && KeysIn(w.store, p) == Is(k)
    ensures var w' := w.Ticked(1).WithUsage(p, u.Reduced(), Spend);
            && Apply(env, p, DecreaseQuota, w, Holding(p, k, u)) == Go(w', Holding(p, k, u.Reduced()))
            && Stores(w', p, k, u.Reduced())
  {
    UsageReadBack(u.Reduced());
    hide EncodeUsage, DecodeUsage, DecodeKeys;
  }

  lemma PassGates(env: Env, p: string, pool: Pool, j: nat, r0: nat, k: RoleKeys, u: RoleUsage) returns (after: Pool)
    requires j < |pool.slots| && HasRead(pool.slots[j], p, r0, k, u) && CanSpend(k, u) && u.remainingNumUses > 0
    ensures after == Take(env, p, Take(env, p, pool, Advance(j)), Advance(j)) && after.w.store == pool.w.store
    ensures Moved(pool, after, j, Busy(pool.slots[j].req, V2_REST[2..], Holding(p, k, u)), 0, p, r0)
  {
    var req, h := pool.slots[j].req, Holding(p, k, u);
    var w0 := pool.w.(req := req);
    GatesApplied(env, p, w0, k, u);
    var w1 := w0.Ticked(1).Log(Checked(req, p, w0.tick));
    GatesApplied(env, p, w1, k, u);
    OneMore(pool.w.trace, Checked(req, p, pool.w.tick), p, r0);
    hide Apply, SpentSince, Take;
    GoesOn(env, p, pool, j, w1, h, 0, r0);
    var checked := Take(env, p, pool, Advance(j));
    assert V2_REST[1..][1..] == V2_REST[2..] && checked.w.(req := req) == w1;
    GoesOn(env, p, checked, j, w1, h, 0, r0);
    after := Take(env, p, checked, Advance(j));
    MovedOn(pool, checked, after, j, Busy(req, V2_REST[1..], h), Busy(req, V2_REST[2..], h), 0, 0, p, r0);
  }

  lemma WriteBack(env: Env, p: string, pool: Pool, j: nat, r0: nat, k: RoleKeys, u: RoleUsage) returns (after: Pool)
    requires (forall t: nat :: env.ok(t)) && j < |pool.slots| && CanSpend(k, u)
    requires pool.slots[j].Busy? && pool.slots[j].req > r0 && pool.slots[j].rest == V2_REST[2..]
    requires pool.slots[j].heap == Holding(p, k, u) && KeysIn(pool.w.store, p) == Is(k)
    ensures after == Take(env, p, pool, Advance(j)) && Stores(after.w, p, k, u.Reduced())
    ensures Moved(pool, after, j, Busy(pool.slots[j].req, V2_REST[3..], Holding(p, k, u.Reduced())), 1, p, r0)
  {
    var req := pool.slots[j].req;
    var w0 := pool.w.(req := req);
    SpendApplied(env, p, w0, k, u);
    assert V2_REST[2..][1..] == V2_REST[3..] && V2_REST[2..][0] == DecreaseQuota;
    OneMore(pool.w.trace, SavedUsage(req, p, u.Reduced(), Spend), p, r0);
    hide Apply, SpentSince, Take, KeysIn, UsageIn, CanSpend;
    GoesOn(env, p, pool, j, w0.Ticked(1).WithUsage(p, u.Reduced(), Spend), Holding(p, k, u.Reduced()), 1, r0);
    after := Take(env, p, pool, Advance(j));
  }

  lemma CallApplied(env: Env, p: string, w: World, h: Heap)
    requires h.role.Some?
    ensures var o := Apply(env, p, CallV2, w, h);
            && o.w == w.Ticked(1).Log(Performed(w.req, p, V2Call, w.tick)) && o.h.role == h.role
    ensures Apply(env, p, Render(Relayed), w, h) == Out(w, h, Respond(Relayed))
  {}

  lemma Call(env: Env, p: string, pool: Pool, j: nat, r0: nat) returns (slot: Slot)
    requires j < |pool.slots| && pool.slots[j].Busy? && pool.slots[j].rest == V2_REST[3..] && pool.slots[j].heap.role.Some?
    ensures Moved(pool, Take(env, p, pool, Advance(j)), j, slot, 0, p, r0)
    ensures Take(env, p, pool, Advance(j)).w.store == pool.w.store
    ensures slot.Busy? ==> slot.rest == [Render(Relayed)] && slot.heap.role.Some?
  {
    var w0, h := pool.w.(req := pool.slots[j].req), pool.slots[j].heap;
    assert V2_REST[3..] == [CallV2, Render(Relayed)] && V2_REST[3..][1..] == [Render(Relayed)];
    CallApplied(env, p, w0, h);
    OneMore(pool.w.trace, Performed(w0.req, p, V2Call, w0.tick), p, r0);
    hide Apply, SpentSince;
    slot := Take(env, p, pool, Advance(j)).slots[j];
  }

  lemma Depart(env: Env, p: string, pool: Pool, j: nat)
    requires j < |pool.slots|
    requires pool.slots[j].Busy? ==> pool.slots[j].rest == [Render(Relayed)] && pool.slots[j].heap.role.Some?
    ensures Take(env, p, pool, Advance(j)) == Pool(pool.w, pool.slots[j := Idle])
  {
    if pool.slots[j].Busy? {
      CallApplied(env, p, pool.w.(req := pool.slots[j].req), pool.slots[j].heap);
      hide Apply;
    }
  }

  /** The last two transformers: whatever the call answers, the slot is free after them. */
  lemma CallAndDepart(env: Env, p: string, pool: Pool, j: nat, r0: nat) returns (after: Pool)
    requires j < |pool.slots| && pool.slots[j].Busy? && pool.slots[j].rest == V2_REST[3..] && pool.slots[j].heap.role.Some?
    ensures after == Take(env, p, Take(env, p, pool, Advance(j)), Advance(j))
    ensures Moved(pool, after, j, Idle, 0, p, r0) && after.w.store == pool.w.store
  {
    hide Take, SpentSince;
    var called := Take(env, p, pool, Advance(j));
    var slot := Call(env, p, pool, j, r0);
    Depart(env, p, called, j);
    after := Take(env, p, called, Advance(j));
    MovedOn(pool, called, after, j, slot, Idle, 0, 0, p, r0);
  }

  /** The request in slot `j` goes on to its end: it passes the gates on what it had read, and spends. */
  lemma Leave(env: Env, p: string, pool: Pool, j: nat, r0: nat, k: RoleKeys, u: RoleUsage)
    requires (forall t: nat :: env.ok(t)) && j < |pool.slots| && HasRead(pool.slots[j], p, r0, k, u)
    requires CanSpend(k, u) && u.remainingNumUses > 0 && KeysIn(pool.w.store, p) == Is(k)
    ensures var after := TakeAll(env, p, pool, Advances(j, 5));
            Moved(pool, after, j, Idle, 1, p, r0) && Stores(after.w, p, k, u.Reduced())
  {
    hide Take, TakeAll, SpentSince, UsageIn, KeysIn, CanSpend;
    var req := pool.slots[j].req;
    var gated, spent := Busy(req, V2_REST[2..], Holding(p, k, u)), Busy(req, V2_REST[3..], Holding(p, k, u.Reduced()));
    var p2 := PassGates(env, p, pool, j, r0, k, u);
    var p3 := WriteBack(env, p, p2, j, r0, k, u);
    var p5 := CallAndDepart(env, p, p3, j, r0);
    FiveTurns(env, p, pool, j);
    hide Moved, HasRead;
    MovedOn(pool, p2, p3, j, gated, spent, 0, 1, p, r0);
    MovedOn(pool, p3, p5, j, spent, Idle, 1, 0, p, r0);
  }

  lemma FiveTurns(env: Env, p: string, pool: Pool, j: nat)
    ensures var two := Take(env, p, Take(env, p, pool, Advance(j)), Advance(j));
            TakeAll(env, p, pool, Advances(j, 5)) ==
            Take(env, p, Take(env, p, Take(env, p, two, Advance(j)), Advance(j)), Advance(j))
  {
    hide Take;
    var p1 := Take(env, p, pool, Advance(j));
    var p2 := Take(env, p, p1, Advance(j));
    var p3 := Take(env, p, p2, Advance(j));
    Last(env, p, pool, j, 5);
    Last(env, p, p1, j, 4);
    Last(env, p, p2, j, 3);
    Last(env, p, p3, j, 2);
    Last(env, p, Take(env, p, p3, Advance(j)), j, 1);
  }

  lemma {:induction false} TakeInTurn(env: Env, p: string, pool: Pool, a: seq<Move>, b: seq<Move>)
    ensures TakeAll(env, p, pool, a + b) == TakeAll(env, p, TakeAll(env, p, pool, a), b)
    decreases |a|
  {
    hide Take;
    if a == [] { assert a + b == b; }
    else {
      assert (a + b)[1..] == a[1..] + b;
      TakeInTurn(env, p, Take(env, p, pool, a[0]), a[1..], b);
    }
  }

  /** The first `n` slots are empty, or, while a unit is left, all hold a record with `s` units left. */
  ghost predicate Ready(pool: Pool, p: string, r0: nat, n: nat, s: nat, k: RoleKeys, u: RoleUsage) {
    && n <= |pool.slots| && pool.w.req >= r0 && KeysIn(pool.w.store, p) == Is(k)
    && forall i :: 0 <= i < n ==> if s == 0 then pool.slots[i] == Idle else HasRead(pool.slots[i], p, r0, k, Left(u, s))
  }

  /** From `pool` to `after` the first `n` slots were freed, the others left alone, and `spent` units spent. */
  ghost predicate Cleared(pool: Pool, after: Pool, p: string, r0: nat, n: nat, spent: int, k: RoleKeys) {
    && |after.slots| == |pool.slots| && after.w.req >= r0 && KeysIn(after.w.store, p) == Is(k)
    && (forall i :: 0 <= i < |pool.slots| ==> after.slots[i] == if i < n then Idle else pool.slots[i])
    && SpentSince(after.w.trace, p, r0) == SpentSince(pool.w.trace, p, r0) + spent
  }

  lemma {:induction false} EnterAll(env: Env, p: string, pool: Pool, n: nat, r0: nat, k: RoleKeys, u: RoleUsage)
    returns (moves: seq<Move>)
    requires (forall t: nat :: env.ok(t)) && n <= |pool.slots| && pool.w.req >= r0 && Stores(pool.w, p, k, u)
    requires forall i :: 0 <= i < n ==> pool.slots[i] == Idle
    ensures var after := TakeAll(env, p, pool, moves);
            && |after.slots| == |pool.slots| && after.w.store == pool.w.store && after.w.req >= pool.w.req
            && (forall i :: 0 <= i < n ==> HasRead(after.slots[i], p, r0, k, u))
            && (forall i :: n <= i < |pool.slots| ==> after.slots[i] == pool.slots[i])
            && SpentSince(after.w.trace, p, r0) == SpentSince(pool.w.trace, p, r0)
  {
    hide Take, SpentSince, UsageIn, KeysIn, HasRead;
    moves := [];
    if n > 0 {
      var first := EnterAll(env, p, pool, n - 1, r0, k, u);
      var mid := TakeAll(env, p, pool, first);
      var last := Enter(env, p, mid, n - 1, r0, k, u);
      TakeInTurn(env, p, pool, first, last);
      moves := first + last;
    }
  }

  /** The worst schedule: the slots below finish first, then slot `n - 1` puts its old value back, and all of them
      start over from there. */
  lemma {:induction false} Squander(env: Env, p: string, pool: Pool, n: nat, s: nat, r0: nat, k: RoleKeys, u: RoleUsage)
    returns (moves: seq<Move>)
    requires (forall t: nat :: env.ok(t)) && CanSpend(k, u) && Ready(pool, p, r0, n, s, k, u)
    ensures Cleared(pool, TakeAll(env, p, pool, moves), p, r0, n, WorstCase(n, s), k)
    decreases n + s, 0
  {
    moves := [];
    if n > 0 && s > 0 {
      moves := SquanderStep(env, p, pool, n, s, r0, k, u);
    } else if n == 0 && s > 0 {
      ChooseAll(s);
    }
  }

  lemma {:induction false} ChooseAll(s: nat)
    ensures Choose(s, s) == 1
  {
    if s > 0 { ChooseAll(s - 1); ChooseNone(s - 1, s); }
  }

  lemma SquanderStep(env: Env, p: string, pool: Pool, n: nat, s: nat, r0: nat, k: RoleKeys, u: RoleUsage)
    returns (moves: seq<Move>)
    requires n > 0 && s > 0
    requires (forall t: nat :: env.ok(t)) && CanSpend(k, u) && Ready(pool, p, r0, n, s, k, u)
    ensures Cleared(pool, TakeAll(env, p, pool, moves), p, r0, n, WorstCase(n, s), k)
    decreases n + s - 1, 2
  {
    hide Take, TakeAll, SpentSince, UsageIn, KeysIn, HasRead, Cleared, WorstCase, CanSpend;
    var j := n - 1;
    var m1 := Lower(env, p, pool, n, s, r0, k, u);
    var p1 := TakeAll(env, p, pool, m1);
    Leave(env, p, p1, j, r0, k, Left(u, s));
    var m2 := Advances(j, 5);
    var p2 := TakeAll(env, p, p1, m2);
    FreedOne(pool, p1, p2, p, r0, n, WorstCase(j, s), k);
    var m3 := Refill(env, p, pool, p2, n, s, WorstCase(j, s) + 1, r0, k, u);
    var p3 := TakeAll(env, p, p2, m3);
    var m4 := Squander(env, p, p3, n, s - 1, r0, k, u);
    StartedOver(pool, p2, p3, TakeAll(env, p, p3, m4), p, r0, n, WorstCase(j, s) + 1, WorstCase(n, s - 1), k);
    TakeInTurn(env, p, pool, m1, m2 + (m3 + m4));
    TakeInTurn(env, p, p1, m2, m3 + m4);
    TakeInTurn(env, p, p2, m3, m4);
    moves := m1 + (m2 + (m3 + m4));
    WorstCaseAddsUp(n, s);
  }

  lemma WorstCaseAddsUp(n: nat, s: nat)
    requires n > 0 && s > 0
    ensures WorstCase(n, s) == WorstCase(n - 1, s) + 1 + WorstCase(n, s - 1)
  {}

  /** The slots below the last finish first; the last one still holds what it read. */
  lemma Lower(env: Env, p: string, pool: Pool, n: nat, s: nat, r0: nat, k: RoleKeys, u: RoleUsage) returns (moves: seq<Move>)
    requires n > 0 && s > 0
    requires (forall t: nat :: env.ok(t)) && CanSpend(k, u) && Ready(pool, p, r0, n, s, k, u)
    ensures var p1 := TakeAll(env, p, pool, moves);
            && Cleared(pool, p1, p, r0, n - 1, WorstCase(n - 1, s), k)
            && n - 1 < |p1.slots| && HasRead(p1.slots[n - 1], p, r0, k, Left(u, s)) && KeysIn(p1.w.store, p) == Is(k)
            && CanSpend(k, Left(u, s)) && Left(u, s).remainingNumUses > 0
    decreases n + s - 1, 1
  {
    hide TakeAll, SpentSince, UsageIn, KeysIn, HasRead, WorstCase;
    assert Ready(pool, p, r0, n - 1, s, k, u);
    moves := Squander(env, p, pool, n - 1, s, r0, k, u);
  }

  /** Slot `n - 1` finishes too. */
  lemma FreedOne(pool: Pool, p1: Pool, p2: Pool, p: string, r0: nat, n: nat, spent: int, k: RoleKeys)
    requires 0 < n <= |p1.slots| && Cleared(pool, p1, p, r0, n - 1, spent, k) && Moved(p1, p2, n - 1, Idle, 1, p, r0)
    requires KeysIn(p2.w.store, p) == Is(k)
    ensures Cleared(pool, p2, p, r0, n, spent + 1, k)
  {
    hide KeysIn, SpentSince;
  }

  /** All the freed slots read the record anew, while it has a unit left. */
  lemma Refill(env: Env, p: string, pool: Pool, p2: Pool, n: nat, s: nat, spent: int, r0: nat, k: RoleKeys, u: RoleUsage)
    returns (moves: seq<Move>)
    requires s > 0 && (forall t: nat :: env.ok(t)) && n <= |pool.slots| && Cleared(pool, p2, p, r0, n, spent, k)
    requires Stores(p2.w, p, k, Left(u, s).Reduced())
    ensures var p3 := TakeAll(env, p, p2, moves);
            && Ready(p3, p, r0, n, s - 1, k, u) && |p3.slots| == |p2.slots|
            && (forall i :: n <= i < |p2.slots| ==> p3.slots[i] == p2.slots[i])
            && SpentSince(p3.w.trace, p, r0) == SpentSince(p2.w.trace, p, r0)
  {
    assert Left(u, s).Reduced() == Left(u, s - 1);
    hide Take, SpentSince, UsageIn, KeysIn, HasRead;
    moves := [];
    if s > 1 { moves := EnterAll(env, p, p2, n, r0, k, Left(u, s - 1)); }
  }

  lemma StartedOver(pool: Pool, p2: Pool, p3: Pool, p4: Pool, p: string, r0: nat, n: nat, a: int, b: int, k: RoleKeys)
    requires Cleared(pool, p2, p, r0, n, a, k) && Cleared(p3, p4, p, r0, n, b, k)
    requires |p3.slots| == |p2.slots| && (forall i :: n <= i < |p2.slots| ==> p3.slots[i] == p2.slots[i])
    requires SpentSince(p3.w.trace, p, r0) == SpentSince(p2.w.trace, p, r0)
    ensures Cleared(pool, p4, p, r0, n, a + b, k)
  {
    hide KeysIn, SpentSince;
  }

  /** The bound is exact: for every number of slots and every remaining quota some schedule, in which nothing fails,
      spends all of it. */
  lemma WorstCaseIsReached(env: Env, p: string, pool: Pool, k: RoleKeys, u: RoleUsage) returns (moves: seq<Move>)
    requires (forall t: nat :: env.ok(t)) && AllIdle(pool) && Stores(pool.w, p, k, u) && CanSpend(k, u) && u.remainingNumUses >= 0
    requires forall e <- pool.w.trace :: e.req <= pool.w.req
    ensures SpentSince(TakeAll(env, p, pool, moves).w.trace, p, pool.w.req) == WorstCase(|pool.slots|, u.remainingNumUses)
  {
    var r0, n, s := pool.w.req, |pool.slots|, u.remainingNumUses;
    NothingSince(pool.w.trace, p, r0);
    var m1: seq<Move> := [];
    if s > 0 { m1 := EnterAll(env, p, pool, n, r0, k, u); }
    var p1 := TakeAll(env, p, pool, m1);
    assert Left(u, s) == u;
    hide Take, SpentSince, UsageIn, KeysIn, HasRead, CanSpend;
    var m2 := Squander(env, p, p1, n, s, r0, k, u);
    TakeInTurn(env, p, pool, m1, m2);
    moves := m1 + m2;
  }

  // ---- one slot ----

  lemma SpenderIsFlat(env: Env, p: string, op: Op, w: World)
    requires IsSpender(op)
    ensures RunHandler(env, p, HandlerOf(op), w).w == RunSteps(env, p, StepsOf(HandlerOf(op)), w, EMPTY_HEAP).w
    ensures RunHandler(env, p, HandlerOf(op), w).reply == RunSteps(env, p, StepsOf(HandlerOf(op)), w, EMPTY_HEAP).reply
  {
    var handler := HandlerOf(op);
    if handler.Nested? {
      assert forall s <- handler.parent :: CarriesOnlyRole(s);
      NestedIsFlat(env, p, handler.parent, handler.child, w);
    }
    hide RunSteps, HandlerOf, RunHandler;
  }

  lemma {:induction false} AdvancesRunTheChain(env: Env, p: string, pool: Pool)
    requires |pool.slots| == 1 && pool.slots[0].Busy? && pool.slots[0].req == pool.w.req
    ensures TakeAll(env, p, pool, Advances(0, |pool.slots[0].rest| + 1)) ==
            Pool(RunSteps(env, p, pool.slots[0].rest, pool.w, pool.slots[0].heap).w, [Idle])
    decreases |pool.slots[0].rest|
  {
    var Busy(req, rest, heap) := pool.slots[0];
    Last(env, p, pool, 0, |rest| + 1);
    var next := Take(env, p, pool, Advance(0));
    assert pool.w.(req := req) == pool.w;
    if rest != [] {
      ReqStays(env, p, rest[0], pool.w, heap);
      hide Apply;
      if next.slots[0].Busy? { AdvancesRunTheChain(env, p, next); } else { IdleStays(env, p, next, |rest|); }
    } else {
      assert Advances(0, 0) == [];
    }
  }

  lemma ReqStays(env: Env, p: string, s: Step, w: World, h: Heap)
    ensures Apply(env, p, s, w, h).w.req == w.req
  {
    StepIsWithin(env, p, s, w, h);
    WithinMeans(env, p, [s], w, Apply(env, p, s, w, h).w);
    hide Within, Apply;
  }

  lemma {:induction false} IdleStays(env: Env, p: string, pool: Pool, n: nat)
    requires |pool.slots| == 1 && pool.slots[0] == Idle
    ensures TakeAll(env, p, pool, Advances(0, n)) == pool
  {
    if n > 0 {
      Last(env, p, pool, 0, n);
      IdleStays(env, p, pool, n - 1);
    }
  }

  /** With one slot there is nothing to interleave: a request that is begun and advanced to its end does exactly what
      it does in a serial run. */
  lemma OneSlotIsSerial(env: Env, w: World, r: Request)
    requires IsSpender(r.op) && Preflight(w.live, r.op) == None
    ensures var n := |StepsOf(HandlerOf(r.op))| + 1;
            TakeAll(env, r.role, Pool(w, [Idle]), [Begin(0, r.op)] + Advances(0, n)) ==
            Pool(RunRequest(env, w, r).0, [Idle])
  {
    var w0, steps := w.(req := w.req + 1), StepsOf(HandlerOf(r.op));
    var begun := Take(env, r.role, Pool(w, [Idle]), Begin(0, r.op));
    assert begun == Pool(w0, [Busy(w0.req, steps, EMPTY_HEAP)]);
    SpenderIsFlat(env, r.role, r.op, w0);
    hide HandlerOf, RunHandler, RunSteps, Apply, StepsOf;
    AdvancesRunTheChain(env, r.role, begun);
    assert ([Begin(0, r.op)] + Advances(0, |steps| + 1))[1..] == Advances(0, |steps| + 1);
  }
}
