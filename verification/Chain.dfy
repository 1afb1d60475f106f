/** Chains of responsibility: the flat chain, the runner, and the nested runner over two heaps. */
module Chain {
  import opened Records

  /** A transformer returns a response, an error, both or neither; only neither lets the chain go on. */
  datatype Answer<+R, +E> = Answer(response: Option<R>, error: Option<E>) {
    predicate Stops() {
      response.Some? || error.Some?
    }
  }

  /** A transformer acts on the request context, that is on the shared plugin state and its own heap. */
  type Transformer<!S, R, E> = S -> (S, Answer<R, E>)

  function RunChain<S, R, E>(fs: seq<Transformer<S, R, E>>, s: S): (S, Answer<R, E>) {
    if fs == [] then (s, Answer(None, None))
    else
      var (s1, a) := fs[0](s);
      if a.Stops() then (s1, a) else RunChain(fs[1..], s1)
  }

  /** A chain built from two lists is the first chain followed, unless it stopped, by the second. */
  lemma {:induction false} RunConcat<S, R, E>(fs: seq<Transformer<S, R, E>>, gs: seq<Transformer<S, R, E>>, s: S)
    ensures RunChain(fs + gs, s) == (var (s1, a) := RunChain(fs, s); if a.Stops() then (s1, a) else RunChain(gs, s1))
  {
    if fs == [] {
      assert fs + gs == gs;
    } else {
      assert (fs + gs)[1..] == fs[1..] + gs;
      RunConcat(fs[1..], gs, fs[0](s).0);
    }
  }

  /** A stopped chain ran a prefix whose transformers all let it go on, and its answer is that of the next one. */
  lemma {:induction false} RunStopsAtFirst<S, R, E>(fs: seq<Transformer<S, R, E>>, s: S) returns (n: nat)
    requires RunChain(fs, s).1.Stops()
    ensures n < |fs| && !RunChain(fs[..n], s).1.Stops()
    ensures RunChain(fs, s) == fs[n](RunChain(fs[..n], s).0)
  {
    var (s1, a) := fs[0](s);
    if a.Stops() {
      n := 0;
    } else {
      var m := RunStopsAtFirst(fs[1..], s1);
      n := m + 1;
      assert fs[..n] == [fs[0]] + fs[1..][..m];
      assert fs[..n][1..] == fs[1..][..m];
    }
  }

  method SimpleChain<S, R, E>(subsequent: seq<Transformer<S, R, E>>, s: S) returns (s': S, a: Answer<R, E>)
    ensures (s', a) == RunChain(subsequent, s)
  {
    s' := s;
    for i := 0 to |subsequent|
      invariant RunChain(subsequent, s) == RunChain(subsequent[i..], s')
    {
      assert subsequent[i..][1..] == subsequent[i + 1..];
      s', a := subsequent[i](s').0, subsequent[i](s').1;
      if a.error.Some? || a.response.Some? { return; }
    }
    a := Answer(None, None);
  }

  /** `Tail(f, fs)` is `SimpleChain(f, fs...)`. */
  method Tail<S, R, E>(f1: Transformer<S, R, E>, subsequent: seq<Transformer<S, R, E>>, s: S)
    returns (s': S, a: Answer<R, E>)
    ensures (s', a) == RunChain([f1] + subsequent, s)
  {
    s', a := f1(s).0, f1(s).1;
    assert ([f1] + subsequent)[1..] == subsequent;
    if a.Stops() { return; }
    for i := 0 to |subsequent|
      invariant !a.Stops()
      invariant RunChain([f1] + subsequent, s) == RunChain(subsequent[i..], s')
    {
      assert subsequent[i..][1..] == subsequent[i + 1..];
      s', a := subsequent[i](s').0, subsequent[i](s').1;
      if a.Stops() { break; }
    }
    if !a.Stops() { assert a == Answer(None, None); }
  }

  class SimpleRunner<!S, R, E> {
    var f: seq<Transformer<S, R, E>>

    constructor ()
      ensures f == []
    {
      f := [];
    }

    method Append(subsequent: seq<Transformer<S, R, E>>)
      modifies this
      ensures f == old(f) + subsequent
    {
      f := f + subsequent;
    }

    method Run(s: S) returns (s': S, a: Answer<R, E>)
      ensures (s', a) == RunChain(f, s)
    {
      s', a := SimpleChain(f, s);
    }
  }

  /** The context of a child runner is (shared state, child heap); the parent sees (shared state, parent heap). */
  function MappingRun<P, A, B, R, E>(
    parent: seq<Transformer<(P, A), R, E>>, exporter: B -> A, importer: Option<(A, B) -> B>,
    child: seq<Transformer<(P, B), R, E>>, s: (P, B)): ((P, B), Answer<R, E>)
  {
    var ((p, a), r) := RunChain(parent, (s.0, exporter(s.1)));
    if r.Stops() then ((p, s.1), r)
    else RunChain(child, (p, if importer.Some? then importer.value(a, s.1) else s.1))
  }

  class MappingRunner<!P, !A, !B, R, E> {
    const parent: SimpleRunner<(P, A), R, E>
    const child: SimpleRunner<(P, B), R, E>
    const exporter: B -> A
    const importer: Option<(A, B) -> B>

    constructor (parent: SimpleRunner<(P, A), R, E>, exporter: B -> A, importer: Option<(A, B) -> B>)
      ensures this.parent == parent && this.exporter == exporter && this.importer == importer
      ensures fresh(child) && child.f == []
    {
      this.parent := parent;
      this.exporter := exporter;
      this.importer := importer;
      child := new SimpleRunner();
    }

    method Run(s: (P, B)) returns (s': (P, B), r: Answer<R, E>)
      ensures (s', r) == MappingRun(parent.f, exporter, importer, child.f, s)
    {
      var heap := exporter(s.1);
      var mapped: (P, A);
      mapped, r := parent.Run((s.0, heap));
      if r.Stops() { return (mapped.0, s.1), r; }
      var own := s.1;
      if importer.Some? { own := importer.value(mapped.1, own); }
      s', r := child.Run((mapped.0, own));
    }
  }

  /** A parent transformer acting on the part of the child's heap that both heaps hold. */
  function Lift<P, A, B, R, E>(f: Transformer<(P, A), R, E>, get: B -> A, put: (A, B) -> B): Transformer<(P, B), R, E> {
    (s: (P, B)) =>
      var ((p, a), r) := f((s.0, get(s.1)));
      ((p, put(a, s.1)), r)
  }

  function LiftAll<P, A, B, R, E>(
    fs: seq<Transformer<(P, A), R, E>>, get: B -> A, put: (A, B) -> B): (lifted: seq<Transformer<(P, B), R, E>>)
    ensures |lifted| == |fs|
  {
    if fs == [] then [] else [Lift(fs[0], get, put)] + LiftAll(fs[1..], get, put)
  }

  /** `get` and `put` read and replace one part of the heap. */
  ghost predicate IsPart<A(!new), B(!new)>(get: B -> A, put: (A, B) -> B) {
    && (forall a, b :: get(put(a, b)) == a)
    && (forall b :: put(get(b), b) == b)
    && (forall a, a', b :: put(a', put(a, b)) == put(a', b))
  }

  lemma {:induction false} LiftedRun<P, A(!new), B(!new), R, E>(
    fs: seq<Transformer<(P, A), R, E>>, get: B -> A, put: (A, B) -> B, p: P, b: B)
    requires IsPart(get, put)
    ensures RunChain(LiftAll(fs, get, put), (p, b)) ==
            (var ((p', a'), r) := RunChain(fs, (p, get(b))); ((p', put(a', b)), r))
  {
    if fs != [] {
      var ((p1, a1), r) := fs[0]((p, get(b)));
      assert LiftAll(fs, get, put)[0]((p, b)) == ((p1, put(a1, b)), r);
      if !r.Stops() {
        assert LiftAll(fs, get, put)[1..] == LiftAll(fs[1..], get, put);
        assert get(put(a1, b)) == a1;
        LiftedRun(fs[1..], get, put, p1, put(a1, b));
        var ((p2, a2), r2) := RunChain(fs[1..], (p1, a1));
        assert put(a2, put(a1, b)) == put(a2, b);
      }
    }
  }

  /** The nested runner is the flat chain of the lifted parent transformers and the child's: same answer and same
      shared state always, and the same heap unless the parent stopped, when the nested child heap stays as it was. */
  lemma NestedRefinesFlat<P, A(!new), B(!new), R, E>(
    parent: seq<Transformer<(P, A), R, E>>, child: seq<Transformer<(P, B), R, E>>,
    exporter: B -> A, get: B -> A, put: (A, B) -> B, s: (P, B))
    requires IsPart(get, put) && exporter(s.1) == get(s.1)
    ensures var nested := MappingRun(parent, exporter, Some(put), child, s);
            var flat := RunChain(LiftAll(parent, get, put) + child, s);
            && nested.1 == flat.1 && nested.0.0 == flat.0.0
            && (nested.0.1 == flat.0.1 || (RunChain(parent, (s.0, get(s.1))).1.Stops() && nested.0.1 == s.1))
  {
    LiftedRun(parent, get, put, s.0, s.1);
    RunConcat(LiftAll(parent, get, put), child, s);
  }

  /** Starting the parent from a heap that agrees with the child's is exactly what the refinement takes: with any
      other exporter some parent list answers differently when run flat. */
  lemma RefinesIffExporterAgrees<P, A(!new), B(!new), R, E>(
    exporter: B -> A, get: B -> A, put: (A, B) -> B, s: (P, B), response: R)
    requires IsPart(get, put)
    ensures exporter(s.1) == get(s.1) <==>
            forall parent: seq<Transformer<(P, A), R, E>>, child: seq<Transformer<(P, B), R, E>> ::
              MappingRun(parent, exporter, Some(put), child, s).1 == RunChain(LiftAll(parent, get, put) + child, s).1
  {
    if exporter(s.1) == get(s.1) {
      forall parent: seq<Transformer<(P, A), R, E>>, child: seq<Transformer<(P, B), R, E>>
        ensures MappingRun(parent, exporter, Some(put), child, s).1 == RunChain(LiftAll(parent, get, put) + child, s).1
      {
        NestedRefinesFlat(parent, child, exporter, get, put, s);
      }
    } else {
      var mine := exporter(s.1);
      var probe: Transformer<(P, A), R, E> :=
        (c: (P, A)) => (c, if c.1 == mine then Answer(Some(response), None) else Answer(None, None));
      var parent, child := [probe], [];
      LiftedRun<P, A, B, R, E>(parent, get, put, s.0, s.1);
      assert LiftAll(parent, get, put) + child == LiftAll(parent, get, put);
      assert RunChain(parent, (s.0, mine)).1.Stops();
      assert RunChain(parent[1..], (s.0, get(s.1))).1 == Answer<R, E>.Answer(None, None);
      assert MappingRun<P, A, B, R, E>(parent, exporter, Some(put), child, s).1 !=
             RunChain(LiftAll(parent, get, put) + child, s).1;
    }
  }
}
