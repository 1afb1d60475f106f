/** The engine's chains are chains of responsibility, and its nested handlers are mapping runners. */
module Runners {
  import opened Records
  import opened Chain
  import opened Engine

  type EngineTransformer = Transformer<(World, Heap), Reply, ()>

  /** A reply as what a transformer returns: a response, an error, or neither. */
  function AnswerOf(reply: Reply): Answer<Reply, ()> {
    match reply
    case Continue => Answer(None, None)
    case Fail => Answer(None, Some(()))
    case _ => Answer(Some(reply), None)
  }

  function AsTransformer(env: Env, p: string, s: Step): EngineTransformer {
    (c: (World, Heap)) => var o := Apply(env, p, s, c.0, c.1); ((o.w, o.h), AnswerOf(o.reply))
  }

  function AsTransformers(env: Env, p: string, steps: seq<Step>): (fs: seq<EngineTransformer>)
    ensures |fs| == |steps|
  {
    if steps == [] then [] else [AsTransformer(env, p, steps[0])] + AsTransformers(env, p, steps[1..])
  }

  lemma {:induction false} StepsAreAChain(env: Env, p: string, steps: seq<Step>, w: World, h: Heap)
    ensures var o := RunSteps(env, p, steps, w, h);
            RunChain(AsTransformers(env, p, steps), (w, h)) == ((o.w, o.h), AnswerOf(o.reply))
    decreases |steps|
  {
    hide Apply;
    if steps != [] {
      var o := Apply(env, p, steps[0], w, h);
      assert AsTransformers(env, p, steps)[0]((w, h)) == ((o.w, o.h), AnswerOf(o.reply));
      assert AsTransformers(env, p, steps)[1..] == AsTransformers(env, p, steps[1..]);
      if o.reply == Continue { StepsAreAChain(env, p, steps[1..], o.w, o.h); }
    }
  }

  /** The exporter of every nested handler hands the parent a container of its own; the importer carries the role. */
  function NewContainer(h: Heap): Heap {
    EMPTY_HEAP
  }

  function CarryRole(parent: Heap, own: Heap): Heap {
    own.(role := parent.role)
  }

  lemma NestedHandlersAreMappingRuns(env: Env, p: string, parent: seq<Step>, child: seq<Step>, w: World)
    ensures var o := RunHandler(env, p, Nested(parent, child), w);
            MappingRun(AsTransformers(env, p, parent), NewContainer, Some(CarryRole),
                       AsTransformers(env, p, child), (w, EMPTY_HEAP)) ==
            ((o.w, o.h), AnswerOf(o.reply))
  {
    StepsAreAChain(env, p, parent, w, EMPTY_HEAP);
    var o := RunSteps(env, p, parent, w, EMPTY_HEAP);
    StepsAreAChain(env, p, child, o.w, CarryRole(o.h, EMPTY_HEAP));
    hide RunSteps, AsTransformers, RunChain;
  }
}
