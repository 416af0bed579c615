/** The flow analysis of a whole program.

    Modelled on scripts/graph_projection_boundary_provenance.py, `visit`.  */
module FlowProgram {
  import opened FlowAnalysis
  import opened FlowClaims
  import opened FlowCollector
  import opened FlowEvaluator
  import opened FlowPrecision

  /** From a state that knows nothing, there is a fact for exactly the positions where on
      some control path a node may yield a projection. */
  method CollectFactsOf(program: seq<Stmt>) returns (facts: Facts)
    ensures facts == EvalBlock(program, EMPTY_STATE).facts
    ensures forall pos: nat :: pos in facts <==> HoldsOne(EMPTY_STATE, BeforeBlock(program, Fact(pos)))
  {
    var evaluator := new Evaluator();
    var o := evaluator.EvaluateBlock(program, EMPTY_STATE);
    facts := evaluator.collector.facts;
    forall pos: nat
      ensures pos in facts <==> HoldsOne(EMPTY_STATE, BeforeBlock(program, Fact(pos)))
    {
      FactsAreExact(program, EMPTY_STATE, pos);
    }
  }
}
