/** The local shape inference that Prepare runs: an inference context with
    one input slot per input handle, the pure outcome of the whole
    preparation, and the facts about that outcome. */
module ShapeInference {
  import opened Status
  import opened Handles
  import opened OpLookup

  /** The inference context: input shape slots, bound one by one, and the
      output shapes produced by running a shape function. */
  class InferenceContext {
    const nodeDef: NodeDef
    const opDef: OpDef
    var inputs: seq<Shape>
    var outputs: seq<Shape>

    /** The context starts with numInputs unknown input shapes and no outputs. */
    constructor (nodeDef: NodeDef, opDef: OpDef, numInputs: nat)
      ensures this.nodeDef == nodeDef && this.opDef == opDef
      ensures |inputs| == numInputs && forall i :: 0 <= i < numInputs ==> inputs[i] == UnknownShape
      ensures outputs == []
    {
      this.nodeDef := nodeDef;
      this.opDef := opDef;
      inputs := seq(numInputs, _ => UnknownShape);
      outputs := [];
    }

    method SetInput(i: nat, shape: Shape)
      requires i < |inputs|
      modifies this
      ensures inputs == old(inputs)[i := shape] && outputs == old(outputs)
    {
      inputs := inputs[i := shape];
    }

    /** Runs a shape function on the bound inputs; on success its shapes become the outputs. */
    method Run(fn: ShapeFn) returns (s: Status)
      modifies this
      ensures inputs == old(inputs)
      ensures s == StatusOf(fn(nodeDef, inputs))
      ensures s.Ok? ==> outputs == fn(nodeDef, inputs).value
      ensures s.Error? ==> outputs == old(outputs)
    {
      var r := fn(nodeDef, inputs);
      if r.Success? {
        outputs := r.value;
      }
      s := StatusOf(r);
    }
  }

  /** Binds the answers of the input handles to the input slots in order:
      the first failing answer is the result, otherwise slot i holds answer i. */
  function BindInputs(queries: seq<Result<Shape>>): (r: Result<seq<Shape>>)
    ensures r.Success? <==> forall i :: 0 <= i < |queries| ==> queries[i].Success?
    ensures r.Success? ==> |r.value| == |queries|
    ensures r.Success? ==> forall i :: 0 <= i < |queries| ==> queries[i] == Success(r.value[i])
    ensures r.Failure? ==> exists k :: (0 <= k < |queries| && queries[k] == Failure(r.error) &&
                                        forall j :: 0 <= j < k ==> queries[j].Success?)
  {
    if |queries| == 0 then Success([])
    else
      match queries[0]
      case Failure(e) => Failure(e)
      case Success(shape) =>
        match BindInputs(queries[1..])
        case Failure(e) =>
          assert forall j :: 1 <= j < |queries| ==> queries[j] == queries[1..][j - 1];
          Failure(e)
        case Success(rest) => Success([shape] + rest)
  }

  /** The error BindInputs reports is the answer of the earliest failing handle. */
  lemma {:induction false} BindInputsFirstError(queries: seq<Result<Shape>>, k: nat)
    requires k < |queries| && queries[k].Failure?
    requires forall j :: 0 <= j < k ==> queries[j].Success?
    ensures BindInputs(queries) == Failure(queries[k].error)
  {
  }

  /** Op resolution, input binding and the shape function, each stopping at
      its first error: an op in neither registry is NotFound; otherwise, once
      every input handle answers, the result is that of the op's own shape
      function, the library's when the library defines the op and the global
      registry's only when it does not. */
  function InferOutputs(lib: OpTable, global: OpTable, nodeDef: NodeDef,
                        queries: seq<Result<Shape>>): (r: Result<seq<Shape>>)
    ensures nodeDef.op !in lib && nodeDef.op !in global ==> r.Failure? && r.error.code == NotFound
    ensures r.Success? ==> (nodeDef.op in lib || nodeDef.op in global) &&
                           forall i :: 0 <= i < |queries| ==> queries[i].Success?
    ensures (forall i :: 0 <= i < |queries| ==> queries[i].Success?) && nodeDef.op in lib ==>
              r == lib[nodeDef.op].shapeInferenceFn(nodeDef, BindInputs(queries).value)
    ensures (forall i :: 0 <= i < |queries| ==> queries[i].Success?) && nodeDef.op !in lib && nodeDef.op in global ==>
              r == global[nodeDef.op].shapeInferenceFn(nodeDef, BindInputs(queries).value)
  {
    var reg :- LookUpOp(lib, global, nodeDef.op);
    var shapes :- BindInputs(queries);
    reg.shapeInferenceFn(nodeDef, shapes)
  }

  /** What Prepare computes: no outputs means success with nothing to infer;
      otherwise the inferred output shapes, or the first error met on the way,
      so that a failure always comes from a node with outputs. */
  function PrepareOutcome(numRetvals: nat, lib: OpTable, global: OpTable, nodeDef: NodeDef,
                          queries: seq<Result<Shape>>): (r: Result<seq<Shape>>)
    ensures numRetvals == 0 ==> r == Success([])
    ensures r.Failure? ==> numRetvals > 0 && r == InferOutputs(lib, global, nodeDef, queries)
  {
    if numRetvals == 0 then Success([]) else InferOutputs(lib, global, nodeDef, queries)
  }

  /** The arity check of Prepare: whenever the shape function succeeds on a
      node that has outputs, it yields exactly one shape per output. */
  predicate ArityMatches(numRetvals: nat, lib: OpTable, global: OpTable, nodeDef: NodeDef,
                         queries: seq<Result<Shape>>)
  {
    var r := PrepareOutcome(numRetvals, lib, global, nodeDef, queries);
    r.Success? ==> |r.value| == numRetvals
  }

  /** With no outputs, preparation succeeds without consulting either
      registry, the input handles or any shape function. */
  lemma PrepareWithoutOutputsIgnoresCollaborators(lib: OpTable, global: OpTable, nodeDef: NodeDef,
                                                  queries: seq<Result<Shape>>, lib': OpTable,
                                                  global': OpTable, queries': seq<Result<Shape>>)
    ensures PrepareOutcome(0, lib, global, nodeDef, queries) == PrepareOutcome(0, lib', global', nodeDef, queries')
    ensures PrepareOutcome(0, lib, global, nodeDef, queries) == Success([])
  {
  }

  /** An identity shape function on one input of known shape yields that
      shape for the single output. */
  lemma IdentityInferenceKeepsShape(lib: OpTable, global: OpTable, nodeDef: NodeDef, dims: seq<int>)
    requires var r := LookUpOp(lib, global, nodeDef.op);
             r.Success? && forall shapes :: r.value.shapeInferenceFn(nodeDef, shapes) == Success(shapes)
    ensures PrepareOutcome(1, lib, global, nodeDef, [Success(KnownShape(dims))]) == Success([KnownShape(dims)])
  {
    var queries := [Success(KnownShape(dims))];
    assert queries[0].Success?;
    var bound := BindInputs(queries);
    assert bound.value[0] == KnownShape(dims);
    assert bound.value == [KnownShape(dims)];
    assert bound == Success([KnownShape(dims)]);
  }
}
