/** The remote execution node: a single-shot unit of work that infers its
    output shapes locally (Prepare), then sends its enqueue request and,
    when the reply arrives, finalises its output handles (RunAsync and the
    completion callback it hands to the client). */
module RemoteExecute {
  import opened Status
  import opened Handles
  import opened OpLookup
  import opened ShapeInference
  import opened RpcDescription

  /** The shapes the remote reports for one queue item, one per output. */
  datatype QueueResponse = QueueResponse(shape: seq<Shape>)

  datatype EnqueueResponse = EnqueueResponse(queueResponse: seq<QueueResponse>)

  /** The status callback the executor passes to RunAsync; it keeps every
      status it is called with and, alongside each, the states of the
      output handles and the reference counts of the captured handles at
      the moment of the call. */
  class StatusCallback {
    var received: seq<Status>
    ghost var seen: seq<seq<HandleState>>
    ghost var seenCounts: seq<seq<nat>>

    constructor ()
      ensures received == [] && seen == [] && seenCounts == []
    {
      received := [];
      seen := [];
      seenCounts := [];
    }

    method Call(status: Status, ghost outputs: seq<HandleState>, ghost counts: seq<nat>)
      modifies this
      ensures received == old(received) + [status]
      ensures seen == old(seen) + [outputs]
      ensures seenCounts == old(seenCounts) + [counts]
    {
      received := received + [status];
      seen := seen + [outputs];
      seenCounts := seenCounts + [counts];
    }
  }

  /** How many references a dispatch takes on h: one per occurrence among the inputs and the outputs. */
  function Occurrences(inputs: seq<TensorHandle>, retvals: seq<TensorHandle>, h: TensorHandle): nat {
    multiset(inputs)[h] + multiset(retvals)[h]
  }

  /** A response that carries a shape for every output, as the success path reads it. */
  predicate CoversOutputs(response: EnqueueResponse, numRetvals: nat) {
    numRetvals > 0 ==> |response.queueResponse| > 0 && |response.queueResponse[0].shape| >= numRetvals
  }

  /** The shape the response reports for output i, as the success path
      reads it; a missing entry, which the success path never reads, is unknown. */
  function ResponseShape(response: EnqueueResponse, i: nat): Shape {
    if |response.queueResponse| > 0 && i < |response.queueResponse[0].shape|
    then response.queueResponse[0].shape[i] else UnknownShape
  }

  /** h has been finalised for a completion with the given status: on OK
      exactly one remote shape request (shape, device) was made, which took
      effect if the shape is a complete one; on error h is poisoned with the
      status and its remote shape was not touched.  Its inferred shape stays. */
  twostate predicate Finalized(h: TensorHandle, status: Status, shape: Shape, device: Device)
    reads h
  {
    && h.inferenceShape == old(h.inferenceShape)
    && if status.Ok? then
         && h.remoteShapeRequests == old(h.remoteShapeRequests) + [RemoteShape(shape, device)]
         && h.remoteShape == (if FullyDefined(shape) then Some(RemoteShape(shape, device)) else old(h.remoteShape))
         && h.poison == old(h.poison)
       else
         && h.poison == Some(status)
         && h.remoteShape == old(h.remoteShape)
         && h.remoteShapeRequests == old(h.remoteShapeRequests)
  }

  /** One turn of the completion callback's loop over the outputs: on OK
      request the reported shape (a failure is logged and ignored), on error
      poison the handle; then drop the handle's reference. */
  method FinalizeOne(h: TensorHandle, status: Status, shape: Shape, device: Device)
    requires h.refcount >= 1
    modifies h
    ensures h.refcount == old(h.refcount) - 1
    ensures Finalized(h, status, shape, device)
  {
    if status.Ok? {
      var s := h.SetRemoteShape(shape, device);
      if s.Error? {
        // The error is logged and ignored: the status handed to done stays OK.
      }
    } else {
      h.Poison(status);
    }
    h.Unref();
  }

  /** The completion callback's loop over the outputs: finalise retvals[i]
      with the status and shape i of the response, without skipping any. */
  method FinalizeRetvals(retvals: seq<TensorHandle>, status: Status, response: EnqueueResponse, device: Device)
    requires Distinct(retvals)
    requires forall h | h in retvals :: h.refcount >= 1
    requires status.Ok? ==> CoversOutputs(response, |retvals|)
    modifies retvals
    ensures forall h | h in retvals :: h.refcount == old(h.refcount) - 1
    ensures forall j | 0 <= j < |retvals| :: Finalized(retvals[j], status, ResponseShape(response, j), device)
  {
    for i := 0 to |retvals|
      invariant forall j | 0 <= j < i ::
                  retvals[j].refcount == old(retvals[j].refcount) - 1 &&
                  Finalized(retvals[j], status, ResponseShape(response, j), device)
      invariant forall j | i <= j < |retvals| ::
                  retvals[j].refcount == old(retvals[j].refcount) && retvals[j].State() == old(retvals[j].State())
    {
      FinalizeOne(retvals[i], status, ResponseShape(response, i), device);
    }
    forall h | h in retvals ensures h.refcount == old(h.refcount) - 1 {
      var j :| 0 <= j < |retvals| && retvals[j] == h;
    }
  }

  /** The completion's work on the handles: drop the input references, then
      set the remote shape of every output (OK) or poison it (error) and
      drop its reference. */
  method ReleaseAndFinalize(inputs: seq<TensorHandle>, retvals: seq<TensorHandle>, status: Status,
                            response: EnqueueResponse, device: Device)
    requires Distinct(retvals)
    requires forall h | h in inputs || h in retvals :: h.refcount >= Occurrences(inputs, retvals, h)
    requires status.Ok? ==> CoversOutputs(response, |retvals|)
    modifies inputs, retvals
    ensures forall h | h in inputs || h in retvals ::
              h.refcount == old(h.refcount) - Occurrences(inputs, retvals, h)
    ensures forall i | 0 <= i < |retvals| :: Finalized(retvals[i], status, ResponseShape(response, i), device)
    ensures forall h | h in inputs && h !in retvals :: h.State() == old(h.State())
  {
    UnrefAll(inputs);
    label released:
    forall h | h in inputs || h in retvals
      ensures h.refcount == old(h.refcount) - multiset(inputs)[h]
      ensures h.State() == old(h.State())
    {
      if h !in inputs {
        assert multiset(inputs)[h] == 0;
      }
    }
    forall h | h in retvals ensures h.refcount >= 1 {
      DistinctHandleOccursOnce(retvals, h);
    }
    FinalizeRetvals(retvals, status, response, device);
    forall h | h in inputs || h in retvals
      ensures h.refcount == old(h.refcount) - Occurrences(inputs, retvals, h)
    {
      if h in retvals {
        DistinctHandleOccursOnce(retvals, h);
        assert h.refcount == old@released(h.refcount) - 1;
      } else {
        assert multiset(retvals)[h] == 0;
        assert h.refcount == old@released(h.refcount);
      }
    }
    forall i | 0 <= i < |retvals|
      ensures Finalized(retvals[i], status, ResponseShape(response, i), device)
    {
      assert Finalized@released(retvals[i], status, ResponseShape(response, i), device);
      assert old@released(retvals[i].State()) == old(retvals[i].State());
    }
  }

  /** The callback's last step: done receives the status, with a snapshot
      of the outputs' states and of the captured handles' counts as they are now. */
  method NotifyDone(done: StatusCallback, status: Status, inputs: seq<TensorHandle>, retvals: seq<TensorHandle>)
    modifies done
    ensures done.received == old(done.received) + [status]
    ensures done.seen == old(done.seen) + [StatesOf(retvals)]
    ensures done.seenCounts == old(done.seenCounts) + [CountsOf(inputs + retvals)]
  {
    done.Call(status, StatesOf(retvals), CountsOf(inputs + retvals));
  }

  /** The completion callback: what it captured when the request was sent. */
  class EnqueueCallback {
    const inputs: seq<TensorHandle>
    const retvals: seq<TensorHandle>
    const device: Device
    const rpcDescription: string
    const done: StatusCallback

    constructor (inputs: seq<TensorHandle>, retvals: seq<TensorHandle>, device: Device,
                 rpcDescription: string, done: StatusCallback)
      ensures this.inputs == inputs && this.retvals == retvals && this.device == device
      ensures this.rpcDescription == rpcDescription && this.done == done
    {
      this.inputs := inputs;
      this.retvals := retvals;
      this.device := device;
      this.rpcDescription := rpcDescription;
      this.done := done;
    }

    /** Runs when the request completes with the given status: drops the
        input references, then sets the remote shape of every output (OK)
        or poisons it (error) and drops its reference, then calls done once,
        when every output already holds its final state and every reference
        taken at dispatch is already dropped. */
    method Run(status: Status, response: EnqueueResponse)
      requires Distinct(retvals)
      requires forall h | h in inputs || h in retvals :: h.refcount >= Occurrences(inputs, retvals, h)
      requires status.Ok? ==> CoversOutputs(response, |retvals|)
      modifies inputs, retvals, done
      ensures forall h | h in inputs || h in retvals ::
                h.refcount == old(h.refcount) - Occurrences(inputs, retvals, h)
      ensures forall i | 0 <= i < |retvals| :: Finalized(retvals[i], status, ResponseShape(response, i), device)
      ensures forall h | h in inputs && h !in retvals :: h.State() == old(h.State())
      ensures done.received == old(done.received) + [status]
      ensures done.seen == old(done.seen) + [StatesOf(retvals)]
      ensures done.seenCounts == old(done.seenCounts) + [CountsOf(inputs + retvals)]
    {
      ReleaseAndFinalize(inputs, retvals, status, response, device);
      NotifyDone(done, status, inputs, retvals);
    }
  }

  /** Prepare's loop over the inputs: bind the shape each input handle
      offers at its own slot, stopping at the first handle that fails. */
  method BindInputShapes(context: InferenceContext, inputs: seq<TensorHandle>) returns (status: Status)
    requires |context.inputs| == |inputs|
    modifies context
    ensures context.outputs == old(context.outputs)
    ensures status == StatusOf(BindInputs(InferenceQueries(inputs)))
    ensures status.Ok? ==> context.inputs == BindInputs(InferenceQueries(inputs)).value
  {
    ghost var queries := InferenceQueries(inputs);
    for i := 0 to |inputs|
      invariant |context.inputs| == |inputs| && context.outputs == old(context.outputs)
      invariant forall j :: 0 <= j < i ==> queries[j] == Success(context.inputs[j])
    {
      var shape := inputs[i].InferenceShape();
      if shape.Failure? {
        BindInputsFirstError(queries, i);
        return shape.error;
      }
      context.SetInput(i, shape.value);
    }
    assert BindInputs(queries).value == context.inputs;
    status := Ok;
  }

  /** Prepare's loop over the outputs: retvals[i] takes inferred shape i. */
  method SetOutputShapes(retvals: seq<TensorHandle>, outputs: seq<Shape>)
    requires Distinct(retvals) && |outputs| == |retvals|
    modifies retvals
    ensures forall i | 0 <= i < |retvals| :: retvals[i].inferenceShape == Some(outputs[i])
    ensures forall h | h in retvals ::
              && h.refcount == old(h.refcount) && h.remoteShape == old(h.remoteShape)
              && h.poison == old(h.poison) && h.remoteShapeRequests == old(h.remoteShapeRequests)
  {
    for i := 0 to |outputs|
      invariant forall j :: 0 <= j < i ==> retvals[j].inferenceShape == Some(outputs[j])
      invariant forall h | h in retvals ::
                  && h.refcount == old(h.refcount) && h.remoteShape == old(h.remoteShape)
                  && h.poison == old(h.poison) && h.remoteShapeRequests == old(h.remoteShapeRequests)
    {
      retvals[i].SetInferenceShape(outputs[i]);
    }
  }

  class RemoteExecuteNode {
    const nodeDef: NodeDef
    const inputs: seq<TensorHandle>
    const retvals: seq<TensorHandle>
    const device: Device
    const libDef: OpTable
    const globalRegistry: OpTable
    const request: EnqueueRequest

    constructor (nodeDef: NodeDef, inputs: seq<TensorHandle>, retvals: seq<TensorHandle>, device: Device,
                 libDef: OpTable, globalRegistry: OpTable, request: EnqueueRequest)
      ensures this.nodeDef == nodeDef && this.inputs == inputs && this.retvals == retvals
      ensures this.device == device && this.libDef == libDef && this.globalRegistry == globalRegistry
      ensures this.request == request
    {
      this.nodeDef := nodeDef;
      this.inputs := inputs;
      this.retvals := retvals;
      this.device := device;
      this.libDef := libDef;
      this.globalRegistry := globalRegistry;
      this.request := request;
    }

    /** The inference part of Prepare: resolve the op, bind the input
        shapes in a fresh context and run the op's shape function. */
    method InferOutputShapes() returns (r: Result<seq<Shape>>)
      ensures r == InferOutputs(libDef, globalRegistry, nodeDef, InferenceQueries(inputs))
    {
      var lookup := LookUpOp(libDef, globalRegistry, nodeDef.op);
      if lookup.Failure? {
        return lookup.PropagateFailure();
      }
      var opRegData := lookup.value;
      var context := new InferenceContext(nodeDef, opRegData.opDef, |inputs|);
      var status := BindInputShapes(context, inputs);
      if status.Error? {
        return Failure(status);
      }
      status := context.Run(opRegData.shapeInferenceFn);
      if status.Error? {
        return Failure(status);
      }
      r := Success(context.outputs);
    }

    /** Infers the output shapes locally and stores output i in retvals[i];
        on any error the outputs are left untouched. */
    method Prepare() returns (status: Status)
      requires Distinct(retvals)
      requires ArityMatches(|retvals|, libDef, globalRegistry, nodeDef, InferenceQueries(inputs))
      modifies retvals
      ensures |retvals| == 0 ==> status == Ok
      ensures var outcome := PrepareOutcome(|retvals|, libDef, globalRegistry, nodeDef,
                                            old(InferenceQueries(inputs)));
              && status == StatusOf(outcome)
              && forall i | 0 <= i < |retvals| ::
                   retvals[i].inferenceShape == (if outcome.Success? then Some(outcome.value[i])
                                                 else old(retvals[i].inferenceShape))
      ensures forall h | h in retvals ::
                && h.refcount == old(h.refcount) && h.remoteShape == old(h.remoteShape)
                && h.poison == old(h.poison) && h.remoteShapeRequests == old(h.remoteShapeRequests)
    {
      if |retvals| == 0 {
        return Ok;
      }
      var outputs := InferOutputShapes();
      if outputs.Failure? {
        return outputs.error;
      }
      // The arity precondition gives one inferred shape per output.
      assert |outputs.value| == |retvals|;
      SetOutputShapes(retvals, outputs.value);
      status := Ok;
    }

    /** Sends the request: builds the description when verbose, takes one
        reference per occurrence of every input and output, and returns the
        completion callback the client will run. */
    method RunAsync(done: StatusCallback, verbose: bool) returns (callback: EnqueueCallback)
      modifies inputs, retvals
      ensures fresh(callback)
      ensures callback.inputs == inputs && callback.retvals == retvals && callback.device == device
      ensures callback.done == done
      ensures callback.rpcDescription == Description(request.queue, verbose)
      ensures forall h | h in inputs || h in retvals ::
                h.refcount == old(h.refcount) + Occurrences(inputs, retvals, h)
      ensures forall h | h in inputs || h in retvals :: h.State() == old(h.State())
    {
      var rpcDescription := BuildRpcDescription(request.queue, verbose);
      RefAll(inputs);
      RefAll(retvals);
      callback := new EnqueueCallback(inputs, retvals, device, rpcDescription, done);
    }
  }

  /** Dispatch followed by completion: every reference taken is given back,
      every output is finalised, and done receives the final status once,
      after the outputs reached their final states and the counts their
      values before dispatch. */
  method RunAsyncToCompletion(node: RemoteExecuteNode, done: StatusCallback, verbose: bool,
                              status: Status, response: EnqueueResponse)
    requires Distinct(node.retvals)
    requires status.Ok? ==> CoversOutputs(response, |node.retvals|)
    modifies node.inputs, node.retvals, done
    ensures forall h | h in node.inputs || h in node.retvals :: h.refcount == old(h.refcount)
    ensures forall i | 0 <= i < |node.retvals| ::
              Finalized(node.retvals[i], status, ResponseShape(response, i), node.device)
    ensures forall h | h in node.inputs && h !in node.retvals :: h.State() == old(h.State())
    ensures done.received == old(done.received) + [status]
    ensures done.seen == old(done.seen) + [StatesOf(node.retvals)]
    ensures done.seenCounts == old(done.seenCounts) + [CountsOf(node.inputs + node.retvals)]
  {
    var callback := node.RunAsync(done, verbose);
    label inFlight:
    callback.Run(status, response);
    forall i | 0 <= i < |node.retvals|
      ensures Finalized(node.retvals[i], status, ResponseShape(response, i), node.device)
    {
      assert Finalized@inFlight(node.retvals[i], status, ResponseShape(response, i), node.device);
      assert old@inFlight(node.retvals[i].State()) == old(node.retvals[i].State());
    }
  }
}
