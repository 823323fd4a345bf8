/** The parts of a tensor handle that the remote execution node touches:
    its reference count, the locally inferred shape, the remote shape and
    the poison status.  Everything else a handle does is not modelled. */
module Handles {
  import opened Status

  /** A shape as the shape-inference engine sees it: unknown rank, or a list
      of dimensions in which -1 stands for an unknown dimension. */
  datatype Shape = UnknownShape | KnownShape(dims: seq<int>)

  datatype Device = Device(name: string)

  /** A shape reported by the remote worker, bound to the device that holds the tensor. */
  datatype RemoteShape = RemoteShape(shape: Shape, device: Device)

  /** A remote shape must be a complete tensor shape: known rank, no unknown dimension. */
  predicate FullyDefined(s: Shape) {
    s.KnownShape? && forall i :: 0 <= i < |s.dims| ==> s.dims[i] >= 0
  }

  /** Everything the node can observe of a handle except its reference count. */
  datatype HandleState = HandleState(inferenceShape: Option<Shape>, remoteShape: Option<RemoteShape>,
                                    poison: Option<ErrorStatus>, remoteShapeRequests: seq<RemoteShape>)

  class TensorHandle {
    var refcount: nat
    var inferenceShape: Option<Shape>
    var remoteShape: Option<RemoteShape>
    var poison: Option<ErrorStatus>
    /** Every call of SetRemoteShape, successful or not, in call order. */
    ghost var remoteShapeRequests: seq<RemoteShape>

    ghost function State(): HandleState
      reads this
    {
      HandleState(inferenceShape, remoteShape, poison, remoteShapeRequests)
    }

    /** A fresh handle starts with the one reference its creator owns. */
    constructor ()
      ensures refcount == 1 && inferenceShape == None && remoteShape == None && poison == None
      ensures remoteShapeRequests == []
    {
      refcount := 1;
      inferenceShape := None;
      remoteShape := None;
      poison := None;
      remoteShapeRequests := [];
    }

    method Ref()
      modifies this
      ensures refcount == old(refcount) + 1
      ensures State() == old(State())
    {
      refcount := refcount + 1;
    }

    method Unref()
      requires refcount > 0
      modifies this
      ensures refcount == old(refcount) - 1
      ensures State() == old(State())
    {
      refcount := refcount - 1;
    }

    /** The shape a handle offers to shape inference: a poisoned handle
        answers with its error, a handle whose remote shape is known offers
        that, otherwise the locally inferred shape or an unknown one. */
    function InferenceShape(): (r: Result<Shape>)
      reads this
      ensures r.Failure? <==> poison.Some?
      ensures r.Failure? ==> r.error == poison.value
    {
      if poison.Some? then Failure(poison.value)
      else if remoteShape.Some? then Success(remoteShape.value.shape)
      else if inferenceShape.Some? then Success(inferenceShape.value)
      else Success(UnknownShape)
    }

    method SetInferenceShape(shape: Shape)
      modifies this
      ensures inferenceShape == Some(shape)
      ensures refcount == old(refcount) && remoteShape == old(remoteShape)
      ensures poison == old(poison) && remoteShapeRequests == old(remoteShapeRequests)
    {
      inferenceShape := Some(shape);
    }

    /** Records the authoritative shape; a shape that is not a complete
        tensor shape is refused and leaves the handle as it was. */
    method SetRemoteShape(shape: Shape, device: Device) returns (s: Status)
      modifies this
      ensures s.Ok? <==> FullyDefined(shape)
      ensures s.Error? ==> s.code == InvalidArgument
      ensures remoteShape == if FullyDefined(shape) then Some(RemoteShape(shape, device)) else old(remoteShape)
      ensures remoteShapeRequests == old(remoteShapeRequests) + [RemoteShape(shape, device)]
      ensures refcount == old(refcount) && inferenceShape == old(inferenceShape) && poison == old(poison)
    {
      remoteShapeRequests := remoteShapeRequests + [RemoteShape(shape, device)];
      if FullyDefined(shape) {
        remoteShape := Some(RemoteShape(shape, device));
        s := Ok;
      } else {
        s := Error(InvalidArgument, "remote shape is not a fully defined tensor shape");
      }
    }

    method Poison(status: ErrorStatus)
      modifies this
      ensures poison == Some(status)
      ensures refcount == old(refcount) && inferenceShape == old(inferenceShape)
      ensures remoteShape == old(remoteShape) && remoteShapeRequests == old(remoteShapeRequests)
    {
      poison := Some(status);
    }
  }

  /** The shapes each handle of hs offers to inference, in order. */
  function InferenceQueries(hs: seq<TensorHandle>): (r: seq<Result<Shape>>)
    reads hs
    ensures |r| == |hs|
    ensures forall i :: 0 <= i < |hs| ==> r[i] == hs[i].InferenceShape()
  {
    if |hs| == 0 then [] else [hs[0].InferenceShape()] + InferenceQueries(hs[1..])
  }

  /** The observable states of the handles hs, in order. */
  ghost function StatesOf(hs: seq<TensorHandle>): (r: seq<HandleState>)
    reads hs
    ensures |r| == |hs|
    ensures forall i :: 0 <= i < |hs| ==> r[i] == hs[i].State()
  {
    if |hs| == 0 then [] else [hs[0].State()] + StatesOf(hs[1..])
  }

  /** The reference counts of the handles hs, in order. */
  ghost function CountsOf(hs: seq<TensorHandle>): (r: seq<nat>)
    reads hs
    ensures |r| == |hs|
    ensures forall i :: 0 <= i < |hs| ==> r[i] == hs[i].refcount
  {
    if |hs| == 0 then [] else [hs[0].refcount] + CountsOf(hs[1..])
  }

  /** No handle occurs twice in hs. */
  predicate Distinct(hs: seq<TensorHandle>) {
    forall i, j :: 0 <= i < j < |hs| ==> hs[i] != hs[j]
  }

  /** In a sequence without repetitions every element occurs exactly once. */
  lemma {:induction false} DistinctOccursOnce(hs: seq<TensorHandle>, j: nat)
    requires Distinct(hs) && j < |hs|
    ensures multiset(hs)[hs[j]] == 1
  {
    assert hs == hs[..j] + [hs[j]] + hs[j + 1..];
    assert hs[j] !in hs[..j] && hs[j] !in hs[j + 1..];
  }

  /** The same, for a handle rather than an index. */
  lemma DistinctHandleOccursOnce(hs: seq<TensorHandle>, h: TensorHandle)
    requires Distinct(hs) && h in hs
    ensures multiset(hs)[h] == 1
  {
    var j :| 0 <= j < |hs| && hs[j] == h;
    DistinctOccursOnce(hs, j);
  }

  /** Takes one reference per occurrence of each handle in hs. */
  method RefAll(hs: seq<TensorHandle>)
    modifies hs
    ensures forall h | h in hs :: h.refcount == old(h.refcount) + multiset(hs)[h]
    ensures forall h | h in hs :: h.State() == old(h.State())
  {
    for i := 0 to |hs|
      invariant forall h | h in hs :: h.refcount == old(h.refcount) + multiset(hs[..i])[h]
      invariant forall h | h in hs :: h.State() == old(h.State())
    {
      assert hs[..i + 1] == hs[..i] + [hs[i]];
      hs[i].Ref();
    }
    assert hs[..|hs|] == hs;
  }

  /** Drops one reference per occurrence of each handle in hs. */
  method UnrefAll(hs: seq<TensorHandle>)
    requires forall h | h in hs :: h.refcount >= multiset(hs)[h]
    modifies hs
    ensures forall h | h in hs :: h.refcount == old(h.refcount) - multiset(hs)[h]
    ensures forall h | h in hs :: h.State() == old(h.State())
  {
    for i := 0 to |hs|
      invariant forall h | h in hs :: h.refcount == old(h.refcount) - multiset(hs[..i])[h]
      invariant forall h | h in hs :: h.State() == old(h.State())
    {
      assert hs == hs[..i + 1] + hs[i + 1..];
      assert hs[..i + 1] == hs[..i] + [hs[i]];
      hs[i].Unref();
    }
    assert hs[..|hs|] == hs;
  }
}
