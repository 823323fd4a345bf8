# Remote execution node, modelled in Dafny

This project models a distributed eager runtime's remote execution node. The node is one single-shot item in the executor's queue, and it carries one remote RPC. It has two phases:

- **Prepare** runs shape inference locally. Dependent operations can then be built before the remote worker answers. The node resolves its op with library-first precedence and binds one input shape per input handle. It then runs the op's shape function and stores output `i` as the inferred shape of `retvals[i]`.
- **RunAsync** sends the enqueue request. It takes one reference on every input and output handle and hands the client a completion callback. When the reply arrives, the callback releases the input references. On OK it asks every output to take the remote shape from the reply, and an error from that request is ignored. On error it poisons every output. It releases each output's reference after finalising that output, then calls `done` once with the RPC status. When logging is verbose, the node also builds a description of the request.

Modules, one per collaborator of the node:

- `Status` (status.dfy): `Status`, error codes, and the failure-compatible `Result` that models early-return-on-error.
- `Handles` (tensor_handle.dfy): the `TensorHandle` class. It holds the reference count, the inferred shape, the remote shape, the poison status and a ghost log of remote-shape requests. It also has the per-occurrence `RefAll`/`UnrefAll` loops.
- `OpLookup` (op_lookup.dfy): the function library and the global op registry, as maps from op name to registration data. The registration data holds the op's shape function, passed in as an abstract function.
- `ShapeInference` (shape_inference.dfy): the `InferenceContext` class, the pure outcome of Prepare (`PrepareOutcome`) and the facts proved about it.
- `RpcDescription` (rpc_description.dfy): queue items, the description builder, and proofs that the output can be parsed back.
- `RemoteExecute` (remote_execute_node.dfy): the `RemoteExecuteNode` class (`Prepare`, `RunAsync`), the completion callback `EnqueueCallback`, and the composed `RunAsyncToCompletion`.

The completion callback is modelled as an object that `RunAsync` returns and that is then run once. Its fields are all of the lambda's captures (inputs, retvals, device, description and `done`) except `response`, which `Run` takes as a parameter. The RPC itself and its transport are not modelled. The caller gives the final status and the response to `EnqueueCallback.Run`.

Three choices follow the code where the obvious alternative behaviour would differ:
- **Arity check.** `DCHECK_EQ(num_outputs, retvals.size())` (line 50) is only a debug check. The model makes it a precondition of `Prepare` (`ArityMatches`) and does not turn a mismatch into an Internal error.
- **Short response.** The callback indexes the response's shape list without a bounds check (line 107). The model makes it a precondition (`CoversOutputs`) that the reply has a shape for every output on success. A short list is not turned into poisoned outputs.
- **Error codes.** Errors from the shape function and from handle queries are passed on unchanged. The model assigns them no code of its own.

## Model

| member | source | states |
|---|---|---|
| `RemoteExecute.RemoteExecuteNode.Prepare` | tensorflow/core/distributed_runtime/eager/remote_execute_node.cc:27-56 | No outputs gives OK and changes no handle. Otherwise the returned status is that of `PrepareOutcome`, computed from the input handles as they were on entry. On success `retvals[i]` holds inferred shape `i`. On any error no output's inferred shape changes. No handle's count, remote shape or poison changes. |
| `RemoteExecute.RemoteExecuteNode.InferOutputShapes` | tensorflow/core/distributed_runtime/eager/remote_execute_node.cc:31-49 | Returns `InferOutputs` of the node's registries, node definition and input handles. A lookup error comes back unchanged. Otherwise the first failing input's error comes back. Otherwise the result is the resolved op's shape function on the bound input shapes. |
| `RemoteExecute.BindInputShapes` | tensorflow/core/distributed_runtime/eager/remote_execute_node.cc:43-47 | Returns the status of `BindInputs` on the handles' answers. On success the context's input slots are exactly the bound shapes, and its outputs do not change. |
| `RemoteExecute.SetOutputShapes` | tensorflow/core/distributed_runtime/eager/remote_execute_node.cc:51-54 | `retvals[i]` takes inferred shape `i` for every `i`. No count, remote shape or poison changes. |
| `OpLookup.LookUpOp` | tensorflow/core/distributed_runtime/eager/remote_execute_node.cc:31-36 | The library entry is used whenever the library has the op, and the global registry only otherwise. The result equals a lookup in the global registry overlaid by the library. It fails, with the global registry's error, exactly when neither registry has the op. |
| `OpLookup.TableLookUp` | tensorflow/core/distributed_runtime/eager/remote_execute_node.cc:33 | Lookup in one registry succeeds exactly when the name is registered and returns its entry. Otherwise it fails with NotFound. |
| `ShapeInference.InferenceContext.constructor` | tensorflow/core/distributed_runtime/eager/remote_execute_node.cc:38-42 | The new context is built from the node definition and the op's definition. It has exactly one input slot per input handle, each holding an unknown shape, and no outputs. |
| `ShapeInference.InferenceContext.SetInput` | tensorflow/core/distributed_runtime/eager/remote_execute_node.cc:46 | Binds a shape at one slot. No other slot and no output changes. |
| `ShapeInference.InferenceContext.Run` | tensorflow/core/distributed_runtime/eager/remote_execute_node.cc:49 | Returns the shape function's status on the bound inputs. On success the outputs are the function's shapes. On error the outputs are left as they were. |
| `ShapeInference.BindInputs` | tensorflow/core/distributed_runtime/eager/remote_execute_node.cc:43-47 | Succeeds exactly when every handle answers. Then it has one shape per input, slot `i` holding answer `i`. On failure the error is that of some handle all of whose predecessors answered. |
| `ShapeInference.BindInputsFirstError` | tensorflow/core/distributed_runtime/eager/remote_execute_node.cc:43-47 | If handle `k` is the first whose shape query fails, binding fails with exactly that handle's error. |
| `ShapeInference.InferOutputs` | tensorflow/core/distributed_runtime/eager/remote_execute_node.cc:31-49 | An op in neither registry fails with NotFound. Success needs a known op and an answer from every input handle. Once every handle answers, the result is the op's own shape function on the bound shapes. That is the library entry's function whenever the library defines the op, and the global registry's only when it does not. |
| `ShapeInference.PrepareOutcome` | tensorflow/core/distributed_runtime/eager/remote_execute_node.cc:27-49 | No outputs gives success with nothing to store. A failure only ever comes from a node with outputs, and it is then the failure of inference proper. |
| `ShapeInference.PrepareWithoutOutputsIgnoresCollaborators` | tensorflow/core/distributed_runtime/eager/remote_execute_node.cc:28 | With no outputs the outcome is success with nothing to store. It is the same for any registries and any input handles, so no lookup or inference takes part. |
| `ShapeInference.IdentityInferenceKeepsShape` | tensorflow/core/distributed_runtime/eager/remote_execute_node.cc:43-53 | Take an identity shape function and one input of known shape. The single output then gets that same shape. |
| `Handles.InferenceQueries` | tensorflow/core/distributed_runtime/eager/remote_execute_node.cc:43-45 | One shape-query answer per input handle, in input order. |
| `Handles.TensorHandle.InferenceShape` | tensorflow/core/distributed_runtime/eager/remote_execute_node.cc:45 | The query fails exactly when the handle is poisoned, and then with the poison status. |
| `Handles.TensorHandle.SetInferenceShape` | tensorflow/core/distributed_runtime/eager/remote_execute_node.cc:53 | The handle's inferred shape becomes the given one. Nothing else changes. |
| `Handles.TensorHandle.SetRemoteShape` | tensorflow/core/distributed_runtime/eager/remote_execute_node.cc:106-107 | Every call is recorded. A complete shape is stored with its device and gives OK. Any other shape gives an InvalidArgument error and leaves the remote shape as it was. |
| `Handles.TensorHandle.Poison` | tensorflow/core/distributed_runtime/eager/remote_execute_node.cc:116 | The handle carries the given error. Nothing else changes. |
| `Handles.TensorHandle.Ref` | tensorflow/core/distributed_runtime/eager/remote_execute_node.cc:85-88 | Each reference taken at dispatch (lines 85 and 88) raises the count by exactly one and changes no shape or poison state. |
| `Handles.TensorHandle.Unref` | tensorflow/core/distributed_runtime/eager/remote_execute_node.cc:96-118 | Each reference dropped by the callback (lines 96 and 118) needs a held reference. It lowers the count by exactly one and changes no shape or poison state. |
| `Handles.RefAll` | tensorflow/core/distributed_runtime/eager/remote_execute_node.cc:84-89 | Each handle's count grows by its number of occurrences in the sequence. No shape or poison state changes. |
| `Handles.UnrefAll` | tensorflow/core/distributed_runtime/eager/remote_execute_node.cc:95-97 | Each handle's count drops by its number of occurrences. No shape or poison state changes. |
| `RemoteExecute.RemoteExecuteNode.RunAsync` | tensorflow/core/distributed_runtime/eager/remote_execute_node.cc:58-93 | While the RPC is in flight every input and output holds its count plus one per occurrence, with no other state changed. The returned callback captures the node's inputs, outputs, device and `done`, and a description equal to `Description(queue, verbose)`. |
| `RemoteExecute.FinalizeOne` | tensorflow/core/distributed_runtime/eager/remote_execute_node.cc:105-118 | One output: on OK exactly one remote-shape request is made, and a failure is ignored. On error the handle is poisoned. Either way the count drops by one. |
| `RemoteExecute.FinalizeRetvals` | tensorflow/core/distributed_runtime/eager/remote_execute_node.cc:104-119 | Each output's count drops by one. On OK output `i` gets exactly one remote-shape request with shape `i` of the first queue response and the node's device. A failing request does not stop the loop. On error each output is poisoned with the status, and no remote shape is requested. |
| `RemoteExecute.ReleaseAndFinalize` | tensorflow/core/distributed_runtime/eager/remote_execute_node.cc:95-119 | The callback's work on the handles, before `done`. Each handle's count drops by its occurrences among the inputs plus its occurrences among the outputs. Every output is finalised for the status, and inputs that are not outputs keep their shape and poison state. |
| `RemoteExecute.EnqueueCallback.Run` | tensorflow/core/distributed_runtime/eager/remote_execute_node.cc:93-122 | Every reference taken at dispatch is dropped. Every output is finalised for the status. Inputs that are not outputs keep their shape and poison state. `done` receives exactly one call, with the RPC status, which stays OK even when a remote-shape request failed. The output states and reference counts recorded with that call are the final ones. So `done` runs only after every output was finalised and every reference was dropped. |
| `RemoteExecute.StatusCallback.Call` | tensorflow/core/distributed_runtime/eager/remote_execute_node.cc:120 | Records exactly one delivery of the given status. With it go ghost snapshots of the output handles' states and of the captured handles' reference counts at the moment of the call. |
| `RemoteExecute.NotifyDone` | tensorflow/core/distributed_runtime/eager/remote_execute_node.cc:120 | `done` receives the status once. The snapshots it records are the outputs' states and the counts of the inputs and outputs as they stand at that call. |
| `RemoteExecute.RunAsyncToCompletion` | tensorflow/core/distributed_runtime/eager/remote_execute_node.cc:84-120 | Dispatch then completion brings every input's and output's count back to its value before dispatch. Aliased handles are counted per occurrence. Every output is finalised. `done` is called once with the status. The output states and counts it observes are the final ones, so every reference is already given back when `done` runs. |
| `RpcDescription.BuildRpcDescription` | tensorflow/core/distributed_runtime/eager/remote_execute_node.cc:66-81 | The loop that collects one entry per queue item, then joins and wraps them, yields `Description(queue, verbose)`. That is the empty string when not verbose, and `"RemoteOperation(" + join(entries, ", ") + ")"` otherwise. |
| `RpcDescription.EntriesAt` | tensorflow/core/distributed_runtime/eager/remote_execute_node.cc:70-78 | There is one entry per queue item, in queue order. Entry `i` is the operation's name, or the DeleteHandle token of item `i`. |
| `RpcDescription.ItemEntry` | tensorflow/core/distributed_runtime/eager/remote_execute_node.cc:71-77 | An operation's entry is its name, verbatim. A reference drop's entry parses back to exactly its op id and output number, so it names the handle unambiguously. |
| `RpcDescription.DecrefTokenRoundTrip` | tensorflow/core/distributed_runtime/eager/remote_execute_node.cc:74-76 | Parsing a `DeleteHandle(op_id:output_num)` token gives back exactly the op id and output number it was made from. |
| `RpcDescription.IntDecimalRoundTrip` | tensorflow/core/distributed_runtime/eager/remote_execute_node.cc:74-76 | The decimal rendering of any integer, with its sign, parses back to that integer. |
| `RpcDescription.Join` | tensorflow/core/distributed_runtime/eager/remote_execute_node.cc:80 | No parts join to the empty string. Otherwise the result starts with the first part and ends with the last. |
| `RpcDescription.JoinSnoc` | tensorflow/core/distributed_runtime/eager/remote_execute_node.cc:80 | Joining parts with a separator equals joining all but the last, then appending the separator and the last part. |
| `RpcDescription.Description` | tensorflow/core/distributed_runtime/eager/remote_execute_node.cc:66-81 | Not verbose gives the empty string. Verbose with an empty queue gives `RemoteOperation()`. Otherwise the text starts with `RemoteOperation(` and the first item's entry, and ends with the last item's entry and `)`. |
| `RpcDescription.DescriptionAppend` | tensorflow/core/distributed_runtime/eager/remote_execute_node.cc:70-80 | Appending an item to a non-empty queue inserts `, ` and that item's entry just before the closing parenthesis. The entries therefore follow queue order, separated by `, `. |

## Left out

- Shape-inference engine, op registry and function library internals: registries are maps, and each op's shape function is an abstract function inside its registration data. The library's own `LookUp` can fail only for a name its `Find` reports absent, so it is modelled as succeeding whenever the library has the op.
- Tensor handle internals: `InferenceShape`, `SetRemoteShape` and `Poison` are small stand-ins. A poisoned handle answers with its error, otherwise with its remote, inferred or unknown shape, and a remote shape is refused unless it is complete. Deleting a handle when its count reaches zero is not modelled.
- Handles.TensorHandle.SetRemoteShape: its failure condition (a shape that is not complete) is a stand-in for whatever the real handle rejects.
- The eager client, the transport and threading: the callback runs as a second, sequential call, and the response and final status are its parameters.
- `VLOG`/`LOG(ERROR)` output and the verbosity machinery: only the description string is kept, with verbosity as a boolean. The ignored-error log line prints the RPC status (always OK on that path), not the failing status `s`. The model has no log, so this is not represented.
- Allocation and deletion of the response buffer, and `TF_GRAPH_DEF_VERSION`: no observable effect on the modelled state.
- The single-shot phase marker (Constructed, Prepared, Dispatched, Done): the code has no such field, and the model does not enforce that `Prepare` precedes `RunAsync`.
- Output handles are assumed pairwise distinct (`Distinct(retvals)`), as the caller creates them fresh. Inputs may repeat and may alias outputs.
- Wire format of the request and response: they are plain sequences of queue items and shapes. Integer fields are bounded to 64 and 32 bits as in the messages.
