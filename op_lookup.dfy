/** Resolution of an op name to its registration data: the graph-local
    function library is consulted first, the global op registry only when
    the library does not know the name. */
module OpLookup {
  import opened Status
  // Shape is declared with the handles, which store it; shape functions read it.
  import opened Handles

  /** The structural description of the node: its name and the op it runs. */
  datatype NodeDef = NodeDef(name: string, op: string)

  /** The op's declared signature; the inference context is built from it. */
  datatype OpDef = OpDef(name: string)

  /** A shape function maps the node and its input shapes to output shapes or an error. */
  type ShapeFn = (NodeDef, seq<Shape>) -> Result<seq<Shape>>

  datatype OpRegData = OpRegData(opDef: OpDef, shapeInferenceFn: ShapeFn)

  /** A registry, by op name. */
  type OpTable = map<string, OpRegData>

  /** Lookup in one registry; an unknown name is a NotFound error. */
  function TableLookUp(table: OpTable, op: string): (r: Result<OpRegData>)
    ensures r.Success? <==> op in table
    ensures r.Success? ==> r.value == table[op]
    ensures r.Failure? ==> r.error.code == NotFound
  {
    if op in table then Success(table[op])
    else Failure(Error(NotFound, "Op type not registered '" + op + "'"))
  }

  /** The lookup the node performs, with library-first precedence. */
  function LookUpOp(lib: OpTable, global: OpTable, op: string): (r: Result<OpRegData>)
    ensures op in lib ==> r == Success(lib[op])
    ensures op !in lib ==> r == TableLookUp(global, op)
    ensures r == TableLookUp(global + lib, op)
    ensures r.Failure? <==> op !in lib && op !in global
  {
    if op !in lib then TableLookUp(global, op) else TableLookUp(lib, op)
  }
}
