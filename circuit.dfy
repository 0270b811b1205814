/**
 * The gate interface the campaign consumes from the circuit library: a type name and the
 * ordered target and control bit positions. The gates themselves are built by the
 * synthesizer, which is not part of this model.
 */
module Circuit {
  datatype Gate = Gate(typeName: string, targetBits: seq<int>, controlBits: seq<int>)
}
