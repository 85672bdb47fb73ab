/** Enumerations and wrappers shared by the CPU inner-product and GPU pooling models. */
module Common {

  /** The conventional Some/None datatype, used where the source uses a pointer that may be null. */
  datatype Option<+T> = None | Some(value: T)

  /** Status codes returned by descriptor and primitive initialisation. */
  datatype Status = Success | OutOfMemory | InvalidArguments | Unimplemented | RuntimeError

  /** Element data types of memory descriptors. */
  datatype DataType = Undef | F16 | BF16 | F32 | S32 | S8 | U8

  /** Propagation kinds of a primitive descriptor. */
  datatype PropKind = ForwardTraining | ForwardInference | BackwardData | BackwardWeights | BackwardBias

  /** `is_fwd()`: the descriptor describes forward propagation. */
  predicate IsFwd(k: PropKind) {
    k == ForwardTraining || k == ForwardInference
  }
}
