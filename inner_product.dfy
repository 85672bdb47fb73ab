/**
 * The primitive descriptor of the GEMM-based int8 inner product
 * (`gemm_x8s8s32x_inner_product_fwd_t::pd_t`): which descriptors it accepts,
 * whether the destination can serve as the int32 accumulator, and the scratchpad
 * it books.
 */
module GemmX8S8S32XInnerProduct {
  import opened Common
  import opened Scratchpad
  import opened ScaleUtils

  /** Kinds of post-op entries. */
  datatype PostOpKind = Sum | Eltwise | Binary

  /** The shapes and data types of an inner-product descriptor. */
  datatype IpDesc = IpDesc(
    propKind: PropKind,
    hasZeroDimMemory: bool,
    srcDt: DataType,
    weiDt: DataType,
    dstDt: DataType,
    biasDt: Option<DataType>,  // None when there is no bias
    mb: nat,                   // MB(): the minibatch
    oc: nat)                   // OC(): the output channels

  /** The attributes: runtime scales and the post-op list. */
  datatype Attr = Attr(scales: ArgScales, postOps: seq<PostOpKind>)

  /** Outcomes of library checks whose bodies are not part of this model. */
  datatype ExternalChecks = ExternalChecks(
    attrDefaultExceptScalesAndPostOps: bool,  // attr()->has_default_values(scales_runtime | post_ops, dst)
    sumDtConsistent: bool,                    // post_ops_.check_sum_consistent_dt(dst)
    setDefaultParamsOk: bool,                 // set_default_params() == success
    denseGemmConsistent: bool,                // dense_gemm_consitency_check(src, weights, dst)
    setDefaultFormatsOk: bool,                // attr_.set_default_formats(dst) == success
    postOpsOk: bool)                          // inner_product_utils::post_ops_ok(post_ops, dst)

  /** The implementation names reported by the descriptor. */
  datatype ImplName = IgemmS8U8S32 | IgemmS8S8S32

  /** The name of the implementation: the u8 variant exactly when the source is u8. */
  function ImplNameOf(srcDt: DataType): ImplName {
    if srcDt == U8 then IgemmS8U8S32 else IgemmS8S8S32
  }

  /** Data types allowed for the destination and for the bias. */
  predicate IsOutputOrBiasDt(dt: DataType) {
    dt == F32 || dt == S32 || dt == S8 || dt == U8
  }

  /** The masks the implementation supports: whole-tensor source and destination scales, whole-tensor or per-output-channel weights scales. */
  predicate ScalesMasksValid(scales: ArgScales) {
    scales.src.mask == 0 && scales.dst.mask == 0 && (scales.weights.mask == 0 || scales.weights.mask == 1)
  }

  /** The mask allowed for one argument in `scales_mask_ok`. */
  predicate MaskAllowed(arg: ScaleArg, mask: int) {
    if arg == ArgWeights then mask == 0 || mask == 1 else mask == 0
  }

  /** `scales_mask_ok`: checks the mask of each scaled argument in turn, accumulating into `ok`. */
  method ScalesMaskOk(scales: ArgScales) returns (ok: bool)
    ensures ok == ScalesMasksValid(scales)
  {
    var args := [ArgSrc, ArgWeights, ArgDst];
    ok := true;
    var i := 0;
    while i < |args|
      invariant 0 <= i <= |args|
      invariant ok <==> forall j :: 0 <= j < i ==> MaskAllowed(args[j], scales.Get(args[j]).mask)
    {
      var mask := scales.Get(args[i]).mask;
      if args[i] == ArgWeights {
        ok := ok && (mask == 0 || mask == 1);
      } else {
        ok := ok && mask == 0;
      }
      i := i + 1;
    }
    assert ok <==> MaskAllowed(args[0], scales.src.mask) && MaskAllowed(args[1], scales.weights.mask)
                   && MaskAllowed(args[2], scales.dst.mask);
  }

  /** The acceptance condition of `pd_t::init`. */
  predicate Accepts(d: IpDesc, a: Attr, x: ExternalChecks) {
    && IsFwd(d.propKind)
    && !d.hasZeroDimMemory
    && (d.srcDt == S8 || d.srcDt == U8)
    && d.weiDt == S8
    && IsOutputOrBiasDt(d.dstDt)
    && (d.biasDt.Some? ==> IsOutputOrBiasDt(d.biasDt.value))
    && x.attrDefaultExceptScalesAndPostOps
    && x.sumDtConsistent
    && ScalesMasksValid(a.scales)
    && x.setDefaultParamsOk
    && x.denseGemmConsistent
    && x.setDefaultFormatsOk
    && x.postOpsOk
  }

  /** A descriptor that is accepted is forward, with supported data types and scale masks. */
  lemma AcceptedShape(d: IpDesc, a: Attr, x: ExternalChecks)
    requires Accepts(d, a, x)
    ensures d.propKind == ForwardTraining || d.propKind == ForwardInference
    ensures d.srcDt in {S8, U8} && d.weiDt == S8 && d.dstDt in {F32, S32, S8, U8}
    ensures d.biasDt.Some? ==> d.biasDt.value in {F32, S32, S8, U8}
    ensures a.scales.src.mask == 0 && a.scales.dst.mask == 0 && a.scales.weights.mask in {0, 1}
  {
  }

  /** Every accepted descriptor reports the s8s8s32 name exactly when its source is s8, and the s8u8s32 name otherwise. */
  lemma ImplNameOfAccepted(d: IpDesc, a: Attr, x: ExternalChecks)
    requires Accepts(d, a, x)
    ensures ImplNameOf(d.srcDt) == IgemmS8S8S32 <==> d.srcDt == S8
    ensures ImplNameOf(d.srcDt) == IgemmS8U8S32 <==> d.srcDt == U8
  {
  }

  /** `post_ops_t::find(kind)`: the index of the first entry of `kind`, or -1 when there is none. */
  function Find(entries: seq<PostOpKind>, kind: PostOpKind): (idx: int)
    ensures -1 <= idx < |entries|
    ensures idx == -1 <==> kind !in entries
    ensures idx >= 0 ==> entries[idx] == kind && forall j :: 0 <= j < idx ==> entries[j] != kind
  {
    if |entries| == 0 then -1
    else if entries[0] == kind then 0
    else
      var rest := Find(entries[1..], kind);
      if rest < 0 then -1 else rest + 1
  }

  /**
   * The derivation of `dst_is_acc_`: the destination can hold the int32
   * accumulation exactly when it is s32 or f32 and no sum post-op reads it.
   */
  function DstIsAcc(dstDt: DataType, postOps: seq<PostOpKind>): (r: bool)
    ensures r <==> (dstDt == S32 || dstDt == F32) && Sum !in postOps
  {
    var doSum := Find(postOps, Sum) >= 0;
    (dstDt == S32 || dstDt == F32) && !doSum
  }

  /** The bookings of `init_scratchpad`. */
  function IpScratchpadPlan(dstIsAcc: bool, mb: nat, oc: nat, scales: ArgScales): (m: map<Key, Booking>)
    ensures KeyIprodIntDatInAccDt in m <==> !dstIsAcc
    ensures KeyIprodIntDatInAccDt in m ==> m[KeyIprodIntDatInAccDt] == Booking(S32, mb * oc)
    ensures KeyPrecomputedScales in m <==> scales.Combined()
    ensures KeyPrecomputedScales in m ==>
              m[KeyPrecomputedScales] == Booking(F32, PrecomputedScalesSize(scales, oc))
  {
    var acc := if dstIsAcc then map[] else map[KeyIprodIntDatInAccDt := Booking(S32, mb * oc)];
    acc + PrecomputedScalesBooking(scales, oc)
  }

  /**
   * Accumulator routing: an accepted descriptor books the int32 accumulator
   * exactly when its destination is narrow or a sum post-op is present.
   */
  lemma AccumulatorBookedIffNarrowOrSum(d: IpDesc, a: Attr)
    ensures var plan := IpScratchpadPlan(DstIsAcc(d.dstDt, a.postOps), d.mb, d.oc, a.scales);
            KeyIprodIntDatInAccDt in plan <==> d.dstDt !in {S32, F32} || Sum in a.postOps
  {
  }

  /** `pd_t`: the descriptor, its attributes and the state `init` sets. */
  class InnerProductFwdPd {
    const desc: IpDesc
    const attr: Attr
    const checks: ExternalChecks
    const registry: Registrar
    var dstIsAcc: bool

    constructor (desc: IpDesc, attr: Attr, checks: ExternalChecks, registry: Registrar)
      ensures this.desc == desc && this.attr == attr && this.checks == checks && this.registry == registry
    {
      this.desc := desc;
      this.attr := attr;
      this.checks := checks;
      this.registry := registry;
    }

    /**
     * `init`: rejects with unimplemented, leaving the state untouched, unless the
     * descriptor is accepted; otherwise sets `dstIsAcc` and books the scratchpad.
     */
    method Init() returns (status: Status)
      modifies this, registry
      ensures status == if Accepts(desc, attr, checks) then Success else Unimplemented
      ensures status == Success ==> dstIsAcc == DstIsAcc(desc.dstDt, attr.postOps)
      ensures status == Success ==>
                registry.entries == old(registry.entries) + IpScratchpadPlan(dstIsAcc, desc.mb, desc.oc, attr.scales)
      ensures status != Success ==> dstIsAcc == old(dstIsAcc) && registry.entries == old(registry.entries)
    {
      var masksOk := ScalesMaskOk(attr.scales);
      var ok := IsFwd(desc.propKind) && !desc.hasZeroDimMemory
        && (desc.srcDt == S8 || desc.srcDt == U8)
        && desc.weiDt == S8
        && IsOutputOrBiasDt(desc.dstDt)
        && (desc.biasDt.Some? ==> IsOutputOrBiasDt(desc.biasDt.value))
        && checks.attrDefaultExceptScalesAndPostOps
        && checks.sumDtConsistent
        && masksOk
        && checks.setDefaultParamsOk
        && checks.denseGemmConsistent
        && checks.setDefaultFormatsOk
        && checks.postOpsOk;
      if !ok {
        return Unimplemented;
      }

      var doSum := Find(attr.postOps, Sum) >= 0;
      dstIsAcc := (desc.dstDt == S32 || desc.dstDt == F32) && !doSum;

      InitScratchpad();
      return Success;
    }

    /** `init_scratchpad`: the int32 accumulator unless the destination is the accumulator, then the scale buffer. */
    method InitScratchpad()
      modifies registry
      ensures registry.entries == old(registry.entries) + IpScratchpadPlan(dstIsAcc, desc.mb, desc.oc, attr.scales)
    {
      if !dstIsAcc {
        registry.Book(KeyIprodIntDatInAccDt, S32, desc.mb * desc.oc);
      }
      BookPrecomputedScales(registry, attr.scales, desc.oc);
    }
  }
}
