/**
 * The OpenCL gen9 global pooling primitive descriptors: which forward and
 * backward descriptors they accept, the s32 workspace they record, and the status
 * of the primitive's own `init` when kernel creation fails.
 */
module Gen9GlobalPooling {
  import opened Common

  /** Algorithm kinds; `OtherAlg` stands for every non-pooling algorithm. */
  datatype AlgKind = PoolingMax | PoolingAvgIncludePadding | PoolingAvgExcludePadding | OtherAlg

  /**
   * A pooling descriptor as its `pd_t::init` reads it. For a backward descriptor
   * `srcDt` and `dstDt` are the types of diff_src and diff_dst, and `dstDims` the
   * dimensions of diff_dst; `dstFormat` stands for the rest of that memory
   * descriptor (layout, padding, strides), compared only for equality. The two flags are the outcomes of
   * `set_default_params()` and `attr()->has_default_values()`.
   */
  datatype PoolingDesc = PoolingDesc(
    propKind: PropKind,
    algKind: AlgKind,
    srcDt: DataType,
    dstDt: DataType,
    dstDims: seq<nat>,
    dstFormat: nat,
    setDefaultParamsOk: bool,
    defaultAttr: bool)

  /** The workspace memory descriptor: its data type, its dimensions and the rest of its layout. */
  datatype Workspace = Workspace(dt: DataType, dims: seq<nat>, format: nat)

  /** The outcome of `pd_t::init`: its status and the workspace the descriptor records. */
  datatype PdInit = PdInit(status: Status, ws: Option<Workspace>)

  predicate IsPoolingAlg(alg: AlgKind) {
    alg == PoolingMax || alg == PoolingAvgIncludePadding || alg == PoolingAvgExcludePadding
  }

  /** Both types are f32, or both are bf16. */
  predicate SameF32OrBf16(a: DataType, b: DataType) {
    (a == F32 && b == F32) || (a == BF16 && b == BF16)
  }

  /** `init_default_ws(dt)`: the (diff) destination's memory descriptor with its type replaced by `dt`. */
  function DefaultWs(d: PoolingDesc, dt: DataType): Workspace {
    Workspace(dt, d.dstDims, d.dstFormat)
  }

  /** `compare_ws(hint_fwd_pd_)`: the forward hint exists and records the same workspace. */
  predicate CompareWs(ws: Workspace, hintWs: Option<Workspace>) {
    hintWs == Some(ws)
  }

  /** The `ok` condition of the forward `pd_t::init`. */
  predicate FwdAccepts(d: PoolingDesc) {
    && d.setDefaultParamsOk
    && (d.propKind == ForwardTraining || d.propKind == ForwardInference)
    && IsPoolingAlg(d.algKind)
    && SameF32OrBf16(d.srcDt, d.dstDt)
    && d.defaultAttr
  }

  /** The `ok` condition of the backward `pd_t::init`. */
  predicate BwdAccepts(d: PoolingDesc) {
    && d.setDefaultParamsOk
    && d.propKind == BackwardData
    && IsPoolingAlg(d.algKind)
    && SameF32OrBf16(d.dstDt, d.srcDt)
    && d.defaultAttr
  }

  /**
   * Forward `pd_t::init`; `confStatus` is what `init_conf` returns. A rejected
   * descriptor yields unimplemented and no workspace; an accepted one records an
   * s32 workspace exactly for max pooling in training.
   */
  function FwdPdInit(d: PoolingDesc, confStatus: Status): (r: PdInit)
    ensures !FwdAccepts(d) ==> r == PdInit(Unimplemented, None)
    ensures FwdAccepts(d) ==> r.status == confStatus
    ensures r.ws.Some? <==> FwdAccepts(d) && d.algKind == PoolingMax && d.propKind == ForwardTraining
    ensures r.ws.Some? ==> r.ws.value == Workspace(S32, d.dstDims, d.dstFormat)
  {
    if !FwdAccepts(d) then PdInit(Unimplemented, None)
    else
      var isTraining := d.propKind == ForwardTraining;
      var ws := if d.algKind == PoolingMax && isTraining then Some(DefaultWs(d, S32)) else None;
      PdInit(confStatus, ws)
  }

  /**
   * Backward `pd_t::init`; `hintWs` is the workspace of the forward hint
   * (None when there is no hint or it has no workspace). Max pooling records an s32
   * workspace and is rejected unless the hint records the same one.
   */
  function BwdPdInit(d: PoolingDesc, hintWs: Option<Workspace>, confStatus: Status): (r: PdInit)
    ensures !BwdAccepts(d) ==> r == PdInit(Unimplemented, None)
    ensures r.ws.Some? <==> BwdAccepts(d) && d.algKind == PoolingMax
    ensures r.ws.Some? ==> r.ws.value == Workspace(S32, d.dstDims, d.dstFormat)
    ensures BwdAccepts(d) && d.algKind == PoolingMax && hintWs != r.ws ==> r.status == Unimplemented
    ensures BwdAccepts(d) && (d.algKind != PoolingMax || hintWs == r.ws) ==> r.status == confStatus
  {
    if !BwdAccepts(d) then PdInit(Unimplemented, None)
    else if d.algKind == PoolingMax then
      var ws := DefaultWs(d, S32);
      if !CompareWs(ws, hintWs) then PdInit(Unimplemented, Some(ws)) else PdInit(confStatus, Some(ws))
    else PdInit(confStatus, None)
  }

  /** A forward descriptor that initialises successfully has a supported kind, algorithm and matched types. */
  lemma FwdSuccessRequires(d: PoolingDesc, confStatus: Status)
    requires FwdPdInit(d, confStatus).status == Success
    ensures d.propKind in {ForwardTraining, ForwardInference}
    ensures d.algKind in {PoolingMax, PoolingAvgIncludePadding, PoolingAvgExcludePadding}
    ensures d.srcDt == d.dstDt && d.srcDt in {F32, BF16}
    ensures d.setDefaultParamsOk && d.defaultAttr && confStatus == Success
  {
  }

  /** A backward descriptor that initialises successfully is backward_data with matched types. */
  lemma BwdSuccessRequires(d: PoolingDesc, hintWs: Option<Workspace>, confStatus: Status)
    requires BwdPdInit(d, hintWs, confStatus).status == Success
    ensures d.propKind == BackwardData
    ensures d.algKind in {PoolingMax, PoolingAvgIncludePadding, PoolingAvgExcludePadding}
    ensures d.srcDt == d.dstDt && d.srcDt in {F32, BF16}
    ensures d.setDefaultParamsOk && d.defaultAttr && confStatus == Success
    ensures d.algKind == PoolingMax ==> hintWs == Some(Workspace(S32, d.dstDims, d.dstFormat))
  {
  }

  /**
   * Forward and backward agree on the workspace: an accepted backward max-pooling
   * descriptor whose hint is the forward descriptor `f` passes the workspace check
   * exactly when `f` is accepted max pooling in training whose destination has the
   * same dimensions and layout. A forward_inference hint therefore never serves a max-pooling backward.
   */
  lemma BwdMaxAcceptsHintIffTrainingMax(f: PoolingDesc, b: PoolingDesc, fwdConf: Status, bwdConf: Status)
    requires BwdAccepts(b) && b.algKind == PoolingMax
    ensures BwdPdInit(b, FwdPdInit(f, fwdConf).ws, bwdConf).status ==
            if FwdAccepts(f) && f.algKind == PoolingMax && f.propKind == ForwardTraining
               && f.dstDims == b.dstDims && f.dstFormat == b.dstFormat
            then bwdConf else Unimplemented
  {
  }

  /** A kernel handle created from a named OpenCL kernel. */
  datatype Kernel = Kernel(name: string)

  const FwdKernelName: string := "gen9_global_pooling_fwd"
  const BwdKernelName: string := "gen9_global_pooling_bwd"

  /** The primitive (forward or backward, told apart by its kernel name) and the kernel its `init` creates. */
  class GlobalPoolingPrimitive {
    const kernelName: string
    var kernel: Option<Kernel>

    constructor (kernelName: string)
      requires kernelName == FwdKernelName || kernelName == BwdKernelName
      ensures this.kernelName == kernelName && kernel == None
    {
      this.kernelName := kernelName;
      kernel := None;
    }

    /**
     * Primitive `init`: `kernelCtxStatus` is what `init_kernel_ctx` returns and
     * `created` whether kernel creation produced a kernel. A failing kernel context
     * is returned unchanged; a missing kernel yields runtime_error.
     */
    method Init(kernelCtxStatus: Status, created: bool) returns (status: Status)
      modifies this
      ensures kernelCtxStatus != Success ==> status == kernelCtxStatus && kernel == old(kernel)
      ensures kernelCtxStatus == Success ==> kernel == if created then Some(Kernel(kernelName)) else None
      ensures kernelCtxStatus == Success ==> status == if created then Success else RuntimeError
      ensures status == Success <==> kernelCtxStatus == Success && created
    {
      if kernelCtxStatus != Success {
        return kernelCtxStatus;
      }
      kernel := if created then Some(Kernel(kernelName)) else None;
      if kernel.None? {
        return RuntimeError;
      }
      return Success;
    }
  }
}
