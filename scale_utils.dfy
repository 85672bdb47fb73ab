/**
 * Scale precomputation for the quantized inner product: how large a buffer is
 * booked for the combined source-times-weights scales, and which scale array is
 * handed to post-processing, filling the booked buffer in place when both the
 * source and the weights carry runtime scales.
 */
module ScaleUtils {
  import opened Common
  import opened Scratchpad

  /** Number of broadcast slots filled when a single combined scale is used. */
  const ScalesSimdW: nat := 16

  /** The arguments that carry a runtime scale attribute. */
  datatype ScaleArg = ArgSrc | ArgWeights | ArgDst

  /** The runtime scale attribute of one argument: its mask and whether it is still the default. */
  datatype RuntimeScales = RuntimeScales(mask: int, defaultValues: bool)

  /** `arg_scales_t`: the runtime scale attributes of the source, weights and destination. */
  datatype ArgScales = ArgScales(src: RuntimeScales, weights: RuntimeScales, dst: RuntimeScales)
  {
    function Get(arg: ScaleArg): RuntimeScales {
      match arg
      case ArgSrc => src
      case ArgWeights => weights
      case ArgDst => dst
    }

    predicate WithSrcScales() { !src.defaultValues }

    predicate WithWeiScales() { !weights.defaultValues }

    /** Both sides carry runtime scales, so their product has to be precomputed. */
    predicate Combined() { WithSrcScales() && WithWeiScales() }
  }

  /** Number of weight scales: one for a whole-tensor mask, one per output channel otherwise. */
  function WeiScaleCount(scales: ArgScales, oc: nat): nat {
    if scales.weights.mask == 0 then 1 else oc
  }

  /** Number of leading slots of the scratchpad buffer that precomputation writes. */
  function FillCount(scales: ArgScales, oc: nat): nat {
    var count := WeiScaleCount(scales, oc);
    if count == 1 then ScalesSimdW else count
  }

  /** Index of the weight scale that the combined scale in slot `i` is made from. */
  function WeiIndex(scales: ArgScales, oc: nat, i: nat): nat {
    if WeiScaleCount(scales, oc) == 1 then 0 else i
  }

  /** Size of the precomputed-scales buffer exactly as the booking computes it. */
  function BookedSizeAsWritten(scales: ArgScales, oc: nat): nat {
    if scales.weights.mask == 0 then ScalesSimdW else oc
  }

  /**
   * The as-written booking holds every slot precomputation writes except when the
   * weights are per-channel over a single output channel: then one float is booked
   * and sixteen are written.
   */
  lemma AsWrittenBookingMatchesFill(scales: ArgScales, oc: nat)
    ensures BookedSizeAsWritten(scales, oc) == FillCount(scales, oc)
            <==> !(scales.weights.mask != 0 && oc == 1)
    ensures scales.weights.mask != 0 && oc == 1 ==>
              BookedSizeAsWritten(scales, oc) == 1 && FillCount(scales, oc) == ScalesSimdW
  {
  }

  /**
   * Size of the precomputed-scales buffer, booked with the same single-scale test
   * that precomputation uses: it is the broadcast width whenever one combined value
   * is broadcast, and `oc` otherwise.
   */
  function PrecomputedScalesSize(scales: ArgScales, oc: nat): (n: nat)
    ensures n == FillCount(scales, oc)
    ensures scales.weights.mask == 0 ==> n == ScalesSimdW
    ensures scales.weights.mask != 0 && oc != 1 ==> n == oc
    ensures !(scales.weights.mask != 0 && oc == 1) ==> n == BookedSizeAsWritten(scales, oc)
  {
    if scales.weights.mask == 0 || oc == 1 then ScalesSimdW else oc
  }

  /** The bookings `book_precomputed_scales` adds to the registrar. */
  function PrecomputedScalesBooking(scales: ArgScales, oc: nat): (m: map<Key, Booking>)
    ensures m.Keys == if scales.Combined() then {KeyPrecomputedScales} else {}
    ensures KeyPrecomputedScales in m ==> m[KeyPrecomputedScales].dt == F32
    ensures KeyPrecomputedScales in m ==> m[KeyPrecomputedScales].count == PrecomputedScalesSize(scales, oc)
    ensures KeyPrecomputedScales in m ==> m[KeyPrecomputedScales].count == FillCount(scales, oc)
  {
    if scales.Combined() then map[KeyPrecomputedScales := Booking(F32, PrecomputedScalesSize(scales, oc))]
    else map[]
  }

  /** `book_precomputed_scales`: books a float buffer only when both sides carry runtime scales. */
  method BookPrecomputedScales(registrar: Registrar, scales: ArgScales, oc: nat)
    modifies registrar
    ensures registrar.entries == old(registrar.entries) + PrecomputedScalesBooking(scales, oc)
  {
    var withSrcScales := !scales.src.defaultValues;
    var withWeiScales := !scales.weights.defaultValues;
    if withSrcScales && withWeiScales {
      var size := PrecomputedScalesSize(scales, oc);
      registrar.Book(KeyPrecomputedScales, F32, size);
    }
  }

  /** What precomputation needs of its inputs when both sides carry runtime scales. */
  predicate PrecomputeInputsOk(buf: seq<real>, src: seq<real>, wei: seq<real>, oc: nat, scales: ArgScales) {
    scales.Combined() ==>
      |src| >= 1 && |wei| >= WeiScaleCount(scales, oc) && |buf| >= FillCount(scales, oc)
  }

  /** The contents of the scratchpad buffer after precomputation, given its contents before. */
  function Precomputed(buf: seq<real>, src: seq<real>, wei: seq<real>, oc: nat, scales: ArgScales): (r: seq<real>)
    requires PrecomputeInputsOk(buf, src, wei, oc, scales)
    ensures |r| == |buf|
    ensures !scales.Combined() ==> r == buf
    ensures scales.Combined() && WeiScaleCount(scales, oc) == 1 ==>
              forall i :: 0 <= i < ScalesSimdW ==> r[i] == src[0] * wei[0]
    ensures scales.Combined() && WeiScaleCount(scales, oc) != 1 ==>
              forall c :: 0 <= c < oc ==> r[c] == src[0] * wei[c]
    ensures forall i :: FillCount(scales, oc) <= i < |buf| ==> r[i] == buf[i]
  {
    if !scales.Combined() then buf
    else
      seq(|buf|, i requires 0 <= i < |buf| =>
        if i < FillCount(scales, oc) then src[0] * wei[WeiIndex(scales, oc, i)] else buf[i])
  }

  /**
   * Every output channel finds its combined scale in the precomputed buffer: at
   * slot `c` for per-channel weights, at slot 0 (and every other broadcast slot)
   * for a single weight scale.
   */
  lemma PrecomputedChannelScale(buf: seq<real>, src: seq<real>, wei: seq<real>, oc: nat, scales: ArgScales, c: nat)
    requires PrecomputeInputsOk(buf, src, wei, oc, scales)
    requires scales.Combined() && c < oc
    ensures var r := Precomputed(buf, src, wei, oc, scales);
            var slot := WeiIndex(scales, oc, c);
            slot < |r| && r[slot] == src[0] * wei[slot]
  {
  }

  /** Three per-channel weight scales combined with source scale 2.0. */
  lemma PrecomputedPerChannelExample(buf: seq<real>)
    requires |buf| == 3
    ensures var scales := ArgScales(RuntimeScales(0, false), RuntimeScales(1, false), RuntimeScales(0, true));
            Precomputed(buf, [2.0], [1.0, 2.0, 0.5], 3, scales) == [2.0, 4.0, 1.0]
  {
  }

  /** A buffer granted with the booked size is large enough for precomputation. */
  lemma GrantedBufferSuffices(buf: seq<real>, src: seq<real>, wei: seq<real>, oc: nat, scales: ArgScales)
    requires scales.Combined()
    requires |src| >= 1 && |wei| >= WeiScaleCount(scales, oc)
    requires |buf| == PrecomputedScalesBooking(scales, oc)[KeyPrecomputedScales].count
    ensures PrecomputeInputsOk(buf, src, wei, oc, scales)
  {
  }

  /** `utils::array_set`: writes `v` into the first `n` slots of `a`. */
  method ArraySet(a: array<real>, v: real, n: nat)
    requires n <= a.Length
    modifies a
    ensures forall i :: 0 <= i < n ==> a[i] == v
    ensures forall i :: n <= i < a.Length ==> a[i] == old(a[i])
  {
    var i := 0;
    while i < n
      invariant 0 <= i <= n
      invariant forall k :: 0 <= k < i ==> a[k] == v
      invariant forall k :: i <= k < a.Length ==> a[k] == old(a[k])
    {
      a[i] := v;
      i := i + 1;
    }
  }

  /**
   * `precompute_scales`: returns the scale array post-processing reads. With both
   * sides scaled it fills the scratchpad buffer `buf` and returns it; with source
   * scales only it returns `srcScales`; otherwise it returns `weiScales`. The input
   * scale arrays are never written.
   */
  method PrecomputeScales(buf: array<real>, srcScales: array<real>, weiScales: array<real>, oc: nat, scales: ArgScales)
    returns (r: array<real>)
    requires buf != srcScales && buf != weiScales
    requires PrecomputeInputsOk(buf[..], srcScales[..], weiScales[..], oc, scales)
    modifies buf
    ensures buf[..] == Precomputed(old(buf[..]), srcScales[..], weiScales[..], oc, scales)
    ensures scales.Combined() ==> r == buf
    ensures !scales.Combined() && scales.WithSrcScales() ==> r == srcScales
    ensures !scales.WithSrcScales() ==> r == weiScales
    ensures unchanged(srcScales) && unchanged(weiScales)
  {
    var withSrcScales := !scales.src.defaultValues;
    var withWeiScales := !scales.weights.defaultValues;
    var weiScaleCount := WeiScaleCount(scales, oc);
    ghost var before := buf[..];

    if withSrcScales && withWeiScales {
      if weiScaleCount == 1 {
        ArraySet(buf, srcScales[0] * weiScales[0], ScalesSimdW);
      } else {
        var c := 0;
        while c < weiScaleCount
          invariant 0 <= c <= weiScaleCount
          invariant forall k :: 0 <= k < c ==> buf[k] == srcScales[0] * weiScales[k]
          invariant forall k :: c <= k < buf.Length ==> buf[k] == before[k]
        {
          buf[c] := srcScales[0] * weiScales[c];
          c := c + 1;
        }
      }
      ghost var expected := Precomputed(before, srcScales[..], weiScales[..], oc, scales);
      assert forall i :: 0 <= i < buf.Length ==> buf[..][i] == expected[i];
      r := buf;
    } else if withSrcScales {
      r := srcScales;
    } else {
      r := weiScales;
    }
  }
}
