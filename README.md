# Quantized inner-product planning and gen9 global pooling descriptors

A Dafny model of three decision-and-bookkeeping pieces of oneDNN:

- **Scale precomputation** (`src/cpu/scale_utils.cpp`). `book_precomputed_scales`
  decides whether a float scratchpad buffer for combined source-times-weights
  scales is booked, and its size. `precompute_scales` picks the scale array that
  post-processing reads. When both scales are present it fills that buffer in place.
  Module `ScaleUtils` (`scale_utils.dfy`) models this with methods over `array<real>`
  and a registrar object. Each method is proved against a specification function:
  `PrecomputedScalesBooking` for the booking and `Precomputed` for the fill.
- **The int8 GEMM inner-product descriptor** (`src/cpu/gemm_x8s8s32x_inner_product.hpp`).
  Module `GemmX8S8S32XInnerProduct` (`inner_product.dfy`) models:
  - the acceptance conjunction of `pd_t::init`;
  - the `scales_mask_ok` loop;
  - the derivation of `dst_is_acc_`;
  - `init_scratchpad`.

  The descriptor is a class. Its `Init` sets `dstIsAcc` and books into a `Registrar`.
- **The gen9 global pooling descriptors** (`src/gpu/ocl/gen9_global_pooling.hpp`).
  Module `Gen9GlobalPooling` (`global_pooling.dfy`) models the forward and backward
  `pd_t::init` as functions. Each returns a status and the workspace the descriptor
  records. The primitive `init` is a class method that sets the kernel handle.

Shared enumerations (status codes, data types, propagation kinds) are in `common.dfy`.
The scratchpad registrar is in `scratchpad.dfy`. It keeps a map from buffer key to
(element type, element count). Scales are `real`, so products are exact.

## Model

| member | source | states |
|---|---|---|
| ScaleUtils.AsWrittenBookingMatchesFill | src/cpu/scale_utils.cpp:40-67 | the size the source books equals the number of slots precomputation writes, except for per-channel weights with `oc == 1`: then 1 float is booked and 16 are written |
| ScaleUtils.PrecomputedScalesSize | src/cpu/scale_utils.cpp:40-45 | corrected size: it equals the number of slots precomputation writes. It is 16 for mask 0 and `oc` for per-channel weights with `oc != 1`, which agrees with the source everywhere except the single-channel case |
| ScaleUtils.PrecomputedScalesBooking | src/cpu/scale_utils.cpp:35-46 | a buffer is booked only when both source and weight scales are non-default. The booking is f32. Its size is exactly the corrected size of `PrecomputedScalesSize`, which equals the number of slots precomputation writes. The source's line 42 books fewer slots when the weights are per-channel and `oc == 1` |
| ScaleUtils.BookPrecomputedScales | src/cpu/scale_utils.cpp:31-47 | the registrar gains exactly the precomputed-scales booking and nothing else. The booking uses the corrected size, not the size of line 42 |
| ScaleUtils.Precomputed | src/cpu/scale_utils.cpp:62-72 | both scales, single weight scale: all 16 slots equal `src[0] * wei[0]`. Both scales, per-channel: slot `c` equals `src[0] * wei[c]` for every `c < oc`. Slots past the filled range are unchanged. Without both scales the buffer is unchanged |
| ScaleUtils.PrecomputedChannelScale | src/cpu/scale_utils.cpp:62-73 | every output channel `c < oc` finds its combined scale `src[0] * wei[slot]` at slot 0 (single weight scale) or at slot `c` (per-channel) |
| ScaleUtils.PrecomputedPerChannelExample | src/cpu/scale_utils.cpp:68-72 | source scale 2.0 with weight scales [1.0, 2.0, 0.5] over 3 channels gives [2.0, 4.0, 1.0] |
| ScaleUtils.GrantedBufferSuffices | src/cpu/scale_utils.cpp:41-67 | a buffer of the booked size satisfies every precondition of precomputation |
| ScaleUtils.ArraySet | src/cpu/scale_utils.cpp:66-67 | the first `n` slots hold the value and the rest of the array is unchanged |
| ScaleUtils.PrecomputeScales | src/cpu/scale_utils.cpp:49-81 | the buffer ends as `Precomputed` of its old contents. The result is the buffer when both scales are present, `srcScales` when only source scales are present, and `weiScales` otherwise. The input scale arrays are never written |
| GemmX8S8S32XInnerProduct.ImplNameOfAccepted | src/cpu/gemm_x8s8s32x_inner_product.hpp:47-58 | an accepted descriptor reports the s8s8s32 name iff its source is s8, and the s8u8s32 name iff its source is u8 |
| GemmX8S8S32XInnerProduct.ScalesMaskOk | src/cpu/gemm_x8s8s32x_inner_product.hpp:90-102 | the loop over src, weights and dst returns true iff the src mask is 0, the dst mask is 0 and the weights mask is 0 or 1 |
| GemmX8S8S32XInnerProduct.AcceptedShape | src/cpu/gemm_x8s8s32x_inner_product.hpp:55-76 | an accepted descriptor is forward, with src in {s8, u8}, weights s8, dst in {f32, s32, s8, u8}, any bias in {f32, s32, s8, u8}, and valid scale masks |
| GemmX8S8S32XInnerProduct.Find | src/cpu/gemm_x8s8s32x_inner_product.hpp:78 | the result is the index of the first post-op of the given kind, or -1 iff there is none |
| GemmX8S8S32XInnerProduct.DstIsAcc | src/cpu/gemm_x8s8s32x_inner_product.hpp:78-80 | the destination is the accumulator iff it is s32 or f32 and the post-op list has no sum |
| GemmX8S8S32XInnerProduct.IpScratchpadPlan | src/cpu/gemm_x8s8s32x_inner_product.hpp:105-114 | an s32 accumulator of exactly `MB*OC` elements is booked iff the destination is not the accumulator. The precomputed-scales buffer is booked iff both scales are present. Its size is the corrected size for `OC`, not the size of scale_utils.cpp line 42 |
| GemmX8S8S32XInnerProduct.AccumulatorBookedIffNarrowOrSum | src/cpu/gemm_x8s8s32x_inner_product.hpp:78-111 | the accumulator is booked iff the destination is neither s32 nor f32, or a sum post-op is present |
| GemmX8S8S32XInnerProduct.InnerProductFwdPd.Init | src/cpu/gemm_x8s8s32x_inner_product.hpp:52-85 | returns success iff the descriptor is accepted, and unimplemented otherwise. On success `dstIsAcc` is derived and the plan is booked, with the corrected precomputed-scales size. On rejection neither `dstIsAcc` nor the registrar changes |
| GemmX8S8S32XInnerProduct.InnerProductFwdPd.InitScratchpad | src/cpu/gemm_x8s8s32x_inner_product.hpp:105-114 | the registrar gains exactly the plan for the current `dstIsAcc`, `MB`, `OC` and scales, with the corrected precomputed-scales size |
| Gen9GlobalPooling.FwdPdInit | src/gpu/ocl/gen9_global_pooling.hpp:44-67 | a rejected descriptor gives unimplemented and no workspace. An accepted one gives `init_conf`'s status. An s32 workspace with the destination's dimensions and layout is recorded iff the descriptor is accepted, max pooling and forward_training |
| Gen9GlobalPooling.BwdPdInit | src/gpu/ocl/gen9_global_pooling.hpp:106-130 | a rejected descriptor gives unimplemented and no workspace. Accepted max pooling records an s32 workspace with the diff destination's dimensions and layout. It gives unimplemented unless the hint's workspace is equal to it. Otherwise the result is `init_conf`'s status |
| Gen9GlobalPooling.FwdSuccessRequires | src/gpu/ocl/gen9_global_pooling.hpp:49-60 | forward success implies: prop_kind is forward_training or forward_inference; the algorithm is max, avg_include_padding or avg_exclude_padding; src and dst are both f32 or both bf16; default attributes and default params |
| Gen9GlobalPooling.BwdSuccessRequires | src/gpu/ocl/gen9_global_pooling.hpp:110-127 | backward success implies backward_data, a pooling algorithm, diff_dst and diff_src both f32 or both bf16, and default attributes. For max pooling it also implies that the hint carries the same s32 workspace |
| Gen9GlobalPooling.BwdMaxAcceptsHintIffTrainingMax | src/gpu/ocl/gen9_global_pooling.hpp:124-127 | an accepted backward max-pooling descriptor passes the workspace check against a forward hint iff that hint is accepted max pooling in forward_training whose destination has the same dimensions and layout |
| Gen9GlobalPooling.GlobalPoolingPrimitive.Init | src/gpu/ocl/gen9_global_pooling.hpp:76-85 | a failing kernel context status is returned unchanged. Otherwise the kernel handle is set from creation. A missing kernel gives runtime_error. Success iff the context succeeded and a kernel was created. The backward `init` at lines 139-148 is the same, with the backward kernel name |

## Findings

| source | as written | input that shows it | evidently intended | confidence | as-written member | corrected member |
|---|---|---|---|---|---|---|
| src/cpu/scale_utils.cpp:40-45 | books `oc` floats whenever the weights mask is non-zero | both scales set, weights mask 1, `oc == 1`: 1 float is booked, but `precompute_scales` (lines 59-67) sees a weight scale count of 1 and writes 16 slots | book the broadcast width whenever one combined value is broadcast, so the booking covers every slot written | medium, not executed; the registry's alignment padding is not part of this model and may keep the overrun inside allocated memory | ScaleUtils.AsWrittenBookingMatchesFill | ScaleUtils.PrecomputedScalesSize |

`BookPrecomputedScales`, and through it the inner-product plan, uses the corrected size.

## Left out

- ScaleUtils.PrecomputedScalesBooking: books the corrected size, so with per-channel weights and `oc == 1` it books 16 floats where src/cpu/scale_utils.cpp:42 books 1 (see Findings).
- ScaleUtils.BookPrecomputedScales: adds the corrected-size booking, which differs from line 42 of src/cpu/scale_utils.cpp only for per-channel weights with `oc == 1` (16 floats instead of 1).
- GemmX8S8S32XInnerProduct.IpScratchpadPlan: its precomputed-scales entry has the corrected size, which differs from the source only for per-channel weights with `OC == 1` (16 floats instead of 1).
- GemmX8S8S32XInnerProduct.InnerProductFwdPd.InitScratchpad: books the corrected precomputed-scales size, which differs from the source only for per-channel weights with `OC == 1`.
- GemmX8S8S32XInnerProduct.InnerProductFwdPd.Init: through `InitScratchpad`, books the corrected precomputed-scales size, which differs from the source only for per-channel weights with `OC == 1`.
- Registrar and grantor internals (alignment, offsets, skipping zero-size bookings) are not part of this model. A booking is a map entry, and the granted buffer is an `array<real>` argument.
- Float scales are `real`: IEEE rounding of the scale products is not modelled.
- `MB()*OC()` is an unbounded `nat`: overflow of `dim_t` is not modelled.
- `PRAGMA_OMP_SIMD` and threading are not modelled. They do not change the sequential result.
- The bodies of `set_default_params`, `dense_gemm_consitency_check`, `attr_.set_default_formats`, `post_ops_ok`, `check_sum_consistent_dt` and `has_default_values` are not part of this model. Their outcomes are booleans of the descriptor records. Their side effects on memory formats are not modelled.
- `compare_ws` is not part of this model. It is taken as equality of workspace records with the hint's workspace, and a missing hint compares unequal. A workspace record holds the type, the dimensions and one abstract layout value that stands for the rest of the memory descriptor.
- `init_conf`, `init_kernel_ctx` and `create_kernel` are OpenCL plumbing. Their outcomes are parameters: a status, a status, and whether a kernel was produced.
- The inner-product primitive's `init` (`pp_kernel_t::create`, `create_kernel`), `execute_forward`, `execute_backward` and the GEMM call are not modelled. They are code generation or kernels whose bodies are not part of this model.
- The post-op list is modelled as a sequence of kinds (sum, eltwise, binary). Post-op parameters are not modelled because only the presence of a sum is read here.
