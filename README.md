# EfficientNet / MixNet encoder adapters, modelled in Dafny

This project models the logic that `pytorch_toolbelt`'s timm EfficientNet
encoders carry themselves, leaving out everything they hand to `torch` and
`timm`. That logic is:

- **The input-channel adapter** `make_n_channel_input_conv2d_same`. It builds a new
  `Conv2dSame` first layer for a different number of input channels.
  - When the count grows, the weight is tiled `ceil(in / C)` times along the channel axis and cut to `in` channels.
  - When the count shrinks, the weight is cut to a prefix.
  - When the count is unchanged, the original convolution is returned with a warning.
- **The no-stride policy** of `B0Encoder` … `B7Encoder`. The stride table
  `[2, 4, 8, 16, 32]` has entries 3 and 4 overwritten with 8 in place. The
  depthwise convolutions of `blocks[5][0]` and `blocks[3][0]` get stride (1,1)
  and dilation (2,2).
- **The encoder object.** The nine classes differ only in constants, so they are
  one `Encoder` class driven by a `Variant` table. Each encoder has a five-entry
  channel table, a stride table and the backbone it owns.
  `change_input_channels` replaces the backbone's stem with the adapted current
  stem and returns the encoder itself.

A weight is `seq<seq<T>>`: O output filters, each a sequence of C per-channel
kernel slices of an opaque type `T`. The adapter only copies slices, so the
model has no floating-point arithmetic. The backbone, which comes from the
external model library, is a class with two fields:
- its stem convolution;
- a map from `(group, index)` to each block's depthwise-convolution configuration.

Files:
- `adapter.dfy` (module `ChannelAdapter`): the pure adapter, as functions and lemmas.
- `encoder.dfy` (module `EfficientNetEncoders`): the variant table, the stride
  policy, and the `Backbone` and `Encoder` classes. Their methods update state
  in place.

Changing a 3-channel stem to 6 channels and back to 3 gives back exactly the
original weights: the grow branch tiles the channels cyclically and the shrink
branch takes a prefix (`GrowThenShrinkRestores`). Only the module class becomes
`Conv2dSame`; timm also initialises a fresh bias, which this model does not track.
The lossy direction is shrinking first and then growing (`ShrinkThenGrow`,
`ShrinkThenGrowLosesChannels`).

## Model

| member | source | states |
|---|---|---|
| ChannelAdapter.AdaptInputChannels | pytorch_toolbelt/modules/encoders/timm/efficient_net.py:24-53 | Same count: the very same convolution, with the warning flag set. Otherwise a new Conv2dSame with `in` input channels, the original out_channels, and kernel/stride/padding/dilation/groups/bias-presence taken from the overrides or else copied. The filter count is kept and every filter has `in` channels. Grow: channel i equals original channel i mod C. Shrink: each filter is the original's first `in` channels. The result is well formed again unless groups is overridden |
| ChannelAdapter.CeilDiv | pytorch_toolbelt/modules/encoders/timm/efficient_net.py:45 | The tile count n satisfies n*C >= in and (n-1)*C < in, so the cut never runs past the tiled weight and uses at most one partial copy |
| ChannelAdapter.CatChannels | pytorch_toolbelt/modules/encoders/timm/efficient_net.py:46 | `torch.cat(..., dim=1)` of two weights keeps the filter count, and each filter is the first weight's channels followed by the second's |
| ChannelAdapter.SliceChannels | pytorch_toolbelt/modules/encoders/timm/efficient_net.py:47-50 | `w[:, lo:hi]` (the `[:in]` cut at 47 and the `[0:in]` cut at 50) keeps the filter count and cuts every filter to exactly its channels lo..hi |
| ChannelAdapter.NewConv | pytorch_toolbelt/modules/encoders/timm/efficient_net.py:32-41 | The new module is a Conv2dSame with the requested input channels, the original out_channels and the derived weight. Each given keyword override wins. Without overrides every other hyperparameter (kernel, stride, padding, dilation, groups, bias presence) is the original's |
| ChannelAdapter.TileChannels | pytorch_toolbelt/modules/encoders/timm/efficient_net.py:46 | `cat([w]*n, dim=1)` keeps the filter count and gives every filter n times its channels |
| ChannelAdapter.TileChannelsAt | pytorch_toolbelt/modules/encoders/timm/efficient_net.py:46 | In the n-fold tile, channel i of every filter is original channel i mod C |
| ChannelAdapter.GrowWeight | pytorch_toolbelt/modules/encoders/timm/efficient_net.py:44-48 | The grown weight has exactly `in` channels per filter, and channel i is original channel i mod C |
| ChannelAdapter.ShrinkWeight | pytorch_toolbelt/modules/encoders/timm/efficient_net.py:49-51 | The shrunk weight is exactly the first `in` channels of each filter (no averaging) |
| ChannelAdapter.GrowKeepsPrefix | pytorch_toolbelt/modules/encoders/timm/efficient_net.py:44-48 | The first C channels of a grown weight are the original weights, in order |
| ChannelAdapter.GrowThenShrinkRestores | pytorch_toolbelt/modules/encoders/timm/efficient_net.py:44-51 | Growing to any N >= C and shrinking back to C gives the original convolution exactly, except that the class becomes Conv2dSame when N > C |
| ChannelAdapter.ShrinkThenGrow | pytorch_toolbelt/modules/encoders/timm/efficient_net.py:44-51 | Shrinking to k < C and growing back to C puts original channel i mod k in channel i. The result equals the original if and only if every filter repeats with period k |
| ChannelAdapter.ShrinkThenGrowLosesChannels | pytorch_toolbelt/modules/encoders/timm/efficient_net.py:49-51 | A concrete 3-channel stem shrunk to 1 channel and grown back to 3 repeats channel 0 three times and differs from the original |
| EfficientNetEncoders.StageChannels | pytorch_toolbelt/modules/encoders/timm/efficient_net.py:78 | Each variant's five stage channel counts (B0 at line 78, B1 112, B2 146, B3 180, B4 214, B5 248, B6 283, B7 317, MixNetXL 338), five entries each and strictly increasing |
| EfficientNetEncoders.StageStrides | pytorch_toolbelt/modules/encoders/timm/efficient_net.py:67-76 | Five entries. Entries 0-2 are always 2, 4, 8. With no_stride, entries 3 and 4 are 8, giving [2,4,8,8,8]. Without it, the table is [2,4,8,16,32]. Non-decreasing either way |
| EfficientNetEncoders.Dilated | pytorch_toolbelt/modules/encoders/timm/efficient_net.py:70-71 | A rewritten conv_dw has stride (1,1) and dilation (2,2). Its kernel size, padding and channels are unchanged |
| EfficientNetEncoders.DilateBlock | pytorch_toolbelt/modules/encoders/timm/efficient_net.py:70-71 | Rewriting one block keeps the set of blocks, dilates that block if present, and leaves every other block unchanged |
| EfficientNetEncoders.NoStrideBlocks | pytorch_toolbelt/modules/encoders/timm/efficient_net.py:69-74 | Only blocks[5][0] and blocks[3][0] get stride (1,1) and dilation (2,2). Every other block is unchanged and no block is added or removed |
| EfficientNetEncoders.NoStrideBlocksIdempotent | pytorch_toolbelt/modules/encoders/timm/efficient_net.py:69-74 | Applying the rewrite a second time changes nothing |
| EfficientNetEncoders.Backbone.ApplyNoStride | pytorch_toolbelt/modules/encoders/timm/efficient_net.py:69-74 | Rewrites the blocks in place in the source's order. Succeeds if and only if both blocks exist, and then the table is NoStrideBlocks of the old one. If block (3,0) is missing, only block (5,0) has been rewritten. The stem is untouched |
| EfficientNetEncoders.Encoder.constructor | pytorch_toolbelt/modules/encoders/timm/efficient_net.py:57-79 | Defaults as in the source: layers [1, 2, 3, 4], no_stride off. Records the variant's channel table and a stride table built in an array and overwritten in place under no_stride, equal to StageStrides(no_stride). Under no_stride the backbone's blocks become NoStrideBlocks of the old ones; otherwise they are untouched. The stem is untouched |
| EfficientNetEncoders.Encoder.ChangeInputChannels | pytorch_toolbelt/modules/encoders/timm/efficient_net.py:85-89 | Replaces only the backbone's stem, with the adapter applied to the current stem. The new stem has `input_channels` channels. The blocks, channel table and strides are unchanged, and the method returns the encoder itself |

## Left out

- Tensor numerics of torch and timm are not modelled. That covers Conv2dSame's dynamic padding, parameter initialisation, and the freshly initialised bias of the new convolution (only `weight` is copied; the model tracks only whether a bias exists). `requires_grad` is not modelled either.
- Backbone construction is not modelled: the `tf_efficientnet_b*_ns` / `mixnet_xl` calls and pretrained-weight loading are foreign and may need the network. The constructor takes the built backbone as a parameter.
- `forward` and the `_take` output selection are not modelled: `_take` lives in `..common`, which is not part of this model.
- Activation lookup (`get_activation_block`, `Swish`) is left out: it is foreign.
- The `drop_path_rate` constants are left out: they are floats passed straight to the model library.
- The `mode` argument is left out because nothing reads it. The `warnings.warn` side effect is the boolean `warned`.
- CeilDiv: `math.ceil(in / float(C))` is modelled as an exact integer ceiling. The two agree for channel counts below 2^53.
- AdaptInputChannels: requires groups == 1, C >= 1 and in >= 1, which the source does not check. With groups != 1 the weight's second axis is in/groups, but the code tiles and cuts it against in_channels.
- The stride, dilation and padding of a convolution are (h, w) pairs. Named padding modes are not modelled.
- A `kernel_size` override changes only the recorded kernel size, because the copied slices are opaque. The same happens in the source, which keeps the old-shaped weight.
- Encoder.ChangeInputChannels: requires the groups override to be absent or 1, so that the stem stays well formed.
- Encoder.constructor: requires blocks (5,0) and (3,0) when no_stride is set. The source would raise at the first missing block; Backbone.ApplyNoStride models that failure. The constructor also requires no_stride to be off for MixNetXL, whose constructor has no such parameter.
- Depthwise convolutions are values in a map, not shared module objects, so aliasing between blocks is not modelled.
