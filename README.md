# ShuffleNet V2 channel routing, in Dafny

A model of the exact integer and index logic in the PyTorch definition of
ShuffleNet V2 (`ShuffleNetV2.py`), with proofs of what that logic promises.
The model has three parts:

- **Channel shuffle** (`channel_shuffle`). The channels of each batch item are
  viewed as a `groups x cpg` matrix in row-major order, transposed and
  flattened. Here `cpg = C / groups` is the number of channels per group.
  `ChannelShuffle.View`, `Transpose` and `Flatten` follow those three steps.
  The proofs show that output channel `c * groups + g` holds input channel
  `g * cpg + c`. The index map is a bijection, and its inverse is the shuffle
  with `groups` and `cpg` exchanged. One group gives the identity. Errors are
  modelled too: a zero `groups` fails the floor division, and a negative
  `groups` or one that does not divide `C` fails the view.
- **Inverted residual routing** (`InvertedResidual`). The constructor's
  stride assertion, `oup_inc = oup // 2`, the group counts its depthwise
  convolutions need, the `chunk` into two halves, the `_concat` along
  channels, and the final two-group shuffle. The convolution branches
  `banch1` and `banch2` are opaque functions on tensors. The only thing known
  of them is that they keep the batch size, emit `oup_inc` channels, and set
  the spatial size by their one strided 3 x 3 convolution. From that, the
  proofs place every channel: in a kind-1 block (`benchmodel == 1`), the
  untouched half `x1` lands on the even output channels and `banch2`'s output
  on the odd ones. This needs a stride that keeps the spatial size; a kind-1
  block with stride 2 fails the concatenation on every input taller or wider
  than 1. A kind-2 block does the same
  with `banch1` and `banch2`, at any stride. Any other kind leaves `out`
  unbound, which is an error.
- **Architecture configuration** (`ShuffleNetV2.__init__`). `Network.Build`
  is a method with the source's nested loops. It appends blocks to a growing
  sequence and threads `input_channel` through them. Its result is tied to
  an independent, index-based description of the 16 blocks
  (`Network.ExpectedFeatures`). Lemmas about that description state the
  promised layout. Block 0 takes the stem's 24 channels, and each later block
  takes what the block before it emits. Blocks 0, 4 and 12 open a stage with
  stride 2 and kind 2. Every kind-1 block keeps its width, every width is
  even, and so every block emits exactly `oup` channels.

A tensor (`Base.Tensor`) is N batch items of C channels each. Each channel
holds one H x W plane of an opaque type, and the tensor records H and W. All
the modelled reshapes move planes whole and keep H and W.

The width multiplier is a `real`. The four accepted values 0.5, 1.0, 1.5 and
2.0 are exact binary fractions. So the source's float comparisons against
them are exact, and any other value is rejected, as in the source.

The residual block is usually described as splitting at stride 1 and
downsampling at stride 2. The code picks the behaviour by `benchmodel`, not
by `stride`, and the model follows the code. In the network the two always
agree (`Network.FeaturesLayout`).

Two remarks on the source that the proofs make precise:

- The commented-out assertion `inp == oup_inc` in the kind-1 constructor
  (ShuffleNetV2.py:63) would fail for every kind-1 block the network builds.
  Those blocks have `inp == 2 * oup_inc` with `oup_inc > 0`
  (`Network.SplitMatchesBanch2`). What does hold is that the second chunk has
  exactly the `oup_inc` channels `banch2` is built for.
- The commented-out slicing at ShuffleNetV2.py:111-112 would give the first
  half `C // 2` channels. `chunk` gives it `ceil(C / 2)`. The two agree on the
  even channel counts the network uses. `Residual.Chunk2` models `chunk`.

## Model

| member | source | states |
|---|---|---|
| `ChannelShuffle.View` | ShuffleNetV2.py:42-43 | the view of `rows * cols` channels has `rows` rows of `cols` entries, and entry `(r, c)` is channel `r * cols + c` |
| `ChannelShuffle.Transpose` | ShuffleNetV2.py:45 | the transpose of a `rows x cols` matrix is `cols x rows`, and entry `(r, c)` moves to `(c, r)` |
| `ChannelShuffle.Flatten` | ShuffleNetV2.py:48 | flattening `rows` rows of `cols` entries gives `rows * cols` entries |
| `ChannelShuffle.FlattenAt` | ShuffleNetV2.py:45-48 | flattening a matrix whose rows all have `cols` entries puts entry (row, col) at position `row * cols + col` |
| `ChannelShuffle.ShuffleSource` | ShuffleNetV2.py:39-48 | the input position that feeds output position `k` lies in `[0, C)` |
| `ChannelShuffle.Shuffle` | ShuffleNetV2.py:36-50 | view, transpose and flatten keep the channel count, and output position `k` holds input position `(k % groups) * cpg + k / groups` |
| `ChannelShuffle.ShuffleAt` | ShuffleNetV2.py:39-48 | with `cpg = C / groups`, output channel `c * groups + g` holds input channel `g * cpg + c` for every `g < groups` and `c < cpg` |
| `ChannelShuffle.ShuffleSourceInverse` | ShuffleNetV2.py:39-48 | the index map with `groups` and `cpg` exchanged undoes the index map, and `cpg > 0` whenever a position exists |
| `ChannelShuffle.ShuffleSourceBijective` | ShuffleNetV2.py:39-48 | the shuffle's index map is a bijection on `[0, C)`: it is injective, and the exchanged map is a right inverse |
| `ChannelShuffle.ShuffleInverse` | ShuffleNetV2.py:39-48 | shuffling with `groups` and then with `C / groups` gives back the input |
| `ChannelShuffle.ShuffleOneGroup` | ShuffleNetV2.py:39-48 | a shuffle with one group is the identity |
| `ChannelShuffle.ChannelShuffleTensor` | ShuffleNetV2.py:36-50 | fails with a division error when `groups == 0` and with a view error when `groups` is negative or does not divide `C`; otherwise it succeeds, keeps the batch size, channel count, height and width, and each output plane is the input plane of the same item at the shuffled position |
| `Residual.InvertedResidual.OupInc` | ShuffleNetV2.py:60 | `oup_inc` is `oup` halved and rounded down: `2 * oup_inc <= oup < 2 * oup_inc + 2` |
| `Residual.InvertedResidual.HasBanch1` | ShuffleNetV2.py:62-102 | a block builds `banch1` exactly when its kind is not 1; such a block feeds `banch2` the whole input, and a kind-1 block feeds it `oup_inc` channels |
| `Residual.InvertedResidual.Banch2Inputs` | ShuffleNetV2.py:62-102 | in kind 1, `banch2` takes half of `oup` rounded down, not half of `inp`; in any other kind it takes all `inp` channels |
| `Residual.NewInvertedResidual` | ShuffleNetV2.py:54-102 | a stride other than 1 or 2 fails the assertion; otherwise the block is built exactly when `oup >= 2` and, outside kind 1, `inp > 0`, so that every depthwise convolution gets a positive group count, and fails with a layer error otherwise; a built block keeps its four arguments |
| `Residual.Chunk2` | ShuffleNetV2.py:113 | `chunk(2)` fails to unpack exactly when `C == 1`; otherwise the first piece has `ceil(C / 2)` channels and the second `floor(C / 2)`, even for an empty batch, both keep the batch size, height and width, and together they are the input |
| `Residual.Concat` | ShuffleNetV2.py:104-107 | concatenation fails exactly when the batch sizes, heights or widths differ; otherwise the channel counts add up, the sizes are kept, the first part of each item is `a`'s and the rest is `b`'s |
| `Residual.ChunkConcat` | ShuffleNetV2.py:104-113 | concatenating the two chunks gives back the input whenever `C != 1` |
| `Residual.ConcatShuffle` | ShuffleNetV2.py:114-118 | the shared tail of `forward` fails in the concatenation on a size mismatch and in the shuffle on an odd channel total; otherwise the channel counts add up and the sizes are kept; two halves of equal width are interleaved, `a`'s channel `k` on `2k` and `b`'s on `2k + 1` |
| `Residual.Forward` | ShuffleNetV2.py:109-118 | a kind other than 1 or 2 fails with `out` unbound; kind 1 on a one-channel input fails to unpack; every result has an even channel count |
| `Residual.ConvOut` | ShuffleNetV2.py:70-71 | a 3 x 3 convolution with padding 1 keeps the spatial size at stride 1 and shrinks every size of at least 2 at stride 2 |
| `Residual.SplitRouting` | ShuffleNetV2.py:109-118 | kind 1 with `2 * oup_inc` input channels and a `banch2` of the branch shape succeeds exactly when `banch2`'s stride keeps height and width, and otherwise fails in the concatenation; on success it emits as many channels as it received at the same size, `x1[k]` on output channel `2k` and `banch2`'s channel `k` on `2k + 1` |
| `Residual.SplitStrideTwoFails` | ShuffleNetV2.py:54-77 | a kind-1 block built with stride 2, such as `InvertedResidual(4, 4, 2, 1)`, fails the concatenation on every input taller or wider than 1 |
| `Residual.DownsampleRouting` | ShuffleNetV2.py:115-118 | kind 2 with both branches of the branch shape succeeds at either stride with `2 * oup_inc` channels at the branches' spatial size; `banch1`'s channel `k` lands on output channel `2k` and `banch2`'s on `2k + 1` |
| `Network.StageOutChannels` | ShuffleNetV2.py:130-141 | the table exists exactly for the four supported widths, and any other width raises the width error; every table has 6 entries, a placeholder first and the stem's 24 second |
| `Network.StageTableShape` | ShuffleNetV2.py:130-137 | in every supported table, entries 1 to 5 are positive and even, and they grow strictly from the stem to the last layer |
| `Network.FeaturesLayout` | ShuffleNetV2.py:144-161 | there are 4 + 8 + 4 = 16 blocks; the first takes `stage_out_channels[1]`, and every other takes the previous block's `oup`; blocks 0, 4 and 12 have stride 2 and kind 2, and all others stride 1 and kind 1; the stages emit entries 2, 3 and 4 |
| `Network.FeaturesKeepWidth` | ShuffleNetV2.py:130-168 | with a supported width, every block has `2 * oup_inc == oup > 0`, every kind-1 block has `inp == oup`, and the last block emits `stage_out_channels[4]`, the input of `conv_last` |
| `Network.SplitMatchesBanch2` | ShuffleNetV2.py:60-77 | in every kind-1 block of the network, no `banch1` is built; the second chunk of an `inp`-channel input has exactly the `oup_inc` channels `banch2` takes; `inp == 2 * oup_inc != oup_inc` |
| `Network.BlockEmitsOup` | ShuffleNetV2.py:150-161 | every block of a network of supported width, fed its `inp` channels and given branches that emit `oup_inc` channels at the block's stride, succeeds and emits exactly its `oup` channels with the batch size kept; only the stride-2 blocks change the spatial size |
| `Network.BuildFeatures` | ShuffleNetV2.py:144-161 | the stage loop, given a table whose widths are at least 2, builds every block and produces exactly the 16 reference blocks, leaving `input_channel` at entry 4 |
| `Network.Build` | ShuffleNetV2.py:122-174 | an input size not a multiple of 32 fails the assertion first; then any unsupported width raises the width error; with a supported width every block can be built, and construction succeeds exactly when `n_class >= 0`, failing with a layer error in the classifier otherwise; a built network has the stage repeats, the width table, the stem `3 -> 24`, exactly the 16 reference blocks, `conv_last` from entry 4 to entry 5, a pooling kernel of `input_size / 32`, and a classifier from entry 5 to `n_class` |
| `Network.WidthMult` | ShuffleNetV2.py:194-227 | every factory passes a supported width multiplier |
| `Network.PretrainedKey` | ShuffleNetV2.py:194-227 | a checkpoint is requested exactly when `pretrained` is set, and only by the 0.5 and 1.0 factories |
| `Network.Factory` | ShuffleNetV2.py:188-227 | a factory called with `pretrained=False` fails the assertion when the input size is not a multiple of 32; otherwise it succeeds exactly when `n_class >= 0` and fails in the classifier otherwise; a built network has the table of its width and the 16 reference blocks |

## Left out

- Convolutions, batch normalisation, ReLU, pooling and the linear classifier
  are floating-point tensor numerics inside the framework. `conv_bn`,
  `conv_1x1_bn`, `conv_last` and the classifier are recorded only by their
  channel counts (`Network.Layer`). `banch1` and `banch2` are opaque
  functions.
- A branch that the framework would reject because its input has the wrong
  channel count is not modelled. The branches are total functions. The
  routing lemmas assume only the branch shape (batch size kept, `oup_inc`
  channels out, spatial size by `Residual.ConvOut`).
- Spatial sizes are modelled only inside a block, where `torch.cat` needs
  them equal. The stem convolution, the max-pool and the global average pool
  do not track them. A convolution whose output size would be below 1 is an
  error in the framework; the model gives size 0 instead. The global pool's
  kernel is recorded as `input_size / 32`. That division is exact because
  the constructor checks divisibility first. For inputs too large for a
  float to hold exactly, `int(input_size / 32)` is not modelled.
- Residual.NewInvertedResidual: of the framework's checks when the branch
  layers are built, only the positive group count of the depthwise
  convolutions is modelled. With those counts positive, every convolution
  and batch normalisation of the block has positive sizes, and is taken to
  be built.
- Residual.Concat: the tensors' element types and devices are not
  modelled. Both halves come from the same block, so they share both.
- Network.Build: of the framework's checks on the stem, `conv_last`, the
  pooling layers and the classifier, only the classifier's negative `n_class`
  is modelled. The other layers receive positive table entries. A pooling
  kernel of 0 (`input_size == 0`) is accepted at construction, as the
  framework checks it only when the layer runs.
- Network.Factory: calls `Network.Build`, so it inherits the same treatment
  of framework layer construction. It models a call with `pretrained=False`.
  With `pretrained=True`, the 0.5 and 1.0 factories also load a checkpoint,
  and `load_state_dict` raises a size mismatch on the classifier's weight
  whenever `n_class != 1000`; that failure is not modelled.
- Default arguments (`n_class=1000, input_size=224, width_mult=1.` at
  ShuffleNetV2.py:122 and `pretrained=False` in the factories) are not
  modelled: `Network.Build` and `Network.Factory` take every argument
  explicitly.
- `ShuffleNetV2.forward` (ShuffleNetV2.py:177-185) is a chain of framework
  layers. Only its channel bookkeeping is modelled, by `Network.BlockEmitsOup`
  and the layer records of `Network.Build`.
- Weight download (ShuffleNetV2.py:197-199, 206-208) is network I/O, and
  `load_state_dict` copies weights, with the shape check noted under
  `Network.Factory` above. The model records only which checkpoint key is
  requested (`Network.PretrainedKey`).
- `shufflenetv2(width_mult, ...)` (ShuffleNetV2.py:188-191) passes its
  arguments straight to the constructor, so it is `Network.Build` itself.
- Autograd, `Variable`, `.contiguous()` and memory layout are left out. Only
  the logical index permutation is modelled.
- Tensors with zero elements are left out. Reshaping them with an inferred
  `-1` dimension is a framework corner case that the model does not capture.
  It returns the empty shuffled tensor.
- A NaN or infinite width multiplier is not representable as a `real`.
  The source rejects such values with the same width error as any other
  unsupported value.
- The `__main__` smoke test uses random tensors and printing.
