# Normalizing-flow recipes and coupling masks, modelled in Dafny

This project models the discrete part of an image normalizing-flow library:

- the **mask generators** used by coupling layers (`create_checkerboard_mask`,
  `create_channel_mask` in `tools.py`), as rank-4 integer tensors;
- the **sampling-shape arithmetic** of `sample_save_show` (`tools.py`), which
  scales the batched image shape by a recipe's `sample_shape_factor` and
  truncates to integers;
- the **flow recipes** of `network.py`: `get_flow_layers`, the six
  `create_*_flow` builders and the `create_flow` dispatch by model name. A
  recipe is the ordered list of transform descriptors (dequantization,
  variational dequantization with its inner couplings, coupling layers with
  their network and mask, squeeze, split) plus the sampling factor.

The transforms themselves are floating-point modules and are kept opaque: a
descriptor records only what its constructor was given. A shape checker
(`Flows.Thread`) threads the (channels, height, width) of one image through a
recipe: a squeeze needs even height and width and gives 4x the channels at half
the size, a split needs an even channel count and halves it, and a coupling
fits when its `c_in`, its mask and its network agree with the shape that
reaches it.

Files: `wrappers.dfy` (Option, Result), `tools.dfy` (module `Tools`),
`flows.dfy` (module `Flows`: descriptors and the shape checker),
`network.dfy` (module `Network`: the recipes).

`get_flow_layers` and `create_multiscale_flow` grow their list step by step,
so they are methods (`Network.GetFlowLayers`, `Network.CreateMultiscaleFlow`)
with loops, proved equal to the declarative functions `Network.FlowLayers` and
`Network.MultiscaleFlow`; the call-and-return wrappers and all lemmas use those
functions.

Notes on the code:

- The multiscale recipe has 12 layers when it squeezes twice and 11 otherwise
  (variational dequantization, 2 couplings, squeeze, 2 couplings, split, then
  squeeze + 4 couplings, or 4 couplings).
- Sizes that are not a multiple of 4 are not rejected at construction; the
  recipe is built anyway. `Network.MultiscaleThread` shows that for an odd size
  that does not squeeze twice the layers do not fit the image.
- `create_partial_conv_flow` builds convolutional couplings with the
  partial-convolution flag set, not the GatedLinearNet couplings its docstring names.

## Model

| member | source | states |
|---|---|---|
| `Tools.Complement` | tools.py:71-72 | `1 - mask` keeps the shape and is `1 - x` at every entry |
| `Tools.ComplementInvolutive` | tools.py:71-72 | complementing twice returns the mask; the complement of a tensor is unique |
| `Tools.ComplementBinary` | tools.py:71-72 | the complement of a 0/1 tensor is a 0/1 tensor |
| `Tools.CheckerboardMask` | tools.py:66-73 | shape 1 x 1 x h x w; cell (i, j) is 1 exactly when i + j is odd, flipped by `invert` |
| `Tools.CheckerboardBinary` | tools.py:69-72 | every checkerboard entry is 0 or 1, inverted or not |
| `Tools.CheckerboardInvertComplements` | tools.py:71-72 | inverted and plain checkerboards are each other's complement |
| `Tools.CheckerboardAlternates` | tools.py:69 | horizontally or vertically adjacent cells differ; cell (0, 0) of the plain mask is 0 |
| `Tools.ChannelMask` | tools.py:76-82 | shape 1 x c_in x 1 x 1; channel k is 1 exactly when k < c_in // 2, flipped by `invert` |
| `Tools.ChannelBinary` | tools.py:77-81 | every channel-mask entry is 0 or 1, inverted or not |
| `Tools.ChannelInvertComplements` | tools.py:80-81 | inverted and plain channel masks are each other's complement |
| `Tools.ChannelMaskHalves` | tools.py:77-78 | c_in // 2 ones and c_in - c_in // 2 zeros; for odd c_in the extra (last) channel is 0 |
| `Tools.TruncateToInt` | tools.py:32 | `.int()` truncates toward zero: the result is within 1 of x on the side of 0 |
| `Tools.SampleShape` | tools.py:31-32 | defined exactly when the factor broadcasts; rank 1 + rank(img_shape); entry k is entry k of [num_samples] ++ img_shape times factor k, truncated |
| `Tools.SampleShapeExact` | tools.py:31-32 | when each product is whole, the sampling shape is exactly the products |
| `Flows.MakeGatedConvNet` | nn_layers.py:58-68 | output width is c_out when positive; with the default the network fits an affine coupling over its own input channels at any spatial size |
| `Flows.Step` | network.py:107-127 | a transform never increases the number of values per image |
| `Flows.SqueezeKeepsVolume` | network.py:107 | a squeeze fits exactly when height and width are even; it gives (4c, h/2, w/2) and keeps the number of values |
| `Flows.SplitHalvesVolume` | network.py:114 | a split fits exactly when the channel count is even; it halves the channels and factors out half of the values |
| `Flows.ThreadAppend` | network.py:94-129 | threading a concatenation threads the first part, then the second |
| `Flows.ThreadShapeKeeping` | network.py:10-34 | shape-keeping layers thread the shape unchanged |
| `Flows.Thread` | network.py:131 | applying a list of transforms in order never ends with more values per image than it started with |
| `Network.FlowLayers` | network.py:9-34 | num_layers + 1 layers; the first is variational dequantization iff `vardeq`, else Dequantization; the rest are couplings |
| `Network.GetFlowLayers` | network.py:9-34 | the list grown by the loop is `FlowLayers` of the arguments |
| `Network.FlowLayersDequantization` | network.py:13-19 | variational dequantization wraps exactly 4 couplings at c_in = c with GatedConvNet(2c to 2c, hidden 16) and alternating checkerboards |
| `Network.FlowLayersMainCouplings` | network.py:22-32 | main coupling i: size x size checkerboard inverted iff i is odd; GatedLinearNet over c·size·size features when linear, else GatedConvNet(c to 2c, hidden 32) |
| `Network.FlowLayersMasksAlternate` | network.py:25 | consecutive main couplings have complementary mask tensors |
| `Network.FlowLayersThread` | network.py:9-34 | every layer fits a c x size x size image and keeps its shape |
| `Network.UnitFactorKeepsShape` | network.py:43 | factor [1, 1, 1, 1] samples latents of shape [n, c, size, size] |
| `Network.SingleScaleFlow` | network.py:41-44 | a get_flow_layers recipe with the unit factor keeps the image shape throughout and samples in it |
| `Network.CreateSimpleFlow` | network.py:37-44 | 9 layers, plain Dequantization first, 8 GatedConvNet(c, 32, 2c) couplings, image-shaped latents |
| `Network.CreateVardeqFlow` | network.py:47-55 | 9 layers, variational dequantization first, 8 GatedConvNet couplings, image-shaped latents |
| `Network.CreateLongFlow` | network.py:58-66 | 16 layers, variational dequantization first, 15 GatedConvNet couplings, image-shaped latents |
| `Network.CreateLinearFlow` | network.py:69-77 | 9 layers, variational dequantization first, 8 GatedLinearNet(c·size·size) couplings, image-shaped latents |
| `Network.CreatePartialConvFlow` | network.py:80-88 | 9 layers; every GatedConvNet, inner and main, has the partial-convolution flag; image-shaped latents |
| `Network.SqueezeTwice` | network.py:92 | the second squeeze is taken exactly when both squeezes halve an even side and the final map is at least 5 x 5 |
| `Network.MultiscaleLayers` | network.py:94-127 | 12 layers when squeezing twice, else 11; variational dequantization first, squeeze at 3, split at 6, a second squeeze at 7 exactly when squeezing twice, couplings everywhere else |
| `Network.MultiscaleFactor` | network.py:116-129 | the factor keeps the batch size, scales both sides alike, and the latent keeps half of the image's values |
| `Network.MultiscaleFlow` | network.py:91-132 | the multiscale layers fit a c x size x size image exactly when size is even |
| `Network.CreateMultiscaleFlow` | network.py:91-132 | the list and factor grown by the code are `MultiscaleFlow` of the config |
| `Network.MultiscaleStructure` | network.py:92-129 | vardeq, 2 checkerboard couplings, squeeze, 2 channel couplings at 4c, split, then squeeze + 4 couplings at 8c when size % 4 == 0 and size >= 20, else 4 couplings at 2c |
| `Network.ChannelCouplingsThread` | network.py:108-111 | channel-mask couplings at the current channel count keep the shape |
| `Network.MultiscaleThread` | network.py:92-129 | the multiscale layers end at (8c, size/4, size/4) when squeezing twice, at (2c, size/2, size/2) for other even sizes, and do not fit odd sizes |
| `Network.MultiscaleSampleShape` | network.py:122-129 | factor [1, 8, 1/4, 1/4] or [1, 2, 1/2, 1/2] scales [n, c, size, size] to exactly the final latent shape |
| `Network.MultiscaleChannelMasksMatch` | network.py:107-127 | every channel mask covers exactly its coupling's c_in channels, which its network reads |
| `Network.InvertedComplements` | tools.py:71-82 | flipping a mask descriptor's `invert` complements its tensor |
| `Network.MultiscaleMasksAlternate` | network.py:102-127 | adjacent couplings of the multiscale recipe have complementary masks |
| `Network.ParseModelName` | network.py:136 | a name selects a builder exactly when it is one of the six builder names |
| `Network.Recipe` | network.py:136-138 | every builder's factor has rank 4 and keeps the batch dimension; every builder but the multiscale one keeps the image shape and samples in it |
| `Network.CreateFlow` | network.py:135-140 | an unknown name fails with UnknownModel and builds nothing; a known name builds exactly that recipe |
| `Network.RecipeSampleShapeMatchesLatent` | network.py:37-132 | for every recipe whose layers fit the image, the factor gives the shape its layers leave |
| `Network.CallGatedConvNet` | nn_layers.py:58 | the call builds the network exactly when every keyword is declared and c_in is given; an undeclared keyword fails first and is named, a missing c_in fails next |
| `Network.GetFlowLayersAsWritten` | network.py:9-34 | as written, a call that succeeds builds the corrected list; any failure is TypeError over `partial_conv` |
| `Network.GetFlowLayersAsWrittenRaises` | network.py:14 | as written, get_flow_layers succeeds only when it builds no GatedConvNet; the five wrapper recipes fail on `partial_conv` |
| `Network.FlowLayersPartialConv` | network.py:14-24 | with the flag accepted, every GatedConvNet get_flow_layers builds carries `partial_conv` |

## Findings

| source | as written | input that shows it | evidently intended | confidence | as-written member | corrected member |
|---|---|---|---|---|---|---|
| network.py:14 and network.py:24 | `GatedConvNet(..., partial_conv=partial_conv)` while `GatedConvNet.__init__` (nn_layers.py:58) declares only c_in, c_hidden, c_out and num_layers, so Python raises TypeError | `create_simple_flow` with any config, e.g. size 28 and c 1 | GatedConvNet takes a partial-convolution flag and the five single-scale recipes build their flows | not executed; the signature at nn_layers.py:58 has no such parameter and no `**kwargs` | `Network.GetFlowLayersAsWrittenRaises` | `Network.FlowLayersPartialConv` |

The rest of the model uses the corrected `Network.FlowLayers`, whose network
descriptor carries the flag.

## Left out

- The numerics of CouplingLayer, Dequantization, VariationalDequantization, SqueezeFlow, SplitFlow and ImageFlow (forward, inverse, log-determinant, likelihood, sampling): floating point, and their modules (flow_models, flow_dequantization, flow_template) are not part of this model. Each is an opaque descriptor; the squeeze and split shape rules in `Flows.Step` are those of a 2 x 2 space-to-channel squeeze and a halving channel split, stated here because those modules are not modelled.
- The gated networks of nn_layers.py (ConcatELU, GatedConv, GatedLinear, LayerNormChannels, the layer stacks, zero initialisation): floating-point modules over a tensor library. Only the descriptor fields and the `c_out` default are kept; the `num_layers=3` depth is not recorded.
- Plotting, saving and showing in `sample_save_show`, and `imgs_to_plt`, `plot_hist`, `num_bins`, `visualize_masks`, `print_num_params`, `interpolate`, `round_to_n`, `tensor_limits`, `regular_tensor`, `print_result`, `make_cuda_visible`: I/O, environment variables and float utilities.
- In `create_flow`: moving the network to a device and printing; the configuration's other fields, and the `config` handed to SplitFlow and ImageFlow.
- CreateFlow: `eval` runs outside the `try`, so an unknown name raises Python's own NameError rather than the "Unknown model" one; the model records only that the name is unknown. A model name that is itself a Python expression (so that `eval` resolves it to some other object) is not modelled.
- Tools.SampleShape: the int32 overflow of `.int()` and float32 rounding of the factor are not modelled; the factors used are exact binary fractions.
- Mask entries are integers, not float32; sizes, channel counts and layer counts are naturals (negative arguments are not modelled).
- Flows.Step: a split of an odd channel count is treated as not fitting; the channel count at every split the recipes build is even.
- Network.CallGatedConvNet: only keyword calls are modelled, as every call site passes keywords; the error records all undeclared keywords, where Python's message names the first.
