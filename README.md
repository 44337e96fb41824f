# ResNet architecture construction, modelled in Dafny

This project models how `cv_net/resnet.py` builds a configurable residual network, and proves facts about it. The build takes the stage sizes `num_blocks`, the stage widths `c_hidden`, the number of classes, an activation name and a block class name. It produces:

- an input adapter;
- a flat sequence of residual blocks, laid out stage by stage;
- an output head (global average pool, flatten, `Linear`).

Initialization then sets the parameters of every convolution and BatchNorm.

The model has four modules:

- `Shapes` (`shapes.dfy`): the layer descriptors `Conv`, `BatchNorm`, `Act`, `AvgPool`, `Flatten` and `Linear`, the shape each one produces, and a symbolic forward `Graph`. A graph node is a layer applied to a tensor, or the residual sum `z + x`. Shapes are `(C, H, W)` feature maps or flat feature vectors. A convolution gives `H' = (H + 2·pad − k) / stride + 1`. `None` stands for "PyTorch raises here".
- `Blocks` (`blocks.dfy`): the two block classes, `ResNetBlock` and `PreActResNetBlock`, as a closed datatype. It holds their constructors, their `forward` as graphs, and the block-name registry `resnet_blocks_by_name`. A block's constructor sets its fields once and nothing reassigns them afterwards, so blocks are values, not objects.
- `Params` (`params.dfy`): the deterministic part of `_init_params`.
- `ResNetModel` (`resnet.dfy`): the builder.
  - The class `ResNet` holds `hparams` and the fields `input_net`, `blocks` and `output_net`.
  - `CreateNetwork` keeps the source's nested loop that appends blocks.
  - `InitParams` keeps the loop over the blocks.
  - `Build` is the checking part of `ResNet.__init__`, and returns a `Result`.
  - The rest of the module is the layout functions, the channel-chaining lemmas and the end-to-end shape theorem.

The main results:

- Every block built with arguments `(c_in, subsample, c_out)` meets one reference contract, `BlockOut`. It accepts exactly a non-empty map with `c_in` channels. It returns `c_out` channels and halves each side, rounding up, when subsampling; otherwise it returns `c_in` channels and the same size. So transform and shortcut always agree in shape, and the residual sum never fails.
- The layout has `sum(num_blocks)` blocks in stage order. The block at stage `i`, position `j`, subsamples iff `j == 0 && i > 0`.
- The built network maps an input to `num_classes` features iff two things hold:
  - the input is a 3-channel image with height and width at least 1;
  - the channels chain through the network (`WellChained`).

  Every other input fails. The chain holds whenever `|num_blocks| == |c_hidden|` and no stage after the first is empty.
- After construction, every BatchNorm has scale 1 and shift 0, every convolution is marked Kaiming-initialized, and the `Linear` layer is untouched.

What the code checks and what it leaves to the forward pass:

- The code does not check that `num_blocks` and `c_hidden` have the same length. `Build` fails only where the code raises:
  - an unregistered block name (`UnknownBlockName`);
  - a `c_hidden` index that does not exist (`IndexOutOfRange`): `c_hidden` is empty, or a non-empty stage has no width.

  A length mismatch that passes these checks builds a network whose forward *can* fail. With fewer stage sizes than widths and no empty stage after the first, the network chains iff `c_hidden[len(num_blocks) - 1] == c_hidden[-1]` (`FewerStages`). For example, `[3, 3]` with `[12, 32, 64]` fails (`MismatchedLengthsBreak`), while `[3, 3]` with `[12, 32, 32]` works.
- An empty stage is allowed, as in the code. An empty first stage is harmless. An empty interior stage `i` passes `c_hidden[i - 1]` channels to stage `i + 1`, which expects `c_hidden[i]`. With every other later stage non-empty, the network chains iff those two widths are equal (`InteriorEmptyStage`; `InteriorEmptyStageBreaks` is an instance). An empty last stage leaves `c_hidden[-2]` channels for the `Linear` layer, which expects `c_hidden[-1]`, so the network chains iff those two widths are equal (`TrailingEmptyStage`; `TrailingEmptyStageBreaks` is an instance).
- `H` and `W` need not be divisible by any power of two: any height and width of at least 1 works, because the pooling adapts (`NetworkShape`).

## Model

| member | source | states |
|---|---|---|
| `Shapes.ConvLengths` | cv_net/resnet.py:20-27 | for `H >= 1`, the 3x3/pad 1/stride 2 conv and the 1x1/stride 2 conv both give `ceil(H/2)`; the 3x3/pad 1/stride 1 conv keeps `H` |
| `Blocks.NewResNetBlock` | cv_net/resnet.py:6-28 | `ResNetBlock.__init__`: the 1x1 `down_sample` exists iff `subsample`, and every conv writes `c_out` channels when subsampling and `c_in` otherwise; its shape contract is `ConstructedBlockShape` |
| `Blocks.NewPreActResNetBlock` | cv_net/resnet.py:39-67 | `PreActResNetBlock.__init__`: the BatchNorm, activation, 1x1 `down_sample` sequence exists iff `subsample`, and every conv writes `c_out` channels when subsampling and `c_in` otherwise; its shape contract is `ConstructedBlockShape` |
| `Blocks.BlockForward` | cv_net/resnet.py:30-74 | both `forward` methods as graphs over the block's input; their shape contract is `BlockForwardShape` and `ConstructedBlockForward`, their final step `MergeStep` |
| `Blocks.BlocksByName` | cv_net/resnet.py:77-80 | `resnet_blocks_by_name` holds exactly the keys `"ResNetBlock"` and `"PreActResNetBlock"`, each bound to its own variant |
| `Blocks.TransformShape` | cv_net/resnet.py:15-60 | the transform `net` of either variant accepts exactly a non-empty map with `c_in` channels and yields the reference shape (`c_out` channels and halved sides when subsampling, `c_in` channels and the same sides otherwise) |
| `Blocks.ShortcutOut` | cv_net/resnet.py:27-67 | on a valid input the shortcut (identity, the 1x1 projection, or BatchNorm, activation and the 1x1 projection) yields the same reference shape as the transform |
| `Blocks.BlockForwardShape` | cv_net/resnet.py:30-74 | the shape of a block's forward graph is the common shape of its transform and shortcut, and fails when they differ |
| `Blocks.ConstructedBlockShape` | cv_net/resnet.py:6-74 | every constructed block of either variant has exactly the reference shape contract `BlockOut`, so `z + x` is always shape-valid |
| `Blocks.ConstructedBlockForward` | cv_net/resnet.py:30-74 | the same contract for the forward graph, whatever graph feeds the block |
| `Blocks.NonSubsamplingIgnoresCOut` | cv_net/resnet.py:15-50 | a block built with `subsample=False` does not depend on the `c_out` argument |
| `Blocks.NonSubsamplingConvsKeepShape` | cv_net/resnet.py:19-27 | in a non-subsampling block every conv is 3x3/pad 1/stride 1 from `c_in` to `c_in`, and the shortcut is the identity |
| `Blocks.SubsamplingConvsAgree` | cv_net/resnet.py:20-66 | in a subsampling block the first transform conv is 3x3/pad 1/stride 2 and the shortcut conv is 1x1/pad 0/stride 2, both from `c_in` to `c_out` |
| `Blocks.MergeStep` | cv_net/resnet.py:30-74 | a `ResNetBlock` forward ends with an activation applied to the sum; a `PreActResNetBlock` forward ends at the sum |
| `Blocks.LayerOrdering` | cv_net/resnet.py:19-67 | pre-activation: every conv of a `PreActResNetBlock`, in transform and shortcut, directly follows a BatchNorm of its input channels and an activation; in a `ResNetBlock` every transform conv is directly followed by a BatchNorm of its output channels |
| `Blocks.ResolveBlock` | cv_net/resnet.py:77-80 | a name resolves only to the variant registered under it; any other name, i.e. one that is neither `"ResNetBlock"` nor `"PreActResNetBlock"`, is rejected |
| `Blocks.RegistryRoundTrip` | cv_net/resnet.py:77-80 | each variant is found under its own class name |
| `Params.InitLayer` | cv_net/resnet.py:137-143 | initialization keeps a layer's architecture and shape behaviour; a conv gets Kaiming-normal fan-out with the configured nonlinearity, a BatchNorm gets scale 1 and shift 0, and any other layer is unchanged |
| `Params.InitLayers` | cv_net/resnet.py:137-143 | the module loop over an `nn.Sequential`; its contract is `InitLayersSpec` and `InitLayersShape` |
| `Params.InitBlock` | cv_net/resnet.py:137-143 | the module loop over one block's transform and shortcut; its contract is `InitBlockInitialized` and `InitBlockShape` |
| `Params.InitBlocks` | cv_net/resnet.py:137-143 | the module loop over the block sequence; `BlocksForwardShape` and the constructor state what it leaves |
| `Params.InitLayersSpec` | cv_net/resnet.py:137-143 | over a layer sequence: same length, every layer initialized, architecture kept, `Linear` and the other parameterless layers untouched |
| `Params.InitBlockInitialized` | cv_net/resnet.py:138-143 | initializing a block initializes every conv and BatchNorm of its transform and of its shortcut |
| `Params.InitLayersShape` | cv_net/resnet.py:137-143 | initialization changes no shape along a layer sequence |
| `Params.InitBlockShape` | cv_net/resnet.py:137-143 | initialization changes no shape of a block |
| `Params.InitBlockIdempotent` | cv_net/resnet.py:137-143 | a second run of the initializer yields the same initialization state (the same constants and the same Kaiming tags); the source never re-runs it, and a real second run would redraw the convolution weights |
| `ResNetModel.StageArgs` | cv_net/resnet.py:123-127 | the arguments `(c_in, subsample, c_out)` of block `j` of stage `i`; stated by `LayoutAt` |
| `ResNetModel.Stage` | cv_net/resnet.py:124-128 | the inner loop's `num_blocks[i]` blocks, in order; stated by `LayoutAt` and `StageChannels` |
| `ResNetModel.Layout` | cv_net/resnet.py:122-128 | all block arguments, stage after stage; stated by `LayoutLength` and `LayoutAt` |
| `ResNetModel.LayoutLength` | cv_net/resnet.py:122-128 | the builder produces exactly `sum(num_blocks)` blocks |
| `ResNetModel.LayoutAt` | cv_net/resnet.py:123-127 | the block at stage `i`, position `j` sits at index `sum(num_blocks[..i]) + j`; it subsamples iff `j == 0 && i > 0`, its target width is `c_hidden[i]`, and its `c_in` is `c_hidden[i-1]` when subsampling and `c_hidden[i]` otherwise |
| `ResNetModel.InputNet` | cv_net/resnet.py:110-119 | the variant's input adapter; its contract is `InputNetShape` |
| `ResNetModel.InputNetShape` | cv_net/resnet.py:110-119 | the input adapter of either variant accepts exactly a non-empty 3-channel image and yields `c_hidden[0]` channels of the same size |
| `ResNetModel.OutputNet` | cv_net/resnet.py:131-135 | the head; its contract is `OutputNetShape` |
| `ResNetModel.OutputNetShape` | cv_net/resnet.py:131-135 | the head accepts exactly a feature map with `c_hidden[-1]` channels, of any size, and yields `num_classes` features |
| `ResNetModel.BlocksForward` | cv_net/resnet.py:145-149 | `nn.Sequential(*blocks)` applied to a graph; its contract is `BlocksForwardShape` |
| `ResNetModel.ForwardGraph` | cv_net/resnet.py:145-149 | `ResNet.forward`: input adapter, blocks, head; its contract is `NetworkShape` |
| `ResNetModel.StackOutSpec` | cv_net/resnet.py:128-147 | a block sequence accepts a non-empty map iff each block's `c_in` equals the channels flowing into it; it then yields the final channels and non-empty sides |
| `ResNetModel.BlocksForwardShape` | cv_net/resnet.py:145-148 | the forward graph of the built, initialized block sequence has the shape that the blocks' reference contracts compose to |
| `ResNetModel.PrefixChannels` | cv_net/resnet.py:112-127 | with no empty stage after the first among the first `k` stages, the adapter's `c_hidden[0]` feeds the first block, each block feeds the next, and the last block yields `c_hidden[k-1]` |
| `ResNetModel.StagesChain` | cv_net/resnet.py:112-134 | when `num_blocks` and `c_hidden` have the same length and no stage after the first is empty, the channels chain from the adapter through every block into the `Linear` in-features |
| `ResNetModel.LayoutStep` | cv_net/resnet.py:123-128 | appending stage `k`: an empty stage passes the channels through; a non-empty one needs the previous width (or `c_hidden[0]` for stage 0) and leaves `c_hidden[k]` |
| `ResNetModel.TailChannels` | cv_net/resnet.py:123-128 | non-empty stages `k..m-1` chain on iff `c_hidden[k-1]` channels reach stage `k`, and leave `c_hidden[m-1]` |
| `ResNetModel.InteriorEmptyStage` | cv_net/resnet.py:123-134 | for equal lengths, an empty interior stage `i` and every other later stage non-empty: the network chains iff `c_hidden[i] == c_hidden[i-1]` |
| `ResNetModel.TrailingEmptyStage` | cv_net/resnet.py:123-134 | for equal lengths, an empty last stage and every other later stage non-empty: the network chains iff `c_hidden[-1] == c_hidden[-2]` |
| `ResNetModel.FewerStages` | cv_net/resnet.py:123-134 | with no length check, fewer stage sizes than widths and no empty stage after the first: the network chains iff `c_hidden[len(num_blocks)-1] == c_hidden[-1]` |
| `ResNetModel.InteriorEmptyStageBreaks` | cv_net/resnet.py:123-127 | `num_blocks = [1, 0, 1]`, `c_hidden = [4, 8, 16]` builds, but the channels do not chain |
| `ResNetModel.TrailingEmptyStageBreaks` | cv_net/resnet.py:123-134 | `num_blocks = [1, 1, 0]`, `c_hidden = [4, 8, 16]` builds, but the last block's width differs from the `Linear` in-features |
| `ResNetModel.MismatchedLengthsBreak` | cv_net/resnet.py:123-134 | `num_blocks = [3, 3]`, `c_hidden = [12, 32, 64]` builds (no length check), but the channels do not reach the head correctly |
| `ResNetModel.NetworkShape` | cv_net/resnet.py:145-149 | the network `__init__` builds maps an input to `num_classes` features iff the input is a non-empty 3-channel image and the channels chain; every other input fails |
| `ResNetModel.DefaultNetworkShape` | cv_net/resnet.py:84-85 | with the default arguments (10 classes, `[3,3,3]`, `[12,32,64]`, `ResNetBlock`), a 3x32x32 image yields 10 features |
| `ResNetModel.ResNet.constructor` | cv_net/resnet.py:95-104 | records the hyperparameters, creates the network and initializes it; afterwards every BatchNorm has scale 1 and shift 0, every conv is Kaiming-initialized, and the forward shape is as in `NetworkShape` |
| `ResNetModel.ResNet.CreateNetwork` | cv_net/resnet.py:106-135 | the nested stage/position loop lays out exactly `Built(Layout(num_blocks, c_hidden))` between the variant's input adapter and the head |
| `ResNetModel.ResNet.InitParams` | cv_net/resnet.py:137-143 | every layer of the input adapter, of every block and of the head is replaced by its initialized form; nothing else changes |
| `ResNetModel.Build` | cv_net/resnet.py:95-104 | an unregistered block name is rejected before anything is built; a missing `c_hidden` index fails; otherwise a fresh, initialized network with the given hyperparameters is returned, whose fields are the initialized input adapter, `Built(Layout(num_blocks, c_hidden))` and head, and whose forward shape is as in `NetworkShape` |

## Left out

- Tensor contents. Convolution, batch normalization, activations, pooling and `Linear` are floating-point work done by PyTorch. Here they are only shape transformers. The batch dimension is implicit.
- ResNetModel.ResNet.InitParams: does not model the random Kaiming-normal draw. It records only that each conv weight was drawn Kaiming-normal with fan-out mode and the configured nonlinearity name. PyTorch's gain lookup for that name is not modelled, so a name PyTorch refuses there is not rejected.
- The activation registry: `cv_net/util/util.py` is not part of this model. The activation is the opaque layer `Act`, its name is kept only as the nonlinearity of the initializer, and a failed lookup (`KeyError`) is not modelled.
- Runtime restrictions outside the shapes: BatchNorm in training mode rejects a batch with a single value per channel, which depends on batch size and mode.
- Broadcasting in `z + x`. The model requires both operands to have the same shape, and proves that every built block meets this requirement. Since the shapes are always equal, broadcasting never applies.
- `nn.Module` registration and `self.modules()`. Initialization is an explicit traversal of the input adapter, each block's transform and shortcut, and the head. Layers are values, so the in-place mutation of module parameters becomes reassignment of the `ResNet` fields, and aliasing between modules is not modelled.
- Integer ranges. Channel counts, stage sizes and class counts are natural numbers, so neither negative values nor the default `c_out=-1` of the block constructors is modelled. The builder always passes a width.
- Constructor arguments that are the same for every layer: the convolutions' missing bias (`bias=False`, so a `Conv` carries no bias), dilation 1 and groups 1, and the extra `**kwargs` of `ResNet.__init__`, which are ignored.
- When the build fails, the model returns an error value instead of raising an exception partway through construction.
