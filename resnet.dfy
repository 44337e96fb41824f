/**
 * The ResNet network builder: block layout from the stage sizes and widths,
 * the input adapter and output head, parameter initialization, and the
 * end-to-end shape of the forward pass.
 */
module ResNetModel {
  import opened Shapes
  import opened Blocks
  import opened Params

  /** Why constructing a ResNet fails. */
  datatype BuildError =
    | UnknownBlockName(name: string) // the assertion on the block name
    | IndexOutOfRange                // a c_hidden index that does not exist

  datatype Result<T> = Ok(value: T) | Err(error: BuildError)

  /** The hyperparameters ResNet.__init__ records. */
  datatype HParams = HParams(
    numClasses: nat,
    numBlocks: seq<nat>,
    cHidden: seq<nat>,
    actFnName: string,
    blockClass: Variant)

  /** The default arguments of ResNet.__init__. */
  const DefaultHParams := HParams(10, [3, 3, 3], [12, 32, 64], "relu", Standard)

  /** The sum of a sequence of naturals. */
  function Total(s: seq<nat>): nat
    decreases |s|
  {
    if s == [] then 0 else Total(s[..|s| - 1]) + s[|s| - 1]
  }

  // ---------------------------------------------------------------------------
  // Block layout

  /** Every stage that has a block has a width. */
  predicate StagesIndexable(numBlocks: seq<nat>, cHidden: seq<nat>)
  {
    forall i :: 0 <= i < |numBlocks| && numBlocks[i] > 0 ==> i < |cHidden|
  }

  /** Every c_hidden index that _create_network evaluates exists. */
  predicate Indexable(numBlocks: seq<nat>, cHidden: seq<nat>)
  {
    |cHidden| > 0 && StagesIndexable(numBlocks, cHidden)
  }

  /** Arguments of the block at position j of stage i. */
  function StageArgs(cHidden: seq<nat>, i: nat, j: nat): (r: BlockArgs)
    requires i < |cHidden|
  {
    var subsample := j == 0 && i > 0;
    BlockArgs(if subsample then cHidden[i - 1] else cHidden[i], subsample, cHidden[i])
  }

  /** Arguments of the n blocks of stage i. */
  function Stage(cHidden: seq<nat>, i: nat, n: nat): (r: seq<BlockArgs>)
    requires n > 0 ==> i < |cHidden|
    ensures |r| == n
  {
    seq(n, j requires 0 <= j < n => StageArgs(cHidden, i, j))
  }

  /** Arguments of all blocks, stage after stage. */
  function Layout(numBlocks: seq<nat>, cHidden: seq<nat>): (r: seq<BlockArgs>)
    requires StagesIndexable(numBlocks, cHidden)
    decreases |numBlocks|
  {
    if numBlocks == [] then []
    else
      var n := |numBlocks| - 1;
      Layout(numBlocks[..n], cHidden) + Stage(cHidden, n, numBlocks[n])
  }

  /** The blocks the builder constructs from a layout. */
  function Built(v: Variant, args: seq<BlockArgs>): (r: seq<Block>)
    ensures |r| == |args|
  {
    seq(|args|, k requires 0 <= k < |args| => Construct(v, args[k]))
  }

  lemma StageSnoc(cHidden: seq<nat>, i: nat, n: nat)
    requires i < |cHidden|
    ensures Stage(cHidden, i, n + 1) == Stage(cHidden, i, n) + [StageArgs(cHidden, i, n)]
  {
  }

  lemma LayoutSnoc(numBlocks: seq<nat>, cHidden: seq<nat>, i: nat)
    requires i < |numBlocks| && StagesIndexable(numBlocks, cHidden)
    ensures StagesIndexable(numBlocks[..i], cHidden) && StagesIndexable(numBlocks[..i + 1], cHidden)
    ensures Layout(numBlocks[..i + 1], cHidden) == Layout(numBlocks[..i], cHidden) + Stage(cHidden, i, numBlocks[i])
  {
    assert numBlocks[..i + 1][..i] == numBlocks[..i];
  }

  lemma BuiltSnoc(v: Variant, args: seq<BlockArgs>, a: BlockArgs)
    ensures Built(v, args + [a]) == Built(v, args) + [Construct(v, a)]
  {
  }

  /** The builder lays out exactly sum(num_blocks) blocks. */
  lemma {:induction false} LayoutLength(numBlocks: seq<nat>, cHidden: seq<nat>)
    requires StagesIndexable(numBlocks, cHidden)
    ensures |Layout(numBlocks, cHidden)| == Total(numBlocks)
    decreases |numBlocks|
  {
    if numBlocks != [] {
      var n := |numBlocks| - 1;
      LayoutSnoc(numBlocks, cHidden, n);
      assert numBlocks[..n + 1] == numBlocks;
      LayoutLength(numBlocks[..n], cHidden);
    }
  }

  /**
   * Stage order: the block at position j of stage i sits at index
   * sum(num_blocks[..i]) + j; it subsamples iff j == 0 and i > 0, its target
   * width is c_hidden[i], and its c_in is c_hidden[i - 1] when it subsamples
   * and c_hidden[i] otherwise.
   */
  lemma {:induction false} LayoutAt(numBlocks: seq<nat>, cHidden: seq<nat>, i: nat, j: nat)
    requires StagesIndexable(numBlocks, cHidden)
    requires i < |numBlocks| && j < numBlocks[i]
    ensures i < |cHidden|
    ensures Total(numBlocks[..i]) + j < |Layout(numBlocks, cHidden)|
    ensures var a := Layout(numBlocks, cHidden)[Total(numBlocks[..i]) + j];
      a.subsample == (j == 0 && i > 0) &&
      a.cOut == cHidden[i] &&
      a.cIn == (if j == 0 && i > 0 then cHidden[i - 1] else cHidden[i])
    decreases |numBlocks|
  {
    var n := |numBlocks| - 1;
    var pre := numBlocks[..n];
    LayoutSnoc(numBlocks, cHidden, n);
    assert numBlocks[..n + 1] == numBlocks;
    LayoutLength(pre, cHidden);
    if i < n {
      assert pre[..i] == numBlocks[..i];
      LayoutAt(pre, cHidden, i, j);
    } else {
      assert numBlocks[..i] == pre;
    }
  }

  // ---------------------------------------------------------------------------
  // Input adapter, output head, forward

  /** input_net: the PreActResNetBlock network omits BatchNorm and activation. */
  function InputNet(v: Variant, c: nat): (r: seq<Layer>)
  {
    if v == PreAct then [Conv(3, c, 3, 1, 1, TorchDefault)]
    else [Conv(3, c, 3, 1, 1, TorchDefault), BatchNorm(c, TorchDefault, TorchDefault), Act]
  }

  /** output_net: global average pool, flatten, Linear(c_hidden[-1], num_classes). */
  function OutputNet(c: nat, numClasses: nat): (r: seq<Layer>)
  {
    [AvgPool, Flatten, Linear(c, numClasses, TorchDefault, TorchDefault)]
  }

  /** nn.Sequential(*blocks)(g) */
  function BlocksForward(bs: seq<Block>, g: Graph): (r: Graph)
    decreases |bs|
  {
    if bs == [] then g else BlocksForward(bs[1..], BlockForward(bs[0], g))
  }

  /** ResNet.forward(x) */
  function ForwardGraph(inputNet: seq<Layer>, bs: seq<Block>, outputNet: seq<Layer>, x: Graph): (r: Graph)
  {
    Chain(outputNet, BlocksForward(bs, Chain(inputNet, x)))
  }

  /** The input adapter accepts exactly a non-empty 3-channel image and keeps its size. */
  lemma InputNetShape(v: Variant, c: nat, s: Shape)
    ensures SeqShape(InputNet(v, c), Some(s)) ==
      if s.Spatial? && s.channels == 3 && s.height > 0 && s.width > 0
      then Some(Spatial(c, s.height, s.width)) else None
  {
    var ls := InputNet(v, c);
    assert SeqShape(ls, Some(s)) == SeqShape(ls[1..], LayerShape(ls[0], s));
    if s.Spatial? && s.channels == 3 && s.height > 0 && s.width > 0 {
      Conv3x3Shape(3, c, 1, TorchDefault, s.height, s.width);
      var t := Spatial(c, s.height, s.width);
      assert LayerShape(ls[0], s) == Some(t);
      if v != PreAct {
        assert SeqShape(ls[1..], Some(t)) == SeqShape(ls[2..], Some(t));
        assert SeqShape(ls[2..], Some(t)) == SeqShape(ls[3..], Some(t));
        assert ls[3..] == [];
      } else {
        assert ls[1..] == [];
      }
    } else {
      assert LayerShape(ls[0], s) == None;
      SeqShapeNone(ls[1..]);
    }
  }

  /** The head accepts exactly a feature map with c channels, of any size, and yields num_classes features. */
  lemma OutputNetShape(c: nat, numClasses: nat, s: Option<Shape>)
    ensures SeqShape(OutputNet(c, numClasses), s) ==
      if s.Some? && s.value.Spatial? && s.value.channels == c then Some(Features(numClasses)) else None
  {
    var ls := OutputNet(c, numClasses);
    match s
    case None =>
    case Some(x) =>
      assert SeqShape(ls, s) == SeqShape(ls[1..], LayerShape(AvgPool, x));
      if x.Spatial? {
        var p := Spatial(x.channels, 1, 1);
        assert SeqShape(ls[1..], Some(p)) == SeqShape(ls[2..], Some(Features(x.channels)));
        assert SeqShape(ls[2..], Some(Features(x.channels))) == SeqShape(ls[3..], LayerShape(ls[2], Features(x.channels)));
        assert ls[3..] == [];
      } else {
        SeqShapeNone(ls[1..]);
      }
  }

  // ---------------------------------------------------------------------------
  // Channel chaining

  /** Each block's c_in equals the channels flowing into it, starting from c. */
  predicate ChannelsMatch(c: nat, args: seq<BlockArgs>)
    decreases |args|
  {
    args == [] || (args[0].cIn == c && ChannelsMatch(OutChannels(args[0]), args[1..]))
  }

  /** Channels after the blocks, starting from c. */
  function FinalChannels(c: nat, args: seq<BlockArgs>): (r: nat)
    decreases |args|
  {
    if args == [] then c else FinalChannels(OutChannels(args[0]), args[1..])
  }

  /** Spatial length after the blocks, starting from n. */
  function SpatialAfter(args: seq<BlockArgs>, n: nat): nat
    decreases |args|
  {
    if args == [] then n else SpatialAfter(args[1..], Scale(args[0], n))
  }

  /** Shape after a stack of blocks, by the reference contract of each block. */
  function StackOut(args: seq<BlockArgs>, s: Option<Shape>): (r: Option<Shape>)
    decreases |args|
  {
    if args == [] then s else StackOut(args[1..], BlockOut(args[0], s))
  }

  /**
   * The channels chain through the whole network: the input adapter feeds
   * the first block, each block feeds the next, and the last block feeds
   * the Linear layer c_hidden[-1] features.
   */
  predicate WellChained(numBlocks: seq<nat>, cHidden: seq<nat>)
    requires Indexable(numBlocks, cHidden)
  {
    var args := Layout(numBlocks, cHidden);
    ChannelsMatch(cHidden[0], args) && FinalChannels(cHidden[0], args) == cHidden[|cHidden| - 1]
  }

  lemma {:induction false} SpatialAfterPositive(args: seq<BlockArgs>, n: nat)
    requires n > 0
    ensures SpatialAfter(args, n) > 0
    decreases |args|
  {
    if args != [] {
      SpatialAfterPositive(args[1..], Scale(args[0], n));
    }
  }

  /** A stack of blocks accepts a feature map iff the channels chain, and keeps it non-empty. */
  lemma {:induction false} StackOutSpec(args: seq<BlockArgs>, s: Option<Shape>)
    ensures s.None? ==> StackOut(args, s) == None
    ensures s.Some? && s.value.Spatial? && s.value.height > 0 && s.value.width > 0 ==>
      var c, h, w := s.value.channels, s.value.height, s.value.width;
      SpatialAfter(args, h) > 0 && SpatialAfter(args, w) > 0 &&
      StackOut(args, s) ==
        if ChannelsMatch(c, args)
        then Some(Spatial(FinalChannels(c, args), SpatialAfter(args, h), SpatialAfter(args, w)))
        else None
    ensures args != [] && s.Some? && !s.value.Spatial? ==> StackOut(args, s) == None
    decreases |args|
  {
    if args != [] {
      var t := BlockOut(args[0], s);
      StackOutSpec(args[1..], t);
      StackOutSpec(args[1..], None);
    }
    if s.Some? && s.value.Spatial? && s.value.height > 0 && s.value.width > 0 {
      SpatialAfterPositive(args, s.value.height);
      SpatialAfterPositive(args, s.value.width);
    }
  }

  /** The forward graph of initialized built blocks has the reference stack shape. */
  lemma {:induction false} BlocksForwardShape(v: Variant, args: seq<BlockArgs>, nonlinearity: string, g: Graph, x: Shape)
    ensures ShapeOf(BlocksForward(InitBlocks(Built(v, args), nonlinearity), g), x) == StackOut(args, ShapeOf(g, x))
    decreases |args|
  {
    var bs := InitBlocks(Built(v, args), nonlinearity);
    if args != [] {
      assert bs[1..] == InitBlocks(Built(v, args[1..]), nonlinearity);
      var g' := BlockForward(bs[0], g);
      BlockForwardShape(bs[0], g, x);
      InitBlockShape(Construct(v, args[0]), nonlinearity, ShapeOf(g, x));
      ConstructedBlockShape(v, args[0], ShapeOf(g, x));
      BlocksForwardShape(v, args[1..], nonlinearity, g', x);
    }
  }

  lemma {:induction false} ChannelsAppend(c: nat, a: seq<BlockArgs>, b: seq<BlockArgs>)
    ensures ChannelsMatch(c, a + b) == (ChannelsMatch(c, a) && ChannelsMatch(FinalChannels(c, a), b))
    ensures FinalChannels(c, a + b) == FinalChannels(FinalChannels(c, a), b)
    decreases |a|
  {
    if a != [] {
      assert (a + b)[1..] == a[1..] + b;
      ChannelsAppend(OutChannels(a[0]), a[1..], b);
    } else {
      assert a + b == b;
    }
  }

  /** Channels a stage expects: the previous width for a stage that begins by subsampling. */
  function Entry(cHidden: seq<nat>, i: nat): nat
    requires i < |cHidden|
  {
    if i > 0 then cHidden[i - 1] else cHidden[i]
  }

  /** Blocks that keep width c chain from c to c. */
  lemma {:induction false} SteadyChannels(c: nat, args: seq<BlockArgs>)
    requires forall k :: 0 <= k < |args| ==> args[k] == BlockArgs(c, false, c)
    ensures ChannelsMatch(c, args) && FinalChannels(c, args) == c
    decreases |args|
  {
    if args != [] {
      SteadyChannels(c, args[1..]);
    }
  }

  /** A non-empty stage i accepts exactly Entry(c_hidden, i) channels and produces c_hidden[i]. */
  lemma StageChannels(cHidden: seq<nat>, i: nat, n: nat, c: nat)
    requires i < |cHidden| && n > 0
    ensures ChannelsMatch(c, Stage(cHidden, i, n)) <==> c == Entry(cHidden, i)
    ensures FinalChannels(c, Stage(cHidden, i, n)) == FinalChannels(OutChannels(StageArgs(cHidden, i, 0)), Stage(cHidden, i, n)[1..])
    ensures FinalChannels(Entry(cHidden, i), Stage(cHidden, i, n)) == cHidden[i]
  {
    var st := Stage(cHidden, i, n);
    SteadyChannels(cHidden[i], st[1..]);
  }

  /**
   * With a width per stage and no empty stage after the first, the channels
   * chain through the whole network.
   */
  lemma {:induction false} PrefixChannels(numBlocks: seq<nat>, cHidden: seq<nat>, k: nat)
    requires StagesIndexable(numBlocks, cHidden)
    requires 1 <= k <= |numBlocks| && k <= |cHidden|
    requires forall i :: 0 < i < k ==> numBlocks[i] > 0
    ensures StagesIndexable(numBlocks[..k], cHidden)
    ensures var args := Layout(numBlocks[..k], cHidden);
      ChannelsMatch(cHidden[0], args) && FinalChannels(cHidden[0], args) == cHidden[k - 1]
    decreases k
  {
    LayoutSnoc(numBlocks, cHidden, k - 1);
    var pre := Layout(numBlocks[..k - 1], cHidden);
    var st := Stage(cHidden, k - 1, numBlocks[k - 1]);
    if k == 1 {
      assert numBlocks[..0] == [];
      assert pre == [];
      if numBlocks[0] > 0 {
        StageChannels(cHidden, 0, numBlocks[0], cHidden[0]);
      }
      ChannelsAppend(cHidden[0], pre, st);
    } else {
      PrefixChannels(numBlocks, cHidden, k - 1);
      StageChannels(cHidden, k - 1, numBlocks[k - 1], cHidden[k - 2]);
      ChannelsAppend(cHidden[0], pre, st);
    }
  }

  lemma StagesChain(numBlocks: seq<nat>, cHidden: seq<nat>)
    requires |numBlocks| == |cHidden| > 0
    requires forall i :: 0 < i < |numBlocks| ==> numBlocks[i] > 0
    ensures Indexable(numBlocks, cHidden) && WellChained(numBlocks, cHidden)
  {
    PrefixChannels(numBlocks, cHidden, |numBlocks|);
    assert numBlocks[..|numBlocks|] == numBlocks;
  }

  /**
   * Appending stage k to the layout: an empty stage passes the channels
   * through; a non-empty one needs Entry(c_hidden, k) channels and leaves
   * c_hidden[k].
   */
  lemma LayoutStep(numBlocks: seq<nat>, cHidden: seq<nat>, c: nat, k: nat)
    requires StagesIndexable(numBlocks, cHidden) && k < |numBlocks|
    ensures StagesIndexable(numBlocks[..k], cHidden) && StagesIndexable(numBlocks[..k + 1], cHidden)
    ensures var pre, post := Layout(numBlocks[..k], cHidden), Layout(numBlocks[..k + 1], cHidden);
      ChannelsMatch(c, post) ==
        (ChannelsMatch(c, pre) && (numBlocks[k] == 0 || FinalChannels(c, pre) == Entry(cHidden, k))) &&
      FinalChannels(c, post) == (if numBlocks[k] == 0 then FinalChannels(c, pre) else cHidden[k])
  {
    LayoutSnoc(numBlocks, cHidden, k);
    var pre := Layout(numBlocks[..k], cHidden);
    var st := Stage(cHidden, k, numBlocks[k]);
    ChannelsAppend(c, pre, st);
    if numBlocks[k] > 0 {
      StageChannels(cHidden, k, numBlocks[k], FinalChannels(c, pre));
      StageChannels(cHidden, k, numBlocks[k], Entry(cHidden, k));
    } else {
      assert st == [];
    }
  }

  /**
   * Non-empty stages k..m-1 chain on from whatever reaches stage k, provided
   * it carries c_hidden[k - 1] channels, and leave c_hidden[m - 1].
   */
  lemma {:induction false} TailChannels(numBlocks: seq<nat>, cHidden: seq<nat>, c: nat, k: nat, m: nat)
    requires StagesIndexable(numBlocks, cHidden)
    requires 1 <= k < m <= |numBlocks|
    requires forall j :: k <= j < m ==> numBlocks[j] > 0
    ensures StagesIndexable(numBlocks[..k], cHidden) && StagesIndexable(numBlocks[..m], cHidden)
    ensures ChannelsMatch(c, Layout(numBlocks[..m], cHidden)) ==
      (ChannelsMatch(c, Layout(numBlocks[..k], cHidden)) &&
       FinalChannels(c, Layout(numBlocks[..k], cHidden)) == cHidden[k - 1])
    ensures FinalChannels(c, Layout(numBlocks[..m], cHidden)) == cHidden[m - 1]
    decreases m
  {
    LayoutStep(numBlocks, cHidden, c, m - 1);
    if m > k + 1 {
      TailChannels(numBlocks, cHidden, c, k, m - 1);
    }
  }

  /**
   * An empty interior stage i passes c_hidden[i - 1] channels to stage i + 1,
   * which expects c_hidden[i]: the network chains iff those widths are equal.
   */
  lemma InteriorEmptyStage(numBlocks: seq<nat>, cHidden: seq<nat>, i: nat)
    requires |numBlocks| == |cHidden|
    requires 0 < i < |numBlocks| - 1 && numBlocks[i] == 0
    requires forall j :: 0 < j < |numBlocks| && j != i ==> numBlocks[j] > 0
    ensures Indexable(numBlocks, cHidden)
    ensures WellChained(numBlocks, cHidden) <==> cHidden[i] == cHidden[i - 1]
  {
    PrefixChannels(numBlocks, cHidden, i);
    LayoutStep(numBlocks, cHidden, cHidden[0], i);
    TailChannels(numBlocks, cHidden, cHidden[0], i + 1, |numBlocks|);
    assert numBlocks[..|numBlocks|] == numBlocks;
  }

  /**
   * An empty last stage leaves c_hidden[-2] channels for the Linear layer,
   * which expects c_hidden[-1]: the network chains iff those widths are equal.
   */
  lemma TrailingEmptyStage(numBlocks: seq<nat>, cHidden: seq<nat>)
    requires |numBlocks| == |cHidden| >= 2
    requires numBlocks[|numBlocks| - 1] == 0
    requires forall j :: 0 < j < |numBlocks| - 1 ==> numBlocks[j] > 0
    ensures Indexable(numBlocks, cHidden)
    ensures WellChained(numBlocks, cHidden) <==> cHidden[|cHidden| - 1] == cHidden[|cHidden| - 2]
  {
    var n := |numBlocks|;
    PrefixChannels(numBlocks, cHidden, n - 1);
    LayoutStep(numBlocks, cHidden, cHidden[0], n - 1);
    assert numBlocks[..n] == numBlocks;
  }

  /**
   * With fewer stage sizes than widths (no length check) and no empty stage
   * after the first, the last block yields c_hidden[len(num_blocks) - 1], so
   * the network chains iff that equals the head's c_hidden[-1].
   */
  lemma FewerStages(numBlocks: seq<nat>, cHidden: seq<nat>)
    requires 1 <= |numBlocks| <= |cHidden|
    requires forall j :: 0 < j < |numBlocks| ==> numBlocks[j] > 0
    ensures Indexable(numBlocks, cHidden)
    ensures WellChained(numBlocks, cHidden) <==> cHidden[|numBlocks| - 1] == cHidden[|cHidden| - 1]
  {
    PrefixChannels(numBlocks, cHidden, |numBlocks|);
    assert numBlocks[..|numBlocks|] == numBlocks;
  }

  /** An empty interior stage breaks the chain: the next stage expects the empty stage's width. */
  lemma InteriorEmptyStageBreaks()
    ensures Indexable([1, 0, 1], [4, 8, 16]) && !WellChained([1, 0, 1], [4, 8, 16])
  {
    var nb, ch := [1, 0, 1], [4, 8, 16];
    PrefixChannels(nb, ch, 1);
    LayoutSnoc(nb, ch, 1);
    LayoutSnoc(nb, ch, 2);
    assert nb[..3] == nb;
    StageChannels(ch, 2, 1, 4);
    ChannelsAppend(4, Layout(nb[..2], ch), Stage(ch, 2, 1));
  }

  /** An empty last stage breaks the head: the Linear layer expects the last width. */
  lemma TrailingEmptyStageBreaks()
    ensures Indexable([1, 1, 0], [4, 8, 16]) && !WellChained([1, 1, 0], [4, 8, 16])
  {
    var nb, ch := [1, 1, 0], [4, 8, 16];
    PrefixChannels(nb, ch, 2);
    LayoutSnoc(nb, ch, 2);
    assert nb[..3] == nb;
    assert Stage(ch, 2, 0) == [];
    assert Layout(nb, ch) == Layout(nb[..2], ch);
  }

  /** Fewer stage sizes than widths build, but the head then expects the wrong width. */
  lemma MismatchedLengthsBreak()
    ensures Indexable([3, 3], [12, 32, 64]) && !WellChained([3, 3], [12, 32, 64])
  {
    var nb := [3, 3];
    PrefixChannels(nb, [12, 32, 64], 2);
    assert nb[..2] == nb;
  }

  /**
   * End-to-end shape of the network ResNet.__init__ builds: it maps exactly
   * the non-empty 3-channel images, of any height and width, to num_classes
   * features, provided the channels chain; otherwise every input fails.
   */
  lemma NetworkShape(h: HParams, s: Shape)
    requires Indexable(h.numBlocks, h.cHidden)
    ensures var ch := h.cHidden;
      var g := ForwardGraph(
        InitLayers(InputNet(h.blockClass, ch[0]), h.actFnName),
        InitBlocks(Built(h.blockClass, Layout(h.numBlocks, ch)), h.actFnName),
        InitLayers(OutputNet(ch[|ch| - 1], h.numClasses), h.actFnName),
        Input);
      ShapeOf(g, s) ==
        if s.Spatial? && s.channels == 3 && s.height > 0 && s.width > 0 && WellChained(h.numBlocks, ch)
        then Some(Features(h.numClasses)) else None
  {
    var ch, nl := h.cHidden, h.actFnName;
    var inNet := InitLayers(InputNet(h.blockClass, ch[0]), nl);
    var bs := InitBlocks(Built(h.blockClass, Layout(h.numBlocks, ch)), nl);
    var outNet := InitLayers(OutputNet(ch[|ch| - 1], h.numClasses), nl);
    var g0 := Chain(inNet, Input);
    ChainShape(inNet, Input, s);
    InitLayersShape(InputNet(h.blockClass, ch[0]), nl, Some(s));
    InputNetShape(h.blockClass, ch[0], s);
    var g1 := BlocksForward(bs, g0);
    BlocksForwardShape(h.blockClass, Layout(h.numBlocks, ch), nl, g0, s);
    StackOutSpec(Layout(h.numBlocks, ch), ShapeOf(g0, s));
    ChainShape(outNet, g1, s);
    InitLayersShape(OutputNet(ch[|ch| - 1], h.numClasses), nl, ShapeOf(g1, s));
    OutputNetShape(ch[|ch| - 1], h.numClasses, ShapeOf(g1, s));
  }

  // ---------------------------------------------------------------------------
  // The network object

  class ResNet {
    const hparams: HParams
    var inputNet: seq<Layer>
    var blocks: seq<Block>
    var outputNet: seq<Layer>

    /** The structure _create_network lays out, before initialization. */
    predicate Created()
      reads this
    {
      Indexable(hparams.numBlocks, hparams.cHidden) &&
      inputNet == InputNet(hparams.blockClass, hparams.cHidden[0]) &&
      blocks == Built(hparams.blockClass, Layout(hparams.numBlocks, hparams.cHidden)) &&
      outputNet == OutputNet(hparams.cHidden[|hparams.cHidden| - 1], hparams.numClasses)
    }

    /** What _init_params promises of every layer of the network. */
    predicate ParamsInitialized()
      reads this
    {
      LayersInitialized(inputNet, hparams.actFnName) &&
      (forall k :: 0 <= k < |blocks| ==> BlockInitialized(blocks[k], hparams.actFnName)) &&
      LayersInitialized(outputNet, hparams.actFnName)
    }

    /** ResNet.forward applied to x. */
    function Forward(x: Graph): Graph
      reads this
    {
      ForwardGraph(inputNet, blocks, outputNet, x)
    }

    /** The tail of ResNet.__init__, once the block name has been checked. */
    constructor (h: HParams)
      requires Indexable(h.numBlocks, h.cHidden)
      ensures hparams == h
      ensures inputNet == InitLayers(InputNet(h.blockClass, h.cHidden[0]), h.actFnName)
      ensures blocks == InitBlocks(Built(h.blockClass, Layout(h.numBlocks, h.cHidden)), h.actFnName)
      ensures outputNet == InitLayers(OutputNet(h.cHidden[|h.cHidden| - 1], h.numClasses), h.actFnName)
      ensures ParamsInitialized()
      ensures forall s :: (ShapeOf(Forward(Input), s) ==
                 if s.Spatial? && s.channels == 3 && s.height > 0 && s.width > 0 && WellChained(h.numBlocks, h.cHidden)
                 then Some(Features(h.numClasses)) else None)
    {
      hparams := h;
      inputNet, blocks, outputNet := [], [], [];
      new;
      CreateNetwork();
      ghost var created := blocks;
      InitParams();
      InitLayersSpec(inputNet, h.actFnName);
      InitLayersSpec(outputNet, h.actFnName);
      forall k | 0 <= k < |blocks|
        ensures BlockInitialized(blocks[k], h.actFnName)
      {
        InitBlockInitialized(created[k], h.actFnName);
      }
      forall s: Shape
        ensures ShapeOf(Forward(Input), s) ==
          if s.Spatial? && s.channels == 3 && s.height > 0 && s.width > 0 && WellChained(h.numBlocks, h.cHidden)
          then Some(Features(h.numClasses)) else None
      {
        NetworkShape(h, s);
      }
    }

    /** ResNet._create_network */
    method CreateNetwork()
      requires Indexable(hparams.numBlocks, hparams.cHidden)
      modifies this
      ensures Created()
    {
      var cHidden := hparams.cHidden;
      var numBlocks := hparams.numBlocks;
      inputNet := InputNet(hparams.blockClass, cHidden[0]);

      var bs: seq<Block> := [];
      ghost var args: seq<BlockArgs> := [];
      var blockIdx := 0;
      while blockIdx < |numBlocks|
        invariant 0 <= blockIdx <= |numBlocks|
        invariant StagesIndexable(numBlocks[..blockIdx], cHidden)
        invariant args == Layout(numBlocks[..blockIdx], cHidden)
        invariant bs == Built(hparams.blockClass, args)
        invariant inputNet == InputNet(hparams.blockClass, cHidden[0])
      {
        LayoutSnoc(numBlocks, cHidden, blockIdx);
        var bc := 0;
        while bc < numBlocks[blockIdx]
          invariant 0 <= bc <= numBlocks[blockIdx]
          invariant args == Layout(numBlocks[..blockIdx], cHidden) + Stage(cHidden, blockIdx, bc)
          invariant bs == Built(hparams.blockClass, args)
          invariant inputNet == InputNet(hparams.blockClass, cHidden[0])
        {
          var subsample := bc == 0 && blockIdx > 0;
          var cIn := if subsample then cHidden[blockIdx - 1] else cHidden[blockIdx];
          var a := BlockArgs(cIn, subsample, cHidden[blockIdx]);
          StageSnoc(cHidden, blockIdx, bc);
          BuiltSnoc(hparams.blockClass, args, a);
          bs := bs + [Construct(hparams.blockClass, a)];
          args := args + [a];
          bc := bc + 1;
        }
        blockIdx := blockIdx + 1;
      }
      assert numBlocks[..|numBlocks|] == numBlocks;
      blocks := bs;

      outputNet := OutputNet(cHidden[|cHidden| - 1], hparams.numClasses);
    }

    /** ResNet._init_params, without the random draw of the convolution weights. */
    method InitParams()
      modifies this
      ensures inputNet == InitLayers(old(inputNet), hparams.actFnName)
      ensures blocks == InitBlocks(old(blocks), hparams.actFnName)
      ensures outputNet == InitLayers(old(outputNet), hparams.actFnName)
    {
      var nl := hparams.actFnName;
      inputNet := InitLayers(inputNet, nl);
      var k := 0;
      while k < |blocks|
        invariant 0 <= k <= |blocks| == |old(blocks)|
        invariant forall j :: 0 <= j < k ==> blocks[j] == InitBlock(old(blocks)[j], nl)
        invariant forall j :: k <= j < |blocks| ==> blocks[j] == old(blocks)[j]
        invariant inputNet == InitLayers(old(inputNet), nl)
        invariant outputNet == old(outputNet)
      {
        blocks := blocks[k := InitBlock(blocks[k], nl)];
        k := k + 1;
      }
      outputNet := InitLayers(outputNet, nl);
    }
  }

  /**
   * ResNet.__init__: rejects an unregistered block name before anything is
   * built, fails on a c_hidden index that does not exist, and otherwise
   * returns the created and initialized network.
   */
  method Build(numClasses: nat, numBlocks: seq<nat>, cHidden: seq<nat>, actFnName: string, blockName: string)
    returns (r: Result<ResNet>)
    ensures ResolveBlock(blockName).None? ==> r == Err(UnknownBlockName(blockName))
    ensures ResolveBlock(blockName).Some? && !Indexable(numBlocks, cHidden) ==> r == Err(IndexOutOfRange)
    ensures ResolveBlock(blockName).Some? && Indexable(numBlocks, cHidden) ==>
      r.Ok? && fresh(r.value) &&
      r.value.hparams == HParams(numClasses, numBlocks, cHidden, actFnName, ResolveBlock(blockName).value) &&
      r.value.ParamsInitialized()
    ensures ResolveBlock(blockName).Some? && Indexable(numBlocks, cHidden) ==>
      var v := ResolveBlock(blockName).value;
      r.Ok? &&
      r.value.inputNet == InitLayers(InputNet(v, cHidden[0]), actFnName) &&
      r.value.blocks == InitBlocks(Built(v, Layout(numBlocks, cHidden)), actFnName) &&
      r.value.outputNet == InitLayers(OutputNet(cHidden[|cHidden| - 1], numClasses), actFnName) &&
      forall s :: (ShapeOf(r.value.Forward(Input), s) ==
        if s.Spatial? && s.channels == 3 && s.height > 0 && s.width > 0 && WellChained(numBlocks, cHidden)
        then Some(Features(numClasses)) else None)
  {
    var v := ResolveBlock(blockName);
    if v.None? {
      return Err(UnknownBlockName(blockName));
    }
    if !Indexable(numBlocks, cHidden) {
      return Err(IndexOutOfRange);
    }
    var net := new ResNet(HParams(numClasses, numBlocks, cHidden, actFnName, v.value));
    r := Ok(net);
  }

  /**
   * The reference configuration (ten classes, stages [3, 3, 3] of widths
   * [12, 32, 64], ResNetBlock) maps a 3x32x32 image to ten features.
   */
  lemma DefaultNetworkShape()
    ensures var h := DefaultHParams;
      Indexable(h.numBlocks, h.cHidden) &&
      ShapeOf(ForwardGraph(
        InitLayers(InputNet(h.blockClass, h.cHidden[0]), h.actFnName),
        InitBlocks(Built(h.blockClass, Layout(h.numBlocks, h.cHidden)), h.actFnName),
        InitLayers(OutputNet(h.cHidden[2], h.numClasses), h.actFnName),
        Input), Spatial(3, 32, 32)) == Some(Features(10))
  {
    StagesChain(DefaultHParams.numBlocks, DefaultHParams.cHidden);
    NetworkShape(DefaultHParams, Spatial(3, 32, 32));
  }
}
