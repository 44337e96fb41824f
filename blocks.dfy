/**
 * The two residual block variants (ResNetBlock and PreActResNetBlock), their
 * forward computations, and the registry that maps block names to variants.
 */
module Blocks {
  import opened Shapes

  /** The closed set of block classes. */
  datatype Variant = Standard | PreAct

  /** The arguments of one block constructor call: (c_in, subsample, c_out). */
  datatype BlockArgs = BlockArgs(cIn: nat, subsample: bool, cOut: nat)

  /**
   * A constructed block: the transform `net` and the optional `down_sample`
   * shortcut.  A ResNetBlock's shortcut is a single 1x1 convolution; a
   * PreActResNetBlock's is a short sequence.  A ResNetBlock also owns an
   * activation applied after the sum; that one is the `Act` in its forward.
   */
  datatype Block =
    | ResNetBlock(net: seq<Layer>, downSample: Option<Layer>)
    | PreActResNetBlock(net: seq<Layer>, downSampleNet: Option<seq<Layer>>)

  /** Channels a block with these arguments produces (c_out is reset to c_in when not subsampling). */
  function OutChannels(a: BlockArgs): nat
  {
    if a.subsample then a.cOut else a.cIn
  }

  /** Spatial length after a block with these arguments. */
  function Scale(a: BlockArgs, n: nat): nat
  {
    if a.subsample then Half(n) else n
  }

  /** ResNetBlock.__init__ */
  function NewResNetBlock(cIn: nat, subsample: bool, cOut: nat): (r: Block)
    ensures r.ResNetBlock? && (r.downSample.Some? <==> subsample)
    ensures forall k :: 0 <= k < |r.net| && r.net[k].Conv? ==>
      r.net[k].cOut == (if subsample then cOut else cIn)
  {
    var c := if subsample then cOut else cIn;
    ResNetBlock(
      [ Conv(cIn, c, 3, 1, if subsample then 2 else 1, TorchDefault),
        BatchNorm(c, TorchDefault, TorchDefault),
        Act,
        Conv(c, c, 3, 1, 1, TorchDefault),
        BatchNorm(c, TorchDefault, TorchDefault) ],
      if subsample then Some(Conv(cIn, c, 1, 0, 2, TorchDefault)) else None)
  }

  /** PreActResNetBlock.__init__ */
  function NewPreActResNetBlock(cIn: nat, subsample: bool, cOut: nat): (r: Block)
    ensures r.PreActResNetBlock? && (r.downSampleNet.Some? <==> subsample)
    ensures forall k :: 0 <= k < |r.net| && r.net[k].Conv? ==>
      r.net[k].cOut == (if subsample then cOut else cIn)
  {
    var c := if subsample then cOut else cIn;
    PreActResNetBlock(
      [ BatchNorm(cIn, TorchDefault, TorchDefault),
        Act,
        Conv(cIn, c, 3, 1, if subsample then 2 else 1, TorchDefault),
        BatchNorm(c, TorchDefault, TorchDefault),
        Act,
        Conv(c, c, 3, 1, 1, TorchDefault) ],
      if subsample
      then Some([BatchNorm(cIn, TorchDefault, TorchDefault), Act, Conv(cIn, c, 1, 0, 2, TorchDefault)])
      else None)
  }

  /** Calling the block class that `v` names with arguments `a`. */
  function Construct(v: Variant, a: BlockArgs): (r: Block)
  {
    match v
    case Standard => NewResNetBlock(a.cIn, a.subsample, a.cOut)
    case PreAct => NewPreActResNetBlock(a.cIn, a.subsample, a.cOut)
  }

  /** The shortcut path applied to x: the identity when there is no down_sample. */
  function Shortcut(b: Block, x: Graph): Graph
  {
    match b
    case ResNetBlock(_, ds) => if ds.Some? then Node(ds.value, x) else x
    case PreActResNetBlock(_, ds) => if ds.Some? then Chain(ds.value, x) else x
  }

  /** The forward methods: `z + x`, followed by the activation in a ResNetBlock only. */
  function BlockForward(b: Block, x: Graph): (r: Graph)
  {
    match b
    case ResNetBlock(net, _) => Node(Act, Sum(Chain(net, x), Shortcut(b, x)))
    case PreActResNetBlock(net, _) => Sum(Chain(net, x), Shortcut(b, x))
  }

  /**
   * Reference shape contract of a block built from `a`: it accepts exactly a
   * non-empty feature map with c_in channels, and yields OutChannels(a)
   * channels with each spatial length halved (rounding up) when subsampling.
   */
  function BlockOut(a: BlockArgs, s: Option<Shape>): (r: Option<Shape>)
  {
    match s
    case Some(Spatial(c, h, w)) =>
      if c == a.cIn && h > 0 && w > 0
      then Some(Spatial(OutChannels(a), Scale(a, h), Scale(a, w)))
      else None
    case _ => None
  }

  /** Shape of a block's shortcut output on input shape s. */
  function ShortcutShape(b: Block, s: Shape): (r: Option<Shape>)
  {
    match b
    case ResNetBlock(_, ds) => if ds.Some? then LayerShape(ds.value, s) else Some(s)
    case PreActResNetBlock(_, ds) => if ds.Some? then SeqShape(ds.value, Some(s)) else Some(s)
  }

  /** Shape of a block's output, computed layer by layer from its two paths. */
  function BlockShape(b: Block, s: Option<Shape>): (r: Option<Shape>)
  {
    match s
    case None => None
    case Some(x) =>
      var z := SeqShape(b.net, Some(x));
      if z.Some? && z == ShortcutShape(b, x) then z else None
  }

  /** The forward graph of any block has the shape BlockShape computes. */
  lemma BlockForwardShape(b: Block, g: Graph, x: Shape)
    ensures ShapeOf(BlockForward(b, g), x) == BlockShape(b, ShapeOf(g, x))
  {
    ChainShape(b.net, g, x);
    SeqShapeNone(b.net);
    if b.PreActResNetBlock? && b.downSampleNet.Some? {
      ChainShape(b.downSampleNet.value, g, x);
      SeqShapeNone(b.downSampleNet.value);
    }
    var sum := Sum(Chain(b.net, g), Shortcut(b, g));
    match ShapeOf(g, x)
    case None =>
      assert ShapeOf(sum, x) == None;
    case Some(s) =>
      assert ShapeOf(Shortcut(b, g), x) == ShortcutShape(b, s);
      assert ShapeOf(sum, x) == BlockShape(b, Some(s));
  }

  /**
   * Both variants meet the reference contract on every input shape: in
   * particular transform and shortcut always have the same shape, so the
   * residual sum never fails on a valid input.
   */
  lemma ConstructedBlockShape(v: Variant, a: BlockArgs, s: Option<Shape>)
    ensures BlockShape(Construct(v, a), s) == BlockOut(a, s)
  {
    match s
    case None =>
    case Some(x) =>
      TransformShape(v, a, x);
      if x.Spatial? && x.channels == a.cIn && x.height > 0 && x.width > 0 {
        ShortcutOut(v, a, x);
      }
  }

  /** The same contract for the forward graph, whatever graph feeds the block. */
  lemma ConstructedBlockForward(v: Variant, a: BlockArgs, g: Graph, x: Shape)
    ensures ShapeOf(BlockForward(Construct(v, a), g), x) == BlockOut(a, ShapeOf(g, x))
  {
    BlockForwardShape(Construct(v, a), g, x);
    ConstructedBlockShape(v, a, ShapeOf(g, x));
  }

  /** The transform of a block maps a valid input to the reference output and rejects all others. */
  lemma TransformShape(v: Variant, a: BlockArgs, s: Shape)
    ensures SeqShape(Construct(v, a).net, Some(s)) == BlockOut(a, Some(s))
  {
    if v == Standard {
      StandardTransformShape(a, s);
    } else {
      PreActTransformShape(a, s);
    }
  }

  /** A 3x3 convolution with padding 1 on a non-empty map with the right channels. */
  lemma Conv3x3Shape(ci: nat, co: nat, stride: nat, w: Init, h: nat, wd: nat)
    requires stride == 1 || stride == 2
    requires h > 0 && wd > 0
    ensures LayerShape(Conv(ci, co, 3, 1, stride, w), Spatial(ci, h, wd))
      == Some(Spatial(co, if stride == 2 then Half(h) else h, if stride == 2 then Half(wd) else wd))
  {
    ConvLengths(h);
    ConvLengths(wd);
  }

  lemma StandardTransformShape(a: BlockArgs, s: Shape)
    ensures SeqShape(NewResNetBlock(a.cIn, a.subsample, a.cOut).net, Some(s)) == BlockOut(a, Some(s))
  {
    var net := NewResNetBlock(a.cIn, a.subsample, a.cOut).net;
    var c := OutChannels(a);
    assert SeqShape(net, Some(s)) == SeqShape(net[1..], LayerShape(net[0], s));
    if s.Spatial? && s.channels == a.cIn && s.height > 0 && s.width > 0 {
      var h, w := Scale(a, s.height), Scale(a, s.width);
      Conv3x3Shape(a.cIn, c, net[0].stride, TorchDefault, s.height, s.width);
      var t := Spatial(c, h, w);
      assert LayerShape(net[0], s) == Some(t);
      assert SeqShape(net[1..], Some(t)) == SeqShape(net[2..], Some(t));
      assert SeqShape(net[2..], Some(t)) == SeqShape(net[3..], Some(t));
      Conv3x3Shape(c, c, 1, TorchDefault, h, w);
      assert SeqShape(net[3..], Some(t)) == SeqShape(net[4..], Some(t));
      assert SeqShape(net[4..], Some(t)) == SeqShape(net[5..], Some(t));
      assert net[5..] == [];
    } else {
      assert LayerShape(net[0], s) == None;
      SeqShapeNone(net[1..]);
    }
  }

  lemma PreActTransformShape(a: BlockArgs, s: Shape)
    ensures SeqShape(NewPreActResNetBlock(a.cIn, a.subsample, a.cOut).net, Some(s)) == BlockOut(a, Some(s))
  {
    var net := NewPreActResNetBlock(a.cIn, a.subsample, a.cOut).net;
    var c := OutChannels(a);
    assert SeqShape(net, Some(s)) == SeqShape(net[1..], LayerShape(net[0], s));
    if s.Spatial? && s.channels == a.cIn {
      assert SeqShape(net[1..], Some(s)) == SeqShape(net[2..], Some(s));
      assert SeqShape(net[2..], Some(s)) == SeqShape(net[3..], LayerShape(net[2], s));
      if s.height > 0 && s.width > 0 {
        var h, w := Scale(a, s.height), Scale(a, s.width);
        Conv3x3Shape(a.cIn, c, net[2].stride, TorchDefault, s.height, s.width);
        var t := Spatial(c, h, w);
        assert LayerShape(net[2], s) == Some(t);
        assert SeqShape(net[3..], Some(t)) == SeqShape(net[4..], Some(t));
        assert SeqShape(net[4..], Some(t)) == SeqShape(net[5..], Some(t));
        Conv3x3Shape(c, c, 1, TorchDefault, h, w);
        assert SeqShape(net[5..], Some(t)) == SeqShape(net[6..], Some(t));
        assert net[6..] == [];
      } else {
        assert LayerShape(net[2], s) == None;
        SeqShapeNone(net[3..]);
      }
    } else {
      assert LayerShape(net[0], s) == None;
      SeqShapeNone(net[1..]);
    }
  }

  /**
   * The shortcut of a block has the reference output shape on every valid
   * input.
   */
  lemma ShortcutOut(v: Variant, a: BlockArgs, s: Shape)
    requires s.Spatial? && s.channels == a.cIn && s.height > 0 && s.width > 0
    ensures ShortcutShape(Construct(v, a), s) == BlockOut(a, Some(s))
  {
    ConvLengths(s.height);
    ConvLengths(s.width);
    var b := Construct(v, a);
    if b.PreActResNetBlock? && b.downSampleNet.Some? {
      var ds := b.downSampleNet.value;
      assert SeqShape(ds, Some(s)) == SeqShape(ds[1..], Some(s));
      assert SeqShape(ds[1..], Some(s)) == SeqShape(ds[2..], Some(s));
      assert SeqShape(ds[2..], Some(s)) == SeqShape(ds[3..], LayerShape(ds[2], s));
      assert ds[3..] == [];
    }
  }

  /** A non-subsampling block ignores the c_out it is given. */
  lemma NonSubsamplingIgnoresCOut(v: Variant, cIn: nat, cOut1: nat, cOut2: nat)
    ensures Construct(v, BlockArgs(cIn, false, cOut1)) == Construct(v, BlockArgs(cIn, false, cOut2))
  {
  }

  /** The convolutions of a block: in the transform, and in the shortcut. */
  function Convs(b: Block): seq<Layer>
  {
    var ls := match b
      case ResNetBlock(net, ds) => net + (if ds.Some? then [ds.value] else [])
      case PreActResNetBlock(net, ds) => net + (if ds.Some? then ds.value else []);
    Filter(ls)
  }

  function Filter(ls: seq<Layer>): (r: seq<Layer>)
    ensures forall k :: 0 <= k < |r| ==> r[k].Conv? && r[k] in ls
    ensures forall l :: l in ls && l.Conv? ==> l in r
    decreases |ls|
  {
    if ls == [] then []
    else (if ls[0].Conv? then [ls[0]] else []) + Filter(ls[1..])
  }

  /**
   * In a non-subsampling block every convolution is a 3x3, padding 1,
   * stride 1 map from c_in to c_in channels, and there is no shortcut layer.
   */
  lemma NonSubsamplingConvsKeepShape(v: Variant, a: BlockArgs)
    requires !a.subsample
    ensures forall l :: l in Convs(Construct(v, a)) ==>
      l.kernel == 3 && l.padding == 1 && l.stride == 1 && l.cIn == l.cOut == a.cIn
    ensures Shortcut(Construct(v, a), Input) == Input
  {
  }

  /**
   * In a subsampling block the first convolution of the transform (3x3,
   * padding 1, stride 2) and the shortcut's convolution (1x1, padding 0,
   * stride 2) both map c_in to c_out channels.
   */
  lemma SubsamplingConvsAgree(v: Variant, a: BlockArgs)
    requires a.subsample
    ensures var b := Construct(v, a);
      var first := if v == Standard then b.net[0] else b.net[2];
      var proj := if v == Standard then b.downSample.value else b.downSampleNet.value[2];
      first == Conv(a.cIn, a.cOut, 3, 1, 2, TorchDefault) &&
      proj == Conv(a.cIn, a.cOut, 1, 0, 2, TorchDefault)
  {
  }

  /**
   * The variants' distinguishing step: a ResNetBlock ends with an activation
   * applied to the sum; a PreActResNetBlock ends at the sum.
   */
  lemma MergeStep(v: Variant, a: BlockArgs, x: Graph)
    ensures var out := BlockForward(Construct(v, a), x);
      (v == Standard ==> out.Node? && out.layer == Act && out.arg.Sum?) &&
      (v == PreAct ==> out.Sum?)
  {
  }

  /**
   * Pre-activation: in a PreActResNetBlock every convolution, in the
   * transform and in the shortcut, directly follows a BatchNorm of its input
   * channels and an activation.  In a ResNetBlock every convolution of the
   * transform is directly followed by a BatchNorm of its output channels.
   */
  lemma LayerOrdering(v: Variant, a: BlockArgs)
    ensures var b := Construct(v, a);
      v == PreAct ==>
        (forall k :: 0 <= k < |b.net| && b.net[k].Conv? ==>
           k >= 2 && b.net[k - 2] == BatchNorm(b.net[k].cIn, TorchDefault, TorchDefault) && b.net[k - 1] == Act) &&
        (b.downSampleNet.Some? ==> forall k :: 0 <= k < |b.downSampleNet.value| && b.downSampleNet.value[k].Conv? ==>
           k >= 2 && b.downSampleNet.value[k - 2] == BatchNorm(b.downSampleNet.value[k].cIn, TorchDefault, TorchDefault)
           && b.downSampleNet.value[k - 1] == Act)
    ensures var b := Construct(v, a);
      v == Standard ==>
        forall k :: 0 <= k < |b.net| && b.net[k].Conv? ==>
          k + 1 < |b.net| && b.net[k + 1] == BatchNorm(b.net[k].cOut, TorchDefault, TorchDefault)
  {
  }

  // ---------------------------------------------------------------------------
  // resnet_blocks_by_name

  /** The registry holds exactly the two class names, each bound to its own variant. */
  function BlocksByName(): (m: map<string, Variant>)
    ensures m.Keys == {"ResNetBlock", "PreActResNetBlock"}
    ensures forall v: Variant :: VariantName(v) in m && m[VariantName(v)] == v
  {
    map["ResNetBlock" := Standard, "PreActResNetBlock" := PreAct]
  }

  /** The class name under which a variant is registered. */
  function VariantName(v: Variant): string
  {
    match v
    case Standard => "ResNetBlock"
    case PreAct => "PreActResNetBlock"
  }

  /** Registry lookup: only the two registered class names resolve. */
  function ResolveBlock(name: string): (r: Option<Variant>)
    ensures r.Some? ==> VariantName(r.value) == name
    ensures r.None? ==> forall v: Variant :: VariantName(v) != name
  {
    var m := BlocksByName();
    if name in m then Some(m[name]) else None
  }

  /** Every variant is found under its own name. */
  lemma RegistryRoundTrip(v: Variant)
    ensures ResolveBlock(VariantName(v)) == Some(v)
  {
  }
}
