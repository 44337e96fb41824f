/**
 * The deterministic part of ResNet._init_params: every convolution weight is
 * (re)drawn Kaiming-normal with fan-out mode and the configured
 * nonlinearity, every BatchNorm gets scale 1 and shift 0, and every other
 * layer is left as it was.
 */
module Params {
  import opened Shapes
  import opened Blocks

  /** A layer with its parameters forgotten: what the layer computes on shapes. */
  function Architecture(l: Layer): Layer
  {
    match l
    case Conv(ci, co, k, p, s, _) => Conv(ci, co, k, p, s, TorchDefault)
    case BatchNorm(c, _, _) => BatchNorm(c, TorchDefault, TorchDefault)
    case Linear(i, o, _, _) => Linear(i, o, TorchDefault, TorchDefault)
    case _ => l
  }

  /** The effect of one iteration of the module loop of _init_params on a layer. */
  function InitLayer(l: Layer, nonlinearity: string): (r: Layer)
    ensures Architecture(r) == Architecture(l)
    ensures forall s :: LayerShape(r, s) == LayerShape(l, s)
    ensures r.Conv? ==> r.weight == KaimingNormalFanOut(nonlinearity)
    ensures r.BatchNorm? ==> r.weight == Constant(1) && r.bias == Constant(0)
    ensures !l.Conv? && !l.BatchNorm? ==> r == l
  {
    match l
    case Conv(ci, co, k, p, s, _) => Conv(ci, co, k, p, s, KaimingNormalFanOut(nonlinearity))
    case BatchNorm(c, _, _) => BatchNorm(c, Constant(1), Constant(0))
    case _ => l
  }

  /** The module loop of _init_params over an nn.Sequential. */
  function InitLayers(ls: seq<Layer>, nonlinearity: string): (r: seq<Layer>)
  {
    seq(|ls|, k requires 0 <= k < |ls| => InitLayer(ls[k], nonlinearity))
  }

  /** The module loop of _init_params over one block's transform and shortcut. */
  function InitBlock(b: Block, nonlinearity: string): (r: Block)
  {
    match b
    case ResNetBlock(net, ds) =>
      ResNetBlock(InitLayers(net, nonlinearity),
                  if ds.Some? then Some(InitLayer(ds.value, nonlinearity)) else None)
    case PreActResNetBlock(net, ds) =>
      PreActResNetBlock(InitLayers(net, nonlinearity),
                        if ds.Some? then Some(InitLayers(ds.value, nonlinearity)) else None)
  }

  /** The module loop of _init_params over the block sequence. */
  function InitBlocks(bs: seq<Block>, nonlinearity: string): (r: seq<Block>)
  {
    seq(|bs|, k requires 0 <= k < |bs| => InitBlock(bs[k], nonlinearity))
  }

  /** What _init_params promises of one layer. */
  predicate LayerInitialized(l: Layer, nonlinearity: string)
  {
    (l.Conv? ==> l.weight == KaimingNormalFanOut(nonlinearity)) &&
    (l.BatchNorm? ==> l.weight == Constant(1) && l.bias == Constant(0))
  }

  predicate LayersInitialized(ls: seq<Layer>, nonlinearity: string)
  {
    forall k :: 0 <= k < |ls| ==> LayerInitialized(ls[k], nonlinearity)
  }

  predicate BlockInitialized(b: Block, nonlinearity: string)
  {
    LayersInitialized(b.net, nonlinearity) &&
    match b
    case ResNetBlock(_, ds) => ds.Some? ==> LayerInitialized(ds.value, nonlinearity)
    case PreActResNetBlock(_, ds) => ds.Some? ==> LayersInitialized(ds.value, nonlinearity)
  }

  /**
   * Initializing a sequence of layers initializes every one of them, keeps
   * their architecture and leaves every layer that is neither a convolution
   * nor a BatchNorm, in particular every Linear, untouched.
   */
  lemma InitLayersSpec(ls: seq<Layer>, nonlinearity: string)
    ensures var r := InitLayers(ls, nonlinearity);
      |r| == |ls| && LayersInitialized(r, nonlinearity) &&
      (forall k :: 0 <= k < |ls| ==> Architecture(r[k]) == Architecture(ls[k])) &&
      (forall k :: 0 <= k < |ls| && !ls[k].Conv? && !ls[k].BatchNorm? ==> r[k] == ls[k])
  {
  }

  /** Initializing a block initializes its transform and its shortcut. */
  lemma InitBlockInitialized(b: Block, nonlinearity: string)
    ensures BlockInitialized(InitBlock(b, nonlinearity), nonlinearity)
  {
    InitLayersSpec(b.net, nonlinearity);
    if b.PreActResNetBlock? && b.downSampleNet.Some? {
      InitLayersSpec(b.downSampleNet.value, nonlinearity);
    }
  }

  /** Initialization changes no shape along a layer sequence. */
  lemma {:induction false} InitLayersShape(ls: seq<Layer>, nonlinearity: string, s: Option<Shape>)
    ensures SeqShape(InitLayers(ls, nonlinearity), s) == SeqShape(ls, s)
    decreases |ls|
  {
    if ls != [] && s.Some? {
      var r := InitLayers(ls, nonlinearity);
      assert r[1..] == InitLayers(ls[1..], nonlinearity);
      InitLayersShape(ls[1..], nonlinearity, LayerShape(ls[0], s.value));
    }
  }

  /** Initialization changes no shape of a block. */
  lemma InitBlockShape(b: Block, nonlinearity: string, s: Option<Shape>)
    ensures BlockShape(InitBlock(b, nonlinearity), s) == BlockShape(b, s)
  {
    if s.Some? {
      InitLayersShape(b.net, nonlinearity, s);
      if b.PreActResNetBlock? && b.downSampleNet.Some? {
        InitLayersShape(b.downSampleNet.value, nonlinearity, s);
      }
    }
  }

  /**
   * A second run of the initializer yields the same initialization state: the
   * same constants and the same Kaiming tags (a real second run would redraw
   * the convolution weights, which the tags do not record).
   */
  lemma InitBlockIdempotent(b: Block, nonlinearity: string)
    ensures InitBlock(InitBlock(b, nonlinearity), nonlinearity) == InitBlock(b, nonlinearity)
  {
    var ls := b.net;
    assert InitLayers(InitLayers(ls, nonlinearity), nonlinearity) == InitLayers(ls, nonlinearity);
    if b.PreActResNetBlock? && b.downSampleNet.Some? {
      var ds := b.downSampleNet.value;
      assert InitLayers(InitLayers(ds, nonlinearity), nonlinearity) == InitLayers(ds, nonlinearity);
    }
  }
}
