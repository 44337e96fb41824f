/**
 * Layer descriptors of the network and their shape semantics.
 *
 * Each PyTorch module that the ResNet builder creates (Conv2d, BatchNorm2d,
 * an activation, AdaptiveAvgPool2d((1, 1)), Flatten, Linear) is a value of
 * `Layer`.  Tensor contents are not modelled: a layer is a shape transformer,
 * and `None` stands for the runtime error PyTorch raises on an input of the
 * wrong shape.  The batch dimension is left implicit.
 */
module Shapes {

  datatype Option<T> = None | Some(value: T)

  /** How a parameter tensor was last set. */
  datatype Init =
    | TorchDefault                              // whatever the module's own constructor chose
    | KaimingNormalFanOut(nonlinearity: string) // nn.init.kaiming_normal_(w, mode='fan_out', ...)
    | Constant(value: int)                      // nn.init.constant_(w, value)

  /**
   * Every convolution of the builder is created with bias=False, so a `Conv`
   * carries only a weight.
   */
  datatype Layer =
    | Conv(cIn: nat, cOut: nat, kernel: nat, padding: nat, stride: nat, weight: Init)
    | BatchNorm(channels: nat, weight: Init, bias: Init)
    | Act
    | AvgPool
    | Flatten
    | Linear(inFeatures: nat, outFeatures: nat, weight: Init, bias: Init)

  /** Shape of one sample: a (C, H, W) feature map, or a flat feature vector. */
  datatype Shape = Spatial(channels: nat, height: nat, width: nat) | Features(size: nat)

  /** Ceiling of n / 2. */
  function Half(n: nat): (r: nat)
    ensures n <= 2 * r <= n + 1
  {
    (n + 1) / 2
  }

  /** Output length of a convolution along one axis (PyTorch Conv2d, dilation 1). */
  function ConvLength(n: nat, kernel: nat, padding: nat, stride: nat): nat
    requires stride > 0 && n + 2 * padding >= kernel
  {
    (n + 2 * padding - kernel) / stride + 1
  }

  /**
   * The two strided convolutions of a subsampling block (3x3 with padding 1,
   * and 1x1 with padding 0) give the same length, ceil(n / 2); the 3x3 "same"
   * convolution keeps the length.
   */
  lemma ConvLengths(n: nat)
    requires n > 0
    ensures ConvLength(n, 3, 1, 2) == ConvLength(n, 1, 0, 2) == Half(n)
    ensures ConvLength(n, 3, 1, 1) == n
  {
  }

  /** Output shape of one layer, or None when PyTorch would reject the input. */
  function LayerShape(l: Layer, s: Shape): (r: Option<Shape>)
  {
    match l
    case Conv(ci, co, k, p, st, _) =>
      if s.Spatial? && s.channels == ci && k > 0 && st > 0
         && s.height + 2 * p >= k && s.width + 2 * p >= k
      then Some(Spatial(co, ConvLength(s.height, k, p, st), ConvLength(s.width, k, p, st)))
      else None
    case BatchNorm(c, _, _) =>
      if s.Spatial? && s.channels == c then Some(s) else None
    case Act => Some(s)
    case AvgPool =>
      if s.Spatial? then Some(Spatial(s.channels, 1, 1)) else None
    case Flatten =>
      if s.Spatial? then Some(Features(s.channels * s.height * s.width)) else Some(s)
    case Linear(i, o, _, _) =>
      match s
      case Features(n) => if n == i then Some(Features(o)) else None
      case Spatial(c, h, w) => if w == i then Some(Spatial(c, h, o)) else None
  }

  /** Shape after an nn.Sequential of layers, applied first to last. */
  function SeqShape(ls: seq<Layer>, s: Option<Shape>): (r: Option<Shape>)
    decreases |ls|
  {
    if ls == [] then s
    else match s
      case None => None
      case Some(x) => SeqShape(ls[1..], LayerShape(ls[0], x))
  }

  lemma SeqShapeNone(ls: seq<Layer>)
    ensures SeqShape(ls, None) == None
  {
  }

  /**
   * The computation a forward pass performs, as a term over the network's
   * input: layers applied to a tensor, and the residual sum `z + x`.
   */
  datatype Graph = Input | Node(layer: Layer, arg: Graph) | Sum(left: Graph, right: Graph)

  /** nn.Sequential(ls)(g): ls[0] is applied first. */
  function Chain(ls: seq<Layer>, g: Graph): (r: Graph)
    decreases |ls|
  {
    if ls == [] then g else Chain(ls[1..], Node(ls[0], g))
  }

  /**
   * Shape of the tensor a graph computes from an input of shape x.  A sum
   * needs both operands to have the same shape.
   */
  function ShapeOf(g: Graph, x: Shape): (r: Option<Shape>)
  {
    match g
    case Input => Some(x)
    case Node(l, a) =>
      (match ShapeOf(a, x)
       case None => None
       case Some(s) => LayerShape(l, s))
    case Sum(a, b) =>
      var sa := ShapeOf(a, x);
      var sb := ShapeOf(b, x);
      if sa.Some? && sa == sb then sa else None
  }

  /** The shape of a chained graph is the sequential shape of its layers. */
  lemma {:induction false} ChainShape(ls: seq<Layer>, g: Graph, x: Shape)
    ensures ShapeOf(Chain(ls, g), x) == SeqShape(ls, ShapeOf(g, x))
    decreases |ls|
  {
    if ls != [] {
      ChainShape(ls[1..], Node(ls[0], g), x);
      SeqShapeNone(ls[1..]);
    }
  }
}
