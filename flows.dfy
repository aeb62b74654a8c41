/** Descriptors of the flow transforms a recipe lists, and a checker that
    threads the (channels, height, width) shape of one image through a list of
    them. The transforms themselves (CouplingLayer, Dequantization,
    VariationalDequantization, SqueezeFlow, SplitFlow) and the gated networks
    are floating-point modules; here each is only what its constructor was
    given. */
module Flows {
  import opened Wrappers
  import Tools

  /** The network that parametrises a coupling layer. */
  datatype Net =
    | GatedConvNet(cIn: nat, cHidden: nat, cOut: nat, partialConv: bool)
    | GatedLinearNet(inFeatures: nat)

  /** GatedConvNet(c_in, c_hidden=32, c_out=-1): a c_out that is not positive
      selects the affine-coupling width, twice the input channels. */
  function MakeGatedConvNet(cIn: nat, cHidden: nat := 32, cOut: int := -1, partialConv: bool := false): (n: Net)
    ensures n.GatedConvNet? && n.cIn == cIn && n.cHidden == cHidden && n.partialConv == partialConv
    ensures cOut > 0 ==> n.cOut == cOut
    // the default makes the network fit an affine coupling over its own input,
    // whatever the spatial size
    ensures cOut <= 0 ==> forall h: nat, w: nat :: NetFits(n, cIn, Shape(cIn, h, w))
  {
    GatedConvNet(cIn, cHidden, if cOut > 0 then cOut else 2 * cIn, partialConv)
  }

  /** The arguments of create_checkerboard_mask and create_channel_mask. */
  datatype MaskKind =
    | Checkerboard(h: nat, w: nat, invert: bool)
    | Channel(c: nat, invert: bool)

  /** The tensor a mask descriptor stands for. */
  function MaskTensor(m: MaskKind): Tools.Tensor4
  {
    match m
    case Checkerboard(h, w, invert) => Tools.CheckerboardMask(h, w, invert)
    case Channel(c, invert) => Tools.ChannelMask(c, invert)
  }

  /** CouplingLayer(network, mask, c_in). */
  datatype Coupling = Coupling(network: Net, mask: MaskKind, cIn: nat)

  /** One entry of a recipe's flow_layers list. */
  datatype Layer =
    | Dequantization
    | VariationalDequantization(varFlows: seq<Coupling>)
    | CouplingLayer(coupling: Coupling)
    | SqueezeFlow
    | SplitFlow

  /** The shape of one image as it passes through the flow. */
  datatype Shape = Shape(channels: nat, height: nat, width: nat)

  predicate MaskFits(m: MaskKind, s: Shape)
  {
    match m
    case Checkerboard(h, w, _) => h == s.height && w == s.width
    case Channel(c, _) => c == s.channels
  }

  /** The network reads `inChannels` channels of an s.height x s.width map and
      produces a scale and a translation for each of the s.channels channels. */
  predicate NetFits(n: Net, inChannels: nat, s: Shape)
  {
    match n
    case GatedConvNet(cIn, _, cOut, _) => cIn == inChannels && cOut == 2 * s.channels
    case GatedLinearNet(f) => inChannels == s.channels && f == inChannels * s.height * s.width
  }

  /** A coupling transforms the s.channels channels of its input; its network
      sees `inChannels` channels (twice as many inside variational
      dequantization, which also conditions on the image). */
  predicate CouplingFits(cp: Coupling, inChannels: nat, s: Shape)
  {
    cp.cIn == s.channels && MaskFits(cp.mask, s) && NetFits(cp.network, inChannels, s)
  }

  /** The number of values one image holds. */
  function Volume(s: Shape): nat
  {
    s.channels * s.height * s.width
  }

  /** The output shape of one transform, or None when it does not fit its input. */
  function Step(l: Layer, s: Shape): (r: Option<Shape>)
    ensures r.Some? ==> Volume(r.value) <= Volume(s)
  {
    match l
    case Dequantization => Some(s)
    case VariationalDequantization(flows) =>
      if forall k | 0 <= k < |flows| :: CouplingFits(flows[k], 2 * s.channels, s) then Some(s) else None
    case CouplingLayer(cp) =>
      if CouplingFits(cp, s.channels, s) then Some(s) else None
    case SqueezeFlow =>
      // 2 x 2 spatial blocks become 4 channels
      if s.height % 2 == 0 && s.width % 2 == 0 then
        var h2, w2 := s.height / 2, s.width / 2;
        assert (4 * s.channels) * h2 * w2 == s.channels * (2 * h2) * (2 * w2);
        Some(Shape(4 * s.channels, h2, w2))
      else None
    case SplitFlow =>
      // half of the channels are factored out as latent variables
      if s.channels % 2 == 0 then
        var c2 := s.channels / 2;
        assert c2 * s.height * s.width <= (2 * c2) * s.height * s.width;
        Some(Shape(c2, s.height, s.width))
      else None
  }

  /** A squeeze fits exactly an even height and width; it quadruples the
      channels, halves both sides, and keeps every value. */
  lemma SqueezeKeepsVolume(s: Shape)
    ensures Step(SqueezeFlow, s).Some? <==> s.height % 2 == 0 && s.width % 2 == 0
    ensures Step(SqueezeFlow, s).Some? ==>
              && Step(SqueezeFlow, s).value == Shape(4 * s.channels, s.height / 2, s.width / 2)
              && Volume(Step(SqueezeFlow, s).value) == Volume(s)
  {
  }

  /** A split fits exactly an even channel count; it halves the channels and
      factors out half of the values. */
  lemma SplitHalvesVolume(s: Shape)
    ensures Step(SplitFlow, s).Some? <==> s.channels % 2 == 0
    ensures Step(SplitFlow, s).Some? ==>
              && Step(SplitFlow, s).value == Shape(s.channels / 2, s.height, s.width)
              && 2 * Volume(Step(SplitFlow, s).value) == Volume(s)
  {
  }

  /** The shape of one image after the whole list of transforms, in order, or
      None when some transform does not fit the shape that reaches it. */
  function Thread(layers: seq<Layer>, s: Shape): (r: Option<Shape>)
    ensures r.Some? ==> Volume(r.value) <= Volume(s)
  {
    if layers == [] then Some(s)
    else
      match Step(layers[0], s)
      case None => None
      case Some(next) => Thread(layers[1..], next)
  }

  /** Threading through two lists one after the other is threading through the first, then the second. */
  lemma {:induction false} ThreadAppend(a: seq<Layer>, b: seq<Layer>, s: Shape)
    ensures Thread(a + b, s) == match Thread(a, s) case None => None case Some(t) => Thread(b, t)
  {
    if a == [] {
      assert a + b == b;
    } else {
      assert (a + b)[0] == a[0];
      assert (a + b)[1..] == a[1..] + b;
      match Step(a[0], s)
      case None =>
      case Some(next) => ThreadAppend(a[1..], b, next);
    }
  }

  /** A list of transforms that each keep the shape `s` passes `s` through unchanged. */
  lemma {:induction false} ThreadShapeKeeping(layers: seq<Layer>, s: Shape)
    requires forall k | 0 <= k < |layers| :: Step(layers[k], s) == Some(s)
    ensures Thread(layers, s) == Some(s)
  {
    if layers != [] {
      assert Step(layers[0], s) == Some(s);
      ThreadShapeKeeping(layers[1..], s);
    }
  }
}
