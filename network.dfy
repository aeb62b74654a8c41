/** The flow recipes of network.py: get_flow_layers, the create_*_flow
    builders and the dispatch by model name. Each recipe yields the ordered
    list of layer descriptors that ImageFlow is built from, and the factor by
    which the image shape is scaled to get the shape latents are sampled in. */
module Network {
  import opened Wrappers
  import opened Flows
  import Tools

  /** The fields of the configuration object the builders read. */
  datatype Config = Config(size: nat, c: nat, modelName: string)

  /** What a builder returns: (ImageFlow(flow_layers), sample_shape_factor). */
  datatype Flow = Flow(layers: seq<Layer>, sampleShapeFactor: seq<real>)

  datatype FlowError =
    | UnknownModel(name: string)
    | UnexpectedKeywords(callee: string, keywords: set<string>)
    | MissingArgument(callee: string, parameter: string)

  /** The shape of one input image: c channels of size x size pixels. */
  function ImageShape(config: Config): Shape
  {
    Shape(config.c, config.size, config.size)
  }

  // ---------------------------------------------------------------------------
  // get_flow_layers

  /** The 4 couplings inside variational dequantization: their networks see the
      noise and the image (2c channels) and emit 2c values; masks alternate. */
  function VarDeqCouplings(size: nat, c: nat, partialConv: bool): seq<Coupling>
  {
    seq(4, i => Coupling(MakeGatedConvNet(2 * c, 16, 2 * c, partialConv), Checkerboard(size, size, i % 2 == 1), c))
  }

  /** Main-flow coupling number i. */
  function MainCoupling(size: nat, c: nat, i: int, linear: bool, partialConv: bool): Coupling
  {
    var net := if linear then GatedLinearNet(c * size * size) else MakeGatedConvNet(c, 32, -1, partialConv);
    Coupling(net, Checkerboard(size, size, i % 2 == 1), c)
  }

  /** The list get_flow_layers returns: one dequantization layer, then the main couplings. */
  function FlowLayers(size: nat, c: nat, vardeq: bool, numLayers: nat, linear: bool, partialConv: bool): (r: seq<Layer>)
    ensures |r| == numLayers + 1
    ensures r[0].VariationalDequantization? <==> vardeq
    ensures !vardeq ==> r[0] == Dequantization
    ensures forall k | 1 <= k < |r| :: r[k].CouplingLayer?
  {
    [if vardeq then VariationalDequantization(VarDeqCouplings(size, c, partialConv)) else Dequantization]
    + seq(numLayers, i => CouplingLayer(MainCoupling(size, c, i, linear, partialConv)))
  }

  /** get_flow_layers: grows flow_layers one layer at a time. */
  method GetFlowLayers(size: nat, c: nat, vardeq: bool := true, numLayers: nat := 8,
                       linear: bool := false, partialConv: bool := false)
    returns (flowLayers: seq<Layer>)
    ensures flowLayers == FlowLayers(size, c, vardeq, numLayers, linear, partialConv)
  {
    flowLayers := [];

    // first layer: turn discrete pixel values into continuous ones
    if vardeq {
      var vardeqLayers := seq(4, i => Coupling(MakeGatedConvNet(2 * c, 16, 2 * c, partialConv),
                                               Checkerboard(size, size, i % 2 == 1), c));
      flowLayers := flowLayers + [VariationalDequantization(vardeqLayers)];
    } else {
      flowLayers := flowLayers + [Dequantization];
    }

    // then numLayers couplings whose checkerboards alternate
    var i := 0;
    while i < numLayers
      invariant i <= numLayers
      invariant |flowLayers| == i + 1
      invariant flowLayers[0] == FlowLayers(size, c, vardeq, numLayers, linear, partialConv)[0]
      invariant forall k | 0 <= k < i :: flowLayers[k + 1] == CouplingLayer(MainCoupling(size, c, k, linear, partialConv))
    {
      if !linear {
        flowLayers := flowLayers + [CouplingLayer(Coupling(MakeGatedConvNet(c, 32, -1, partialConv),
                                                           Checkerboard(size, size, i % 2 == 1), c))];
      } else {
        var numFeatures := c * size * size;
        flowLayers := flowLayers + [CouplingLayer(Coupling(GatedLinearNet(numFeatures),
                                                           Checkerboard(size, size, i % 2 == 1), c))];
      }
      i := i + 1;
    }
  }

  /** The dequantization layer is variational exactly when asked; it then wraps
      4 couplings at c channels whose networks are GatedConvNet(2c -> 2c,
      hidden 16) and whose size x size checkerboards alternate, starting plain. */
  lemma FlowLayersDequantization(size: nat, c: nat, vardeq: bool, numLayers: nat, linear: bool, partialConv: bool)
    ensures var l := FlowLayers(size, c, vardeq, numLayers, linear, partialConv)[0];
      && (vardeq <==> l.VariationalDequantization?)
      && (vardeq ==> |l.varFlows| == 4 && forall i | 0 <= i < 4 ::
            && l.varFlows[i].cIn == c
            && l.varFlows[i].network == GatedConvNet(2 * c, 16, 2 * c, partialConv)
            && l.varFlows[i].mask == Checkerboard(size, size, i % 2 == 1))
  {
  }

  /** Main coupling i (layer i + 1) uses a size x size checkerboard inverted
      exactly for odd i, and a GatedLinearNet over c * size * size features when
      linear, else GatedConvNet(c -> 2c, hidden 32). */
  lemma FlowLayersMainCouplings(size: nat, c: nat, vardeq: bool, numLayers: nat, linear: bool, partialConv: bool, i: nat)
    requires i < numLayers
    ensures var cp := FlowLayers(size, c, vardeq, numLayers, linear, partialConv)[i + 1].coupling;
      && cp.cIn == c
      && cp.mask == Checkerboard(size, size, i % 2 == 1)
      && (linear ==> cp.network == GatedLinearNet(c * size * size))
      && (!linear ==> cp.network == GatedConvNet(c, 32, 2 * c, partialConv))
  {
  }

  /** Consecutive main couplings use complementary masks. */
  lemma FlowLayersMasksAlternate(size: nat, c: nat, vardeq: bool, numLayers: nat, linear: bool, partialConv: bool, i: nat)
    requires i + 1 < numLayers
    ensures var r := FlowLayers(size, c, vardeq, numLayers, linear, partialConv);
      MaskTensor(r[i + 2].coupling.mask) == Tools.Complement(MaskTensor(r[i + 1].coupling.mask))
  {
    Tools.CheckerboardInvertComplements(size, size);
  }

  /** Every layer of get_flow_layers fits an image of c channels and size x size
      pixels and leaves its shape unchanged. */
  lemma FlowLayersThread(size: nat, c: nat, vardeq: bool, numLayers: nat, linear: bool, partialConv: bool)
    ensures Thread(FlowLayers(size, c, vardeq, numLayers, linear, partialConv), Shape(c, size, size)) == Some(Shape(c, size, size))
  {
    var s := Shape(c, size, size);
    var r := FlowLayers(size, c, vardeq, numLayers, linear, partialConv);
    forall k | 0 <= k < |r|
      ensures Step(r[k], s) == Some(s)
    {
      if k > 0 {
        var cp := r[k].coupling;
        assert cp == MainCoupling(size, c, k - 1, linear, partialConv);
        assert CouplingFits(cp, s.channels, s);
      }
    }
    ThreadShapeKeeping(r, s);
  }

  // ---------------------------------------------------------------------------
  // create_simple_flow, create_vardeq_flow, create_long_flow,
  // create_linear_flow, create_partial_conv_flow

  /** The factor of the five single-scale recipes: latents have the image's shape. */
  const UnitFactor: seq<real> := [1.0, 1.0, 1.0, 1.0]

  /** A single-scale recipe keeps the image shape through every layer and
      samples latents of shape [n, c, size, size]. */
  ghost predicate SingleScale(config: Config, f: Flow)
  {
    && Thread(f.layers, ImageShape(config)) == Some(ImageShape(config))
    && forall n: int ::
         Tools.SampleShape(n, [config.c, config.size, config.size], f.sampleShapeFactor) == Some([n, config.c, config.size, config.size])
  }

  /** The unit factor samples latents in the image's own shape. */
  lemma UnitFactorKeepsShape(config: Config)
    ensures forall n: int ::
              Tools.SampleShape(n, [config.c, config.size, config.size], UnitFactor) == Some([n, config.c, config.size, config.size])
  {
    forall n: int
      ensures Tools.SampleShape(n, [config.c, config.size, config.size], UnitFactor) == Some([n, config.c, config.size, config.size])
    {
      Tools.SampleShapeExact(n, [config.c, config.size, config.size], UnitFactor, [n, config.c, config.size, config.size]);
    }
  }

  /** A flow of num_layers + 1 layers from get_flow_layers with the unit factor. */
  function SingleScaleFlow(config: Config, vardeq: bool, numLayers: nat, linear: bool, partialConv: bool): (f: Flow)
    ensures SingleScale(config, f)
    ensures |f.layers| == numLayers + 1
  {
    FlowLayersThread(config.size, config.c, vardeq, numLayers, linear, partialConv);
    UnitFactorKeepsShape(config);
    Flow(FlowLayers(config.size, config.c, vardeq, numLayers, linear, partialConv), UnitFactor)
  }

  /** Dequantization + 8 couplings with GatedConvNet. */
  function CreateSimpleFlow(config: Config): (f: Flow)
    ensures SingleScale(config, f) && |f.layers| == 9 && f.layers[0] == Dequantization
    ensures forall k | 1 <= k < 9 :: f.layers[k].CouplingLayer? && f.layers[k].coupling.network == GatedConvNet(config.c, 32, 2 * config.c, false)
  {
    SingleScaleFlow(config, false, 8, false, false)
  }

  /** Variational dequantization + 8 couplings with GatedConvNet. */
  function CreateVardeqFlow(config: Config): (f: Flow)
    ensures SingleScale(config, f) && |f.layers| == 9 && f.layers[0].VariationalDequantization?
    ensures forall k | 1 <= k < 9 :: f.layers[k].CouplingLayer? && f.layers[k].coupling.network == GatedConvNet(config.c, 32, 2 * config.c, false)
  {
    SingleScaleFlow(config, true, 8, false, false)
  }

  /** Variational dequantization + 15 couplings with GatedConvNet. */
  function CreateLongFlow(config: Config): (f: Flow)
    ensures SingleScale(config, f) && |f.layers| == 16 && f.layers[0].VariationalDequantization?
    ensures forall k | 1 <= k < 16 :: f.layers[k].CouplingLayer? && f.layers[k].coupling.network == GatedConvNet(config.c, 32, 2 * config.c, false)
  {
    SingleScaleFlow(config, true, 15, false, false)
  }

  /** Variational dequantization + 8 couplings with GatedLinearNet. */
  function CreateLinearFlow(config: Config): (f: Flow)
    ensures SingleScale(config, f) && |f.layers| == 9 && f.layers[0].VariationalDequantization?
    ensures forall k | 1 <= k < 9 :: f.layers[k].CouplingLayer? && f.layers[k].coupling.network == GatedLinearNet(config.c * config.size * config.size)
  {
    SingleScaleFlow(config, true, 8, true, false)
  }

  /** Variational dequantization + 8 couplings with partial-convolution GatedConvNet. */
  function CreatePartialConvFlow(config: Config): (f: Flow)
    ensures SingleScale(config, f) && |f.layers| == 9 && f.layers[0].VariationalDequantization?
    ensures forall k | 1 <= k < 9 :: f.layers[k].CouplingLayer? && f.layers[k].coupling.network == GatedConvNet(config.c, 32, 2 * config.c, true)
    ensures |f.layers[0].varFlows| == 4
    ensures forall i | 0 <= i < 4 :: f.layers[0].varFlows[i].network == GatedConvNet(2 * config.c, 16, 2 * config.c, true)
  {
    SingleScaleFlow(config, true, 8, false, true)
  }

  // ---------------------------------------------------------------------------
  // create_multiscale_flow

  /** squeeze_twice: the image is squeezed a second time after the split. Both
      squeezes then halve an even side, and the final map is at least 5 x 5. */
  function SqueezeTwice(size: nat): (b: bool)
    ensures b <==> size % 2 == 0 && (size / 2) % 2 == 0 && size / 4 >= 5
  {
    size % 4 == 0 && size >= 20
  }

  /** n couplings at ch channels with alternating channel masks. */
  function ChannelCouplings(ch: nat, hidden: nat, n: nat): seq<Layer>
  {
    seq(n, i => CouplingLayer(Coupling(MakeGatedConvNet(ch, hidden), Channel(ch, i % 2 == 1), ch)))
  }

  /** The layers of the multiscale recipe. */
  function MultiscaleLayers(size: nat, c: nat): (r: seq<Layer>)
    ensures |r| == if SqueezeTwice(size) then 12 else 11
    ensures r[0].VariationalDequantization? && r[3] == SqueezeFlow && r[6] == SplitFlow
    ensures SqueezeTwice(size) <==> r[7] == SqueezeFlow
    ensures forall k | 0 <= k < |r| && k !in {0, 3, 6, 7} :: r[k].CouplingLayer?
  {
    [VariationalDequantization(VarDeqCouplings(size, c, false))]
    + seq(2, i => CouplingLayer(Coupling(MakeGatedConvNet(c, 32), Checkerboard(size, size, i % 2 == 1), c)))
    + [SqueezeFlow]
    + ChannelCouplings(4 * c, 48, 2)
    + [SplitFlow]
    + (if SqueezeTwice(size) then [SqueezeFlow] + ChannelCouplings(8 * c, 64, 4) else ChannelCouplings(2 * c, 64, 4))
  }

  /** The factor keeps the batch size, and the latent it describes holds half
      of the image's values per image, the other half having been split off. */
  function MultiscaleFactor(size: nat): (r: seq<real>)
    ensures |r| == 4 && r[0] == 1.0
    ensures r[1] * r[2] * r[3] == 0.5
    ensures r[2] == r[3]
  {
    if SqueezeTwice(size) then [1.0, 8.0, 0.25, 0.25] else [1.0, 2.0, 0.5, 0.5]
  }

  /** What create_multiscale_flow returns. Its layers fit an image exactly when
      the image's size is even. */
  function MultiscaleFlow(config: Config): (f: Flow)
    ensures Thread(f.layers, ImageShape(config)).Some? <==> config.size % 2 == 0
  {
    MultiscaleThread(config.size, config.c);
    Flow(MultiscaleLayers(config.size, config.c), MultiscaleFactor(config.size))
  }

  /** create_multiscale_flow: grows flow_layers block by block. */
  method CreateMultiscaleFlow(config: Config) returns (flow: Flow)
    ensures flow == MultiscaleFlow(config)
  {
    var squeezeTwice := config.size % 4 == 0 && config.size >= 20;
    var c := config.c;
    var flowLayers: seq<Layer> := [];

    // variational dequantization and two checkerboard couplings at full resolution
    var vardeqLayers := seq(4, i => Coupling(MakeGatedConvNet(2 * c, 16, 2 * c),
                                             Checkerboard(config.size, config.size, i % 2 == 1), c));
    flowLayers := flowLayers + [VariationalDequantization(vardeqLayers)];
    flowLayers := flowLayers + seq(2, i => CouplingLayer(Coupling(MakeGatedConvNet(c, 32),
                                                                  Checkerboard(config.size, config.size, i % 2 == 1), c)));
    ghost var head := flowLayers;

    // one squeeze, then two channel-mask couplings at 4c channels
    flowLayers := flowLayers + [SqueezeFlow];
    var i := 0;
    while i < 2
      invariant i <= 2
      invariant flowLayers == head + [SqueezeFlow] + ChannelCouplings(4 * c, 48, i)
    {
      flowLayers := flowLayers + [CouplingLayer(Coupling(MakeGatedConvNet(4 * c, 48), Channel(4 * c, i % 2 == 1), 4 * c))];
      assert ChannelCouplings(4 * c, 48, i + 1) == ChannelCouplings(4 * c, 48, i)
        + [CouplingLayer(Coupling(MakeGatedConvNet(4 * c, 48), Channel(4 * c, i % 2 == 1), 4 * c))];
      i := i + 1;
    }

    // a split keeps half of the channels; large images are squeezed once more
    flowLayers := flowLayers + [SplitFlow];
    var sampleShapeFactor: seq<real>;
    if squeezeTwice {
      flowLayers := flowLayers + [SqueezeFlow];
      flowLayers := flowLayers + seq(4, i => CouplingLayer(Coupling(MakeGatedConvNet(8 * c, 64),
                                                                    Channel(8 * c, i % 2 == 1), 8 * c)));
      sampleShapeFactor := [1.0, 8.0, 0.25, 0.25];
    } else {
      flowLayers := flowLayers + seq(4, i => CouplingLayer(Coupling(MakeGatedConvNet(2 * c, 64),
                                                                    Channel(2 * c, i % 2 == 1), 2 * c)));
      sampleShapeFactor := [1.0, 2.0, 0.5, 0.5];
    }
    flow := Flow(flowLayers, sampleShapeFactor);
  }

  /** The multiscale recipe: variational dequantization, 2 checkerboard
      couplings at c channels, a squeeze, 2 channel-mask couplings at 4c, a
      split, then either a second squeeze and 4 couplings at 8c (12 layers) or
      4 couplings at 2c (11 layers). */
  lemma MultiscaleStructure(size: nat, c: nat)
    ensures var l := MultiscaleLayers(size, c);
      && |l| == (if SqueezeTwice(size) then 12 else 11)
      && l[0] == VariationalDequantization(VarDeqCouplings(size, c, false))
      && l[1] == CouplingLayer(Coupling(GatedConvNet(c, 32, 2 * c, false), Checkerboard(size, size, false), c))
      && l[2] == CouplingLayer(Coupling(GatedConvNet(c, 32, 2 * c, false), Checkerboard(size, size, true), c))
      && l[3] == SqueezeFlow
      && l[4] == CouplingLayer(Coupling(GatedConvNet(4 * c, 48, 8 * c, false), Channel(4 * c, false), 4 * c))
      && l[5] == CouplingLayer(Coupling(GatedConvNet(4 * c, 48, 8 * c, false), Channel(4 * c, true), 4 * c))
      && l[6] == SplitFlow
      && (SqueezeTwice(size) ==>
            && l[7] == SqueezeFlow
            && forall k | 8 <= k < 12 ::
                 l[k] == CouplingLayer(Coupling(GatedConvNet(8 * c, 64, 16 * c, false), Channel(8 * c, k % 2 == 1), 8 * c)))
      && (!SqueezeTwice(size) ==>
            forall k | 7 <= k < 11 ::
              l[k] == CouplingLayer(Coupling(GatedConvNet(2 * c, 64, 4 * c, false), Channel(2 * c, k % 2 == 0), 2 * c)))
  {
  }

  /** Couplings that keep the shape `s` thread it unchanged. */
  lemma ChannelCouplingsThread(ch: nat, hidden: nat, n: nat, s: Shape)
    requires s.channels == ch
    ensures Thread(ChannelCouplings(ch, hidden, n), s) == Some(s)
  {
    var l := ChannelCouplings(ch, hidden, n);
    forall k | 0 <= k < |l|
      ensures Step(l[k], s) == Some(s)
    {
      assert CouplingFits(l[k].coupling, s.channels, s);
    }
    ThreadShapeKeeping(l, s);
  }

  lemma ThreadSingle(l: Layer, s: Shape)
    ensures Thread([l], s) == Step(l, s)
  {
  }

  /** Threading the image shape through the multiscale recipe: squeeze twice
      ends at 8c channels of size/4 x size/4; otherwise the single squeeze needs
      an even size and ends at 2c channels of size/2 x size/2. An odd size that
      does not squeeze twice fits no recipe shape. */
  lemma MultiscaleThread(size: nat, c: nat)
    ensures Thread(MultiscaleLayers(size, c), Shape(c, size, size)) ==
      if SqueezeTwice(size) then Some(Shape(8 * c, size / 4, size / 4))
      else if size % 2 == 0 then Some(Shape(2 * c, size / 2, size / 2))
      else None
  {
    var s := Shape(c, size, size);
    var a := [VariationalDequantization(VarDeqCouplings(size, c, false))]
      + seq(2, i => CouplingLayer(Coupling(MakeGatedConvNet(c, 32), Checkerboard(size, size, i % 2 == 1), c)));
    var b := ChannelCouplings(4 * c, 48, 2);
    var tail := if SqueezeTwice(size) then [SqueezeFlow] + ChannelCouplings(8 * c, 64, 4) else ChannelCouplings(2 * c, 64, 4);
    assert MultiscaleLayers(size, c) == a + [SqueezeFlow] + b + [SplitFlow] + tail;

    forall k | 0 <= k < |a|
      ensures Step(a[k], s) == Some(s)
    {
      if k > 0 {
        assert CouplingFits(a[k].coupling, s.channels, s);
      }
    }
    ThreadShapeKeeping(a, s);
    ThreadAppend(a, [SqueezeFlow], s);
    ThreadSingle(SqueezeFlow, s);
    ThreadAppend(a + [SqueezeFlow], b, s);
    ThreadAppend(a + [SqueezeFlow] + b, [SplitFlow], s);
    ThreadAppend(a + [SqueezeFlow] + b + [SplitFlow], tail, s);
    if size % 2 == 0 {
      var s1 := Shape(4 * c, size / 2, size / 2);
      ChannelCouplingsThread(4 * c, 48, 2, s1);
      ThreadSingle(SplitFlow, s1);
      var s2 := Shape(2 * c, size / 2, size / 2);
      assert Thread(a + [SqueezeFlow] + b + [SplitFlow], s) == Some(s2);
      if SqueezeTwice(size) {
        var s3 := Shape(8 * c, size / 4, size / 4);
        assert (size / 2) % 2 == 0 && (size / 2) / 2 == size / 4;
        ThreadSingle(SqueezeFlow, s2);
        ThreadAppend([SqueezeFlow], ChannelCouplings(8 * c, 64, 4), s2);
        ChannelCouplingsThread(8 * c, 64, 4, s3);
      } else {
        ChannelCouplingsThread(2 * c, 64, 4, s2);
      }
    }
  }

  /** The multiscale factor scales [n, c, size, size] to exactly the shape the
      layers leave, whenever the layers fit the image. */
  lemma MultiscaleSampleShape(size: nat, c: nat, n: int)
    requires Thread(MultiscaleLayers(size, c), Shape(c, size, size)).Some?
    ensures var t := Thread(MultiscaleLayers(size, c), Shape(c, size, size)).value;
      Tools.SampleShape(n, [c, size, size], MultiscaleFactor(size)) == Some([n, t.channels, t.height, t.width])
  {
    MultiscaleThread(size, c);
    if SqueezeTwice(size) {
      var q := size / 4;
      assert size as real == 4.0 * q as real;
      Tools.SampleShapeExact(n, [c, size, size], MultiscaleFactor(size), [n, 8 * c, q, q]);
    } else {
      var q := size / 2;
      assert size as real == 2.0 * q as real;
      Tools.SampleShapeExact(n, [c, size, size], MultiscaleFactor(size), [n, 2 * c, q, q]);
    }
  }

  /** Every channel-masked coupling of the multiscale recipe gets a mask over
      exactly its own c_in channels, and a network that reads them. */
  lemma MultiscaleChannelMasksMatch(size: nat, c: nat)
    ensures var l := MultiscaleLayers(size, c);
      forall k | 0 <= k < |l| && l[k].CouplingLayer? && l[k].coupling.mask.Channel? ::
        && l[k].coupling.mask.c == l[k].coupling.cIn
        && l[k].coupling.network.GatedConvNet?
        && l[k].coupling.network.cIn == l[k].coupling.cIn
  {
  }

  /** Mask descriptors of the same kind and size that differ only in `invert`. */
  predicate Inverted(m1: MaskKind, m2: MaskKind)
  {
    match m1
    case Checkerboard(h, w, inv) => m2 == Checkerboard(h, w, !inv)
    case Channel(ch, inv) => m2 == Channel(ch, !inv)
  }

  /** Flipping `invert` complements the mask tensor. */
  lemma InvertedComplements(m1: MaskKind, m2: MaskKind)
    requires Inverted(m1, m2)
    ensures MaskTensor(m2) == Tools.Complement(MaskTensor(m1))
  {
    match m1
    case Checkerboard(h, w, _) => Tools.CheckerboardInvertComplements(h, w);
    case Channel(ch, _) => Tools.ChannelInvertComplements(ch);
  }

  /** Adjacent couplings of the multiscale recipe use complementary masks. */
  lemma MultiscaleMasksAlternate(size: nat, c: nat, k: nat)
    requires k + 1 < |MultiscaleLayers(size, c)|
    requires MultiscaleLayers(size, c)[k].CouplingLayer? && MultiscaleLayers(size, c)[k + 1].CouplingLayer?
    ensures var l := MultiscaleLayers(size, c);
      MaskTensor(l[k + 1].coupling.mask) == Tools.Complement(MaskTensor(l[k].coupling.mask))
  {
    var l := MultiscaleLayers(size, c);
    MultiscaleStructure(size, c);
    assert Inverted(l[k].coupling.mask, l[k + 1].coupling.mask);
    InvertedComplements(l[k].coupling.mask, l[k + 1].coupling.mask);
  }

  // ---------------------------------------------------------------------------
  // create_flow

  /** The model names create_flow can resolve to a create_<name>_flow builder. */
  datatype ModelName = Simple | Vardeq | Long | Linear | PartialConv | Multiscale

  function ModelNameString(m: ModelName): string
  {
    match m
    case Simple => "simple"
    case Vardeq => "vardeq"
    case Long => "long"
    case Linear => "linear"
    case PartialConv => "partial_conv"
    case Multiscale => "multiscale"
  }

  /** The builder a name selects, if any. */
  function ParseModelName(name: string): (r: Option<ModelName>)
    ensures r.Some? ==> ModelNameString(r.value) == name
    ensures r.None? ==> forall m: ModelName :: ModelNameString(m) != name
  {
    if name == "simple" then Some(Simple)
    else if name == "vardeq" then Some(Vardeq)
    else if name == "long" then Some(Long)
    else if name == "linear" then Some(Linear)
    else if name == "partial_conv" then Some(PartialConv)
    else if name == "multiscale" then Some(Multiscale)
    else None
  }

  /** create_<name>_flow. Every recipe's factor keeps the batch dimension, and
      every recipe but the multiscale one keeps the image shape throughout. */
  function Recipe(m: ModelName, config: Config): (f: Flow)
    ensures |f.sampleShapeFactor| == 4 && f.sampleShapeFactor[0] == 1.0
    ensures m != Multiscale ==> SingleScale(config, f)
  {
    match m
    case Simple => CreateSimpleFlow(config)
    case Vardeq => CreateVardeqFlow(config)
    case Long => CreateLongFlow(config)
    case Linear => CreateLinearFlow(config)
    case PartialConv => CreatePartialConvFlow(config)
    case Multiscale => MultiscaleFlow(config)
  }

  /** create_flow: an unknown model name is an error and builds nothing; a
      known one builds exactly the recipe of that name. */
  function CreateFlow(config: Config): (r: Result<Flow, FlowError>)
    ensures r.Failure? <==> forall m: ModelName :: ModelNameString(m) != config.modelName
    ensures r.Failure? ==> r.error == UnknownModel(config.modelName)
    ensures forall m: ModelName | ModelNameString(m) == config.modelName :: r == Success(Recipe(m, config))
  {
    match ParseModelName(config.modelName)
    case None => Failure(UnknownModel(config.modelName))
    case Some(m) => Success(Recipe(m, config))
  }

  /** Every recipe's sample_shape_factor turns the batched image shape
      [n, c, size, size] into the shape its layers leave: the latents sampled
      have the shape the flow's inverse expects. */
  lemma RecipeSampleShapeMatchesLatent(m: ModelName, config: Config, n: int)
    requires Thread(Recipe(m, config).layers, ImageShape(config)).Some?
    ensures var t := Thread(Recipe(m, config).layers, ImageShape(config)).value;
      Tools.SampleShape(n, [config.c, config.size, config.size], Recipe(m, config).sampleShapeFactor)
        == Some([n, t.channels, t.height, t.width])
  {
    if m == Multiscale {
      MultiscaleSampleShape(config.size, config.c, n);
    }
  }

  // ---------------------------------------------------------------------------
  // get_flow_layers as written, against GatedConvNet's signature

  /** The keyword parameters GatedConvNet.__init__ declares. */
  const GatedConvNetKeywords: set<string> := {"c_in", "c_hidden", "c_out", "num_layers"}

  /** Calling GatedConvNet with the given keywords, as Python binds them: an
      undeclared keyword raises TypeError, checked first; so does leaving out
      c_in, the one parameter without a default. Only then is a network built. */
  function CallGatedConvNet(keywords: set<string>, net: Net): (r: Result<Net, FlowError>)
    ensures r.Success? <==> "c_in" in keywords && keywords <= GatedConvNetKeywords
    ensures r.Success? ==> r.value == net
    ensures !(keywords <= GatedConvNetKeywords) ==>
              r.Failure? && r.error.UnexpectedKeywords? && r.error.keywords != {} && r.error.keywords !! GatedConvNetKeywords
    ensures keywords <= GatedConvNetKeywords && "c_in" !in keywords ==> r == Failure(MissingArgument("GatedConvNet", "c_in"))
  {
    if !(keywords <= GatedConvNetKeywords) then Failure(UnexpectedKeywords("GatedConvNet", keywords - GatedConvNetKeywords))
    else if "c_in" !in keywords then Failure(MissingArgument("GatedConvNet", "c_in"))
    else Success(net)
  }

  /** get_flow_layers as the code reads: the variational-dequantization
      couplings and every convolutional main coupling pass partial_conv to
      GatedConvNet. */
  function GetFlowLayersAsWritten(size: nat, c: nat, vardeq: bool, numLayers: nat, linear: bool, partialConv: bool)
    : (r: Result<seq<Layer>, FlowError>)
    ensures r.Success? ==> r.value == FlowLayers(size, c, vardeq, numLayers, linear, partialConv)
    ensures r.Failure? ==> r.error == UnexpectedKeywords("GatedConvNet", {"partial_conv"})
  {
    assert {"c_in", "c_out", "c_hidden", "partial_conv"} - GatedConvNetKeywords == {"partial_conv"};
    assert {"c_in", "c_hidden", "partial_conv"} - GatedConvNetKeywords == {"partial_conv"};
    var deq := CallGatedConvNet({"c_in", "c_out", "c_hidden", "partial_conv"}, MakeGatedConvNet(2 * c, 16, 2 * c, partialConv));
    var main := CallGatedConvNet({"c_in", "c_hidden", "partial_conv"}, MakeGatedConvNet(c, 32, -1, partialConv));
    if vardeq && deq.Failure? then Failure(deq.error)
    else if !linear && numLayers > 0 && main.Failure? then Failure(main.error)
    else Success(FlowLayers(size, c, vardeq, numLayers, linear, partialConv))
  }

  /** As written, get_flow_layers raises whenever it builds a GatedConvNet, so
      each of the five recipes that call it raises TypeError over partial_conv. */
  lemma GetFlowLayersAsWrittenRaises(size: nat, c: nat, vardeq: bool, numLayers: nat, linear: bool, partialConv: bool)
    ensures GetFlowLayersAsWritten(size, c, vardeq, numLayers, linear, partialConv).Success?
            <==> !vardeq && (linear || numLayers == 0)
    ensures GetFlowLayersAsWritten(size, c, false, 8, false, false) == Failure(UnexpectedKeywords("GatedConvNet", {"partial_conv"}))
    ensures forall n: nat, lin: bool, pc: bool ::
              GetFlowLayersAsWritten(size, c, true, n, lin, pc) == Failure(UnexpectedKeywords("GatedConvNet", {"partial_conv"}))
  {
  }

  /** With the partial_conv flag accepted, every GatedConvNet that
      get_flow_layers builds carries the flag it was given. */
  lemma FlowLayersPartialConv(size: nat, c: nat, vardeq: bool, numLayers: nat, linear: bool, partialConv: bool)
    ensures var r := FlowLayers(size, c, vardeq, numLayers, linear, partialConv);
      && (forall k | 1 <= k < |r| && r[k].coupling.network.GatedConvNet? :: r[k].coupling.network.partialConv == partialConv)
      && (vardeq ==> forall i | 0 <= i < |r[0].varFlows| :: r[0].varFlows[i].network.partialConv == partialConv)
  {
  }
}
