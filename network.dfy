/**
 `ShuffleNetV2.__init__`: validation of the input size and width multiplier,
 the stage-width table, and the loop that threads `input_channel` through
 the 4 + 8 + 4 inverted-residual blocks; plus the width each factory passes.
 Layers built by the framework are recorded by their channel counts only.
 */
module Network {
  import opened Base
  import opened Residual

  /** `self.stage_repeats`: the number of blocks in each of the three stages. */
  const StageRepeats: seq<nat> := [4, 8, 4]

  /** The four width multipliers the constructor accepts. */
  predicate SupportedWidth(widthMult: real) {
    widthMult == 0.5 || widthMult == 1.0 || widthMult == 1.5 || widthMult == 2.0
  }

  /**
   `self.stage_out_channels` for a width multiplier. Entry 0 is a placeholder
   that is never read; entry 1 is the stem, entries 2..4 the three stages and
   entry 5 the last 1x1 convolution.
   */
  function StageOutChannels(widthMult: real): (r: Result<seq<int>>)
    ensures r.Ok? <==> SupportedWidth(widthMult)
    ensures r.Err? ==> r.error == UnsupportedWidth(widthMult)
    ensures r.Ok? ==> |r.value| == 6 && r.value[0] == -1 && r.value[1] == 24
  {
    if widthMult == 0.5 then Ok([-1, 24, 48, 96, 192, 1024])
    else if widthMult == 1.0 then Ok([-1, 24, 116, 232, 464, 1024])
    else if widthMult == 1.5 then Ok([-1, 24, 176, 352, 704, 1024])
    else if widthMult == 2.0 then Ok([-1, 24, 224, 488, 976, 2048])
    else Err(UnsupportedWidth(widthMult))
  }

  /** Every used entry of a supported table is even, and widths grow from the stem to the last layer. */
  lemma StageTableShape(widthMult: real)
    requires SupportedWidth(widthMult)
    ensures var t := StageOutChannels(widthMult).value;
      (forall i | 1 <= i < 6 :: t[i] > 0 && t[i] % 2 == 0) &&
      (forall i | 1 <= i < 5 :: t[i] < t[i + 1])
  {
  }

  // ---------------------------------------------------------------------------
  // The block layout, as an independent reference

  /** Index of the first block of stage `s`; `StageStart(3)` is the number of blocks. */
  function StageStart(s: nat): nat
    requires s <= |StageRepeats|
  {
    if s == 0 then 0 else StageStart(s - 1) + StageRepeats[s - 1]
  }

  /** The stage block `j` belongs to. */
  function StageOf(j: nat): (s: nat)
    requires j < StageStart(3)
    ensures s < 3 && StageStart(s) <= j < StageStart(s + 1)
  {
    if j < StageStart(1) then 0 else if j < StageStart(2) then 1 else 2
  }

  /**
   The block at position `j`: the first block of a stage downsamples
   (stride 2, kind 2), the others keep the resolution (stride 1, kind 1);
   a block emits its stage's width and takes the width of the block before
   it, or the stem's width for the very first block.
   */
  function ExpectedBlock(t: seq<int>, j: nat): InvertedResidual
    requires |t| == 6 && j < StageStart(3)
  {
    var s := StageOf(j);
    var kind := if j == StageStart(s) then 2 else 1;
    var inp := if j == 0 then t[1] else t[StageOf(j - 1) + 2];
    InvertedResidual(inp, t[s + 2], kind, kind)
  }

  function ExpectedFeatures(t: seq<int>): (fs: seq<InvertedResidual>)
    requires |t| == 6
    ensures |fs| == StageStart(3)
  {
    seq(StageStart(3), j requires 0 <= j < StageStart(3) => ExpectedBlock(t, j))
  }

  /** Block `i` of stage `s`, in the terms the construction loop uses. */
  lemma ExpectedBlockInStage(t: seq<int>, s: nat, i: nat)
    requires |t| == 6 && s < 3 && i < StageRepeats[s]
    ensures StageStart(s) + i < StageStart(3)
    ensures ExpectedBlock(t, StageStart(s) + i) ==
      var kind := if i == 0 then 2 else 1;
      InvertedResidual(if i > 0 then t[s + 2] else if s == 0 then t[1] else t[s + 1], t[s + 2], kind, kind)
  {
  }

  /**
   The layout the construction promises: 4 + 8 + 4 = 16 blocks; the first
   takes the stem's 24 channels and every other takes what the block before
   it emits; blocks 0, 4 and 12 open a stage with stride 2 and kind 2, all
   others have stride 1 and kind 1; stage widths are entries 2, 3 and 4.
   */
  lemma FeaturesLayout(t: seq<int>)
    requires |t| == 6
    ensures var fs := ExpectedFeatures(t);
      |fs| == StageRepeats[0] + StageRepeats[1] + StageRepeats[2] == 16 &&
      fs[0].inp == t[1] &&
      (forall j | 1 <= j < 16 :: fs[j].inp == fs[j - 1].oup) &&
      (forall j | 0 <= j < 16 ::
        (fs[j].stride == 2 && fs[j].benchmodel == 2 <==> j == 0 || j == 4 || j == 12) &&
        (fs[j].stride == 1 && fs[j].benchmodel == 1 <==> j != 0 && j != 4 && j != 12)) &&
      (forall j | 0 <= j < 16 ::
        fs[j].oup == if j < 4 then t[2] else if j < 12 then t[3] else t[4])
  {
    var fs := ExpectedFeatures(t);
    forall j | 1 <= j < 16
      ensures fs[j].inp == fs[j - 1].oup
    {
      assert StageOf(j - 1) == StageOf(j) || j == StageStart(StageOf(j));
    }
  }

  /**
   With a supported width, every block emits exactly `oup` channels
   (`2 * oup_inc == oup`), every kind-1 block keeps its width (`inp == oup`),
   and the last block emits the channels `conv_last` takes.
   */
  lemma FeaturesKeepWidth(widthMult: real)
    requires SupportedWidth(widthMult)
    ensures var t := StageOutChannels(widthMult).value;
      var fs := ExpectedFeatures(t);
      (forall j | 0 <= j < |fs| :: 2 * fs[j].OupInc() == fs[j].oup > 0) &&
      (forall j | 0 <= j < |fs| :: fs[j].benchmodel == 1 ==> fs[j].inp == fs[j].oup) &&
      fs[|fs| - 1].oup == t[4]
  {
    var t := StageOutChannels(widthMult).value;
    StageTableShape(widthMult);
    FeaturesLayout(t);
  }

  /**
   In a kind-1 block of the network, the second chunk of an `inp`-channel
   input has exactly the `oup_inc` channels `banch2` is built for, and
   `inp` is twice `oup_inc`, so it never equals `oup_inc`.
   */
  lemma SplitMatchesBanch2(widthMult: real, j: nat)
    requires SupportedWidth(widthMult)
    requires var t := StageOutChannels(widthMult).value;
      j < |ExpectedFeatures(t)| && ExpectedFeatures(t)[j].benchmodel == 1
    ensures var blk := ExpectedFeatures(StageOutChannels(widthMult).value)[j];
      !blk.HasBanch1() &&
      blk.inp - (blk.inp + 1) / 2 == blk.Banch2Inputs() &&
      blk.inp == 2 * blk.OupInc() && blk.inp != blk.OupInc()
  {
    FeaturesKeepWidth(widthMult);
  }

  /**
   Every block of a network built with a supported width, given an input with
   `inp` channels and branches that emit `oup_inc` channels each at the
   block's stride, succeeds and emits `oup` channels: the channel counts chain
   through all 16 blocks. Only the three stage-opening blocks change the
   spatial size; all others keep it, so their concatenation never fails.
   */
  lemma BlockEmitsOup<P(!new)>(widthMult: real, j: nat, x: Tensor<P>,
                               banch1: Tensor<P> -> Tensor<P>, banch2: Tensor<P> -> Tensor<P>)
    requires SupportedWidth(widthMult)
    requires var fs := ExpectedFeatures(StageOutChannels(widthMult).value);
      j < |fs| && x.channels == fs[j].inp &&
      Emits(banch2, fs[j].OupInc(), fs[j].stride) &&
      (fs[j].benchmodel == 2 ==> Emits(banch1, fs[j].OupInc(), fs[j].stride))
    ensures var blk := ExpectedFeatures(StageOutChannels(widthMult).value)[j];
      var r := Forward(blk, x, banch1, banch2);
      r.Ok? && r.value.channels == blk.oup && |r.value.items| == |x.items| &&
      r.value.height == ConvOut(x.height, blk.stride) && r.value.width == ConvOut(x.width, blk.stride)
  {
    var t := StageOutChannels(widthMult).value;
    var blk := ExpectedFeatures(t)[j];
    FeaturesKeepWidth(widthMult);
    FeaturesLayout(t);
    if blk.benchmodel == 1 {
      assert BranchShape(Chunk2(x).value.1, banch2(Chunk2(x).value.1), blk.OupInc(), blk.stride);
      SplitRouting(blk, x, banch1, banch2);
    } else {
      DownsampleRouting(blk, x, banch1, banch2);
    }
  }

  // ---------------------------------------------------------------------------
  // The network

  /** A framework layer, recorded by the channel counts it is built with. */
  datatype Layer = Layer(inChannels: int, outChannels: int)

  /** The configuration `ShuffleNetV2.__init__` leaves in the module's fields. */
  datatype ShuffleNetV2 = ShuffleNetV2(
    stageRepeats: seq<nat>,
    stageOutChannels: seq<int>,
    conv1: Layer,
    features: seq<InvertedResidual>,
    convLast: Layer,
    globalPoolKernel: int,
    classifier: Layer)

  /**
   The stage loop of `ShuffleNetV2.__init__`: the blocks are appended one by
   one while `input_channel` follows the width of the last block appended.
   With every width of the table at least 2, every block can be built, and
   the loop leaves `input_channel` at the last stage's width.
   */
  method BuildFeatures(t: seq<int>) returns (features: seq<InvertedResidual>, inputChannel: int)
    requires |t| == 6 && forall i | 1 <= i < 6 :: t[i] >= 2
    ensures features == ExpectedFeatures(t)
    ensures inputChannel == t[4]
  {
    var stageRepeats := StageRepeats;
    inputChannel := t[1];
    features := [];
    for idxstage := 0 to |stageRepeats|
      invariant |features| == StageStart(idxstage)
      invariant features == ExpectedFeatures(t)[..|features|]
      invariant inputChannel == if idxstage == 0 then t[1] else t[idxstage + 1]
    {
      var numrepeat := stageRepeats[idxstage];
      var outputChannel := t[idxstage + 2];
      for i := 0 to numrepeat
        invariant |features| == StageStart(idxstage) + i
        invariant features == ExpectedFeatures(t)[..|features|]
        invariant inputChannel == if i > 0 then outputChannel else if idxstage == 0 then t[1] else t[idxstage + 1]
      {
        var block;
        if i == 0 {
          block := NewInvertedResidual(inputChannel, outputChannel, 2, 2);
        } else {
          block := NewInvertedResidual(inputChannel, outputChannel, 1, 1);
        }
        ExpectedBlockInStage(t, idxstage, i);
        features := features + [block.value];
        inputChannel := outputChannel;
      }
    }
  }

  /**
   `ShuffleNetV2(n_class, input_size, width_mult)`. The input size is checked
   first, then the width; then the layers are built in order. Every block of
   a supported table can be built; the classifier, built last, cannot have a
   negative number of classes.
   */
  method Build(nClass: int, inputSize: int, widthMult: real) returns (r: Result<ShuffleNetV2>)
    ensures inputSize % 32 != 0 ==> r == Err(InputSizeAssertion)
    ensures inputSize % 32 == 0 && !SupportedWidth(widthMult) ==> r == Err(UnsupportedWidth(widthMult))
    ensures inputSize % 32 == 0 && SupportedWidth(widthMult) ==>
      (r.Ok? <==> nClass >= 0) && (r.Err? ==> r.error == LayerConstruction)
    ensures r.Ok? ==>
      var net := r.value;
      var t := StageOutChannels(widthMult).value;
      net.stageRepeats == StageRepeats && net.stageOutChannels == t &&
      net.conv1 == Layer(3, t[1]) &&
      net.features == ExpectedFeatures(t) &&
      net.convLast == Layer(t[4], t[5]) &&
      net.globalPoolKernel * 32 == inputSize &&
      net.classifier == Layer(t[5], nClass)
  {
    if inputSize % 32 != 0 {
      return Err(InputSizeAssertion);
    }
    var table := StageOutChannels(widthMult);
    if table.Err? {
      return Err(table.error);
    }
    var t := table.value;
    StageTableShape(widthMult);

    var conv1 := Layer(3, t[1]);
    var features, inputChannel := BuildFeatures(t);

    // `stage_out_channels[-1]` is the last entry of the table
    var lastChannels := t[|t| - 1];
    var convLast := Layer(inputChannel, lastChannels);
    // `int(input_size / 32)`: exact, since input_size is a multiple of 32
    var globalPoolKernel := inputSize / 32;
    // `nn.Linear(..., n_class)` allocates a weight with `n_class` rows
    if nClass < 0 {
      return Err(LayerConstruction);
    }
    var classifier := Layer(lastChannels, nClass);
    r := Ok(ShuffleNetV2(StageRepeats, t, conv1, features, convLast, globalPoolKernel, classifier));
  }

  // ---------------------------------------------------------------------------
  // The factories

  /** `shufflenetv2_x0_5`, `shufflenetv2_x1_0`, `shufflenetv2_x1_5`, `shufflenetv2_x2_0`. */
  datatype Variant = X0_5 | X1_0 | X1_5 | X2_0

  /** The width multiplier each factory passes to the constructor. */
  function WidthMult(v: Variant): (w: real)
    ensures SupportedWidth(w)
  {
    match v
    case X0_5 => 0.5
    case X1_0 => 1.0
    case X1_5 => 1.5
    case X2_0 => 2.0
  }

  /**
   The key of `model_urls` whose checkpoint a factory loads. Only the 0.5 and
   1.0 factories load weights, and only when `pretrained` is set.
   */
  function PretrainedKey(v: Variant, pretrained: bool): (key: Option<string>)
    ensures key.Some? <==> pretrained && (v == X0_5 || v == X1_0)
  {
    if !pretrained then None
    else match v
      case X0_5 => Some("shufflenetv2_x0.5")
      case X1_0 => Some("shufflenetv2_x1.0")
      case _ => None
  }

  /**
   A factory called with `pretrained=False`: the network of its width. Its
   width is always supported, so it fails only on an input size that is not
   a multiple of 32 or on a negative number of classes.
   */
  method Factory(v: Variant, nClass: int, inputSize: int) returns (r: Result<ShuffleNetV2>)
    ensures inputSize % 32 != 0 ==> r == Err(InputSizeAssertion)
    ensures inputSize % 32 == 0 ==> (r.Ok? <==> nClass >= 0) && (r.Err? ==> r.error == LayerConstruction)
    ensures r.Ok? ==> r.value.stageOutChannels == StageOutChannels(WidthMult(v)).value &&
                      r.value.features == ExpectedFeatures(r.value.stageOutChannels)
  {
    r := Build(nClass, inputSize, WidthMult(v));
  }
}
