/**
 The channel routing of `InvertedResidual`: the constructor's checks, the
 split of the input into two halves (`chunk`), the concatenation of the
 two paths (`_concat`) and the final two-group channel shuffle. The
 convolution branches `banch1` and `banch2` are framework layers; here they
 are opaque functions on tensors.
 */
module Residual {
  import opened Base
  import opened ChannelShuffle

  /** The configuration an `InvertedResidual` keeps: its channel counts, stride and kind. */
  datatype InvertedResidual = InvertedResidual(inp: int, oup: int, stride: int, benchmodel: int)
  {
    /** `oup_inc = oup // 2`: each path emits half the output channels, rounded down. */
    function OupInc(): (half: int)
      ensures 2 * half <= oup < 2 * half + 2
    {
      oup / 2
    }

    /**
     Only a block that is not of kind 1 builds the downsampling branch `banch1`;
     such a block feeds both branches the whole input.
     */
    predicate HasBanch1(): (b: bool)
      ensures b ==> Banch2Inputs() == inp
      ensures !b ==> Banch2Inputs() == OupInc()
    {
      benchmodel != 1
    }

    /**
     The channel count `banch2` is built for: `oup_inc`, half of `oup` rather
     than of `inp`, in kind 1, and the whole input otherwise.
     */
    function Banch2Inputs(): (c: int)
      ensures benchmodel == 1 ==> 2 * c <= oup < 2 * c + 2
      ensures benchmodel != 1 ==> c == inp
    {
      if benchmodel == 1 then OupInc() else inp
    }

    /**
     Every convolution of the block can be built: the depthwise convolutions
     take `oup_inc` groups, and `inp` groups in `banch1`, and the framework
     refuses a group count that is not positive.
     */
    predicate LayersBuild() {
      OupInc() > 0 && (HasBanch1() ==> inp > 0)
    }
  }

  /**
   `InvertedResidual.__init__`: the stride must be 1 or 2, otherwise the
   assertion fails; then the branch layers are built, which fails when a
   depthwise convolution would get a group count that is not positive.
   */
  function NewInvertedResidual(inp: int, oup: int, stride: int, benchmodel: int): (r: Result<InvertedResidual>)
    ensures stride != 1 && stride != 2 ==> r == Err(StrideAssertion)
    ensures stride == 1 || stride == 2 ==>
      (r.Ok? <==> oup >= 2 && (benchmodel == 1 || inp > 0)) &&
      (r.Err? ==> r.error == LayerConstruction)
    ensures r.Ok? ==> r.value.inp == inp && r.value.oup == oup &&
                      r.value.stride == stride && r.value.benchmodel == benchmodel
  {
    var blk := InvertedResidual(inp, oup, stride, benchmodel);
    if stride != 1 && stride != 2 then Err(StrideAssertion)
    else if !blk.LayersBuild() then Err(LayerConstruction)
    else Ok(blk)
  }

  /**
   `x.chunk(2, dim=1)` unpacked into two names. Chunks have `ceil(C / 2)`
   channels, so the first piece gets the odd channel; a single channel makes
   a single chunk and the unpacking into `x1, x2` fails; zero channels make
   two empty chunks.
   */
  function Chunk2<P>(x: Tensor<P>): (r: Result<(Tensor<P>, Tensor<P>)>)
    ensures r.Err? <==> x.channels == 1
    ensures r.Err? ==> r.error == ChunkUnpack
    ensures r.Ok? ==>
      var (x1, x2) := r.value;
      x1.channels == (x.channels + 1) / 2 && x2.channels == x.channels / 2 &&
      |x1.items| == |x.items| && |x2.items| == |x.items| &&
      x1.height == x2.height == x.height && x1.width == x2.width == x.width &&
      forall b | 0 <= b < |x.items| :: x1.items[b] + x2.items[b] == x.items[b]
  {
    if x.channels == 1 then Err(ChunkUnpack)
    else
      var s := (x.channels + 1) / 2;
      var first := seq(|x.items|, b requires 0 <= b < |x.items| => x.items[b][..s]);
      var second := seq(|x.items|, b requires 0 <= b < |x.items| => x.items[b][s..]);
      Ok((Activation(s, x.height, x.width, first), Activation(x.channels - s, x.height, x.width, second)))
  }

  /**
   `_concat(a, b)`: `torch.cat((a, b), 1)`, which needs equal sizes in every
   dimension but the channels: batch, height and width.
   */
  function Concat<P>(a: Tensor<P>, b: Tensor<P>): (r: Result<Tensor<P>>)
    ensures r.Ok? <==> |a.items| == |b.items| && a.height == b.height && a.width == b.width
    ensures r.Err? ==> r.error == ConcatMismatch
    ensures r.Ok? ==>
      r.value.channels == a.channels + b.channels && |r.value.items| == |a.items| &&
      r.value.height == a.height && r.value.width == a.width &&
      forall i | 0 <= i < |a.items| ::
        r.value.items[i][..a.channels] == a.items[i] && r.value.items[i][a.channels..] == b.items[i]
  {
    if |a.items| != |b.items| || a.height != b.height || a.width != b.width then Err(ConcatMismatch)
    else
      Ok(Activation(a.channels + b.channels, a.height, a.width,
        seq(|a.items|, i requires 0 <= i < |a.items| => a.items[i] + b.items[i])))
  }

  /** Concatenating the two chunks gives back the input. */
  lemma ChunkConcat<P>(x: Tensor<P>)
    requires x.channels != 1
    ensures Chunk2(x).Ok? && Concat(Chunk2(x).value.0, Chunk2(x).value.1) == Ok(x)
  {
    var (x1, x2) := Chunk2(x).value;
    var r := Concat(x1, x2);
    assert r.Ok?;
    assert r.value.items == x.items;
  }

  /**
   `channel_shuffle(_concat(a, b), 2)`, the tail both kinds of block share.
   It fails in the concatenation on a size mismatch outside the channels,
   and in the shuffle on an odd channel total. Two halves of equal width are
   interleaved: channel `k` of `a` lands on `2k` and channel `k` of `b` on
   `2k + 1`.
   */
  function ConcatShuffle<P>(a: Tensor<P>, b: Tensor<P>): (r: Result<Tensor<P>>)
    ensures var fits := |a.items| == |b.items| && a.height == b.height && a.width == b.width;
      (r.Ok? <==> fits && (a.channels + b.channels) % 2 == 0) &&
      (r.Err? ==> r.error == if fits then ViewShapeMismatch else ConcatMismatch)
    ensures r.Ok? ==>
      r.value.channels == a.channels + b.channels && |r.value.items| == |a.items| &&
      r.value.height == a.height && r.value.width == a.width
    ensures r.Ok? && a.channels == b.channels ==>
      forall i, k | 0 <= i < |a.items| && 0 <= k < a.channels ::
        r.value.items[i][2 * k] == a.items[i][k] && r.value.items[i][2 * k + 1] == b.items[i][k]
  {
    match Concat(a, b)
    case Err(e) => Err(e)
    case Ok(out) =>
      if a.channels == b.channels then
        ShuffledConcat(a, b);
        ChannelShuffleTensor(out, 2)
      else
        ChannelShuffleTensor(out, 2)
  }

  /**
   `InvertedResidual.forward`. Kind 1 keeps the first half of the channels
   and feeds the second half to `banch2`; kind 2 feeds the whole input to
   both branches; any other kind leaves `out` unbound. The result is always
   shuffled with two groups.
   */
  function Forward<P>(blk: InvertedResidual, x: Tensor<P>,
                      banch1: Tensor<P> -> Tensor<P>, banch2: Tensor<P> -> Tensor<P>): (r: Result<Tensor<P>>)
    ensures blk.benchmodel != 1 && blk.benchmodel != 2 ==> r == Err(UnboundOut)
    ensures blk.benchmodel == 1 && x.channels == 1 ==> r == Err(ChunkUnpack)
    ensures r.Ok? ==> r.value.channels % 2 == 0
  {
    if blk.benchmodel == 1 then
      match Chunk2(x)
      case Err(e) => Err(e)
      case Ok((x1, x2)) => ConcatShuffle(x1, banch2(x2))
    else if blk.benchmodel == 2 then
      ConcatShuffle(banch1(x), banch2(x))
    else
      Err(UnboundOut)
  }

  /**
   The spatial size after a 3 x 3 convolution with padding 1 and one of the
   two strides a block accepts, by the framework's output-size rule
   `(n + 2 * padding - kernel) / stride + 1`; the 1 x 1 convolutions of a
   branch keep the size. Stride 1 keeps it, and stride 2 shrinks every size
   of at least 2.
   */
  function ConvOut(n: nat, stride: int): (m: nat)
    requires stride == 1 || stride == 2
    ensures stride == 1 ==> m == n
    ensures stride == 2 && n >= 2 ==> m < n
  {
    if stride == 1 then (n + 2 * 1 - 3) / 1 + 1 else (n + 2 * 1 - 3) / 2 + 1
  }

  /**
   `y` has the shape a branch produces from `t`: the batch size kept, `c`
   channels, and the spatial size set by the branch's one strided convolution.
   */
  predicate BranchShape<P>(t: Tensor<P>, y: Tensor<P>, c: int, stride: int)
    requires stride == 1 || stride == 2
  {
    |y.items| == |t.items| && y.channels == c &&
    y.height == ConvOut(t.height, stride) && y.width == ConvOut(t.width, stride)
  }

  /** The only thing known of a branch: every output has the branch's shape. */
  ghost predicate Emits<P(!new)>(banch: Tensor<P> -> Tensor<P>, c: int, stride: int) {
    (stride == 1 || stride == 2) &&
    forall t: Tensor<P> :: BranchShape(t, banch(t), c, stride)
  }

  /**
   Concatenating two tensors of `h` channels each and shuffling with two
   groups interleaves them: channel `k` of `a` lands on `2k` and channel `k`
   of `b` on `2k + 1`.
   */
  lemma ShuffledConcat<P>(a: Tensor<P>, b: Tensor<P>)
    requires Concat(a, b).Ok? && a.channels == b.channels
    ensures var r := ChannelShuffleTensor(Concat(a, b).value, 2);
      r.Ok? && r.value.channels == 2 * a.channels && |r.value.items| == |a.items| &&
      r.value.height == a.height && r.value.width == a.width &&
      forall i, k | 0 <= i < |a.items| && 0 <= k < a.channels ::
        r.value.items[i][2 * k] == a.items[i][k] && r.value.items[i][2 * k + 1] == b.items[i][k]
  {
    var h := a.channels;
    var out := Concat(a, b).value;
    assert out.channels == 2 * h && out.channels % 2 == 0;
    var r := ChannelShuffleTensor(out, 2).value;
    assert out.channels / 2 == h;
    forall i, k | 0 <= i < |a.items| && 0 <= k < h
      ensures r.items[i][2 * k] == a.items[i][k] && r.items[i][2 * k + 1] == b.items[i][k]
    {
      DivModOf(2 * k, 2, k, 0);
      DivModOf(2 * k + 1, 2, k, 1);
      assert ShuffleSource(2 * k, 2, h) == k;
      assert ShuffleSource(2 * k + 1, 2, h) == h + k;
      assert out.items[i][..h] == a.items[i];
      assert out.items[i][h..] == b.items[i];
    }
  }

  /**
   Kind 1 with `2 * oup_inc` input channels. The untouched half `x1` is
   concatenated with the output of `banch2` as it is, so the block succeeds
   exactly when `banch2`'s stride keeps height and width, which stride 1
   always does; stride 2 fails on any input wider or taller than 1. On
   success, `x1` lands on the even output channels and `banch2`'s output on
   the odd ones, and the block emits as many channels as it received at the
   same spatial size.
   */
  lemma SplitRouting<P(!new)>(blk: InvertedResidual, x: Tensor<P>,
                        banch1: Tensor<P> -> Tensor<P>, banch2: Tensor<P> -> Tensor<P>)
    requires blk.benchmodel == 1 && (blk.stride == 1 || blk.stride == 2) && x.channels == 2 * blk.OupInc()
    requires var x2 := Chunk2(x).value.1; BranchShape(x2, banch2(x2), blk.OupInc(), blk.stride)
    ensures Chunk2(x).Ok?
    ensures var r := Forward(blk, x, banch1, banch2);
      (r.Ok? <==> ConvOut(x.height, blk.stride) == x.height && ConvOut(x.width, blk.stride) == x.width) &&
      (r.Err? ==> r.error == ConcatMismatch)
    ensures var r := Forward(blk, x, banch1, banch2);
      var y := banch2(Chunk2(x).value.1);
      r.Ok? ==>
        r.value.channels == x.channels && |r.value.items| == |x.items| &&
        r.value.height == x.height && r.value.width == x.width &&
        forall b, k | 0 <= b < |x.items| && 0 <= k < blk.OupInc() ::
          r.value.items[b][2 * k] == x.items[b][k] && r.value.items[b][2 * k + 1] == y.items[b][k]
  {
    var h := blk.OupInc();
    var (x1, x2) := Chunk2(x).value;
    assert x1.channels == h;
    var y := banch2(x2);
    assert Forward(blk, x, banch1, banch2) == ConcatShuffle(x1, y);
    if ConcatShuffle(x1, y).Ok? {
      forall b | 0 <= b < |x.items|
        ensures x1.items[b] == x.items[b][..h]
      {
        assert x1.items[b] + x2.items[b] == x.items[b];
      }
    }
  }

  /**
   A kind-1 block built with stride 2, such as `InvertedResidual(4, 4, 2, 1)`,
   fails in `torch.cat` on every input taller or wider than 1: `banch2` halves
   the spatial size of `x2` while `x1` keeps it.
   */
  lemma SplitStrideTwoFails<P(!new)>(blk: InvertedResidual, x: Tensor<P>,
                                     banch1: Tensor<P> -> Tensor<P>, banch2: Tensor<P> -> Tensor<P>)
    requires blk.benchmodel == 1 && blk.stride == 2 && x.channels == 2 * blk.OupInc()
    requires var x2 := Chunk2(x).value.1; BranchShape(x2, banch2(x2), blk.OupInc(), blk.stride)
    requires x.height >= 2 || x.width >= 2
    ensures Forward(blk, x, banch1, banch2) == Err(ConcatMismatch)
  {
    SplitRouting(blk, x, banch1, banch2);
  }

  /**
   Kind 2 (downsampling): both branches see the whole input and shrink it
   alike, so the block always succeeds; the output of `banch1` lands on the
   even output channels and that of `banch2` on the odd ones.
   */
  lemma DownsampleRouting<P(!new)>(blk: InvertedResidual, x: Tensor<P>,
                             banch1: Tensor<P> -> Tensor<P>, banch2: Tensor<P> -> Tensor<P>)
    requires blk.benchmodel == 2 && (blk.stride == 1 || blk.stride == 2)
    requires BranchShape(x, banch1(x), blk.OupInc(), blk.stride)
    requires BranchShape(x, banch2(x), blk.OupInc(), blk.stride)
    ensures var r := Forward(blk, x, banch1, banch2);
      r.Ok? && r.value.channels == 2 * blk.OupInc() && |r.value.items| == |x.items| &&
      r.value.height == ConvOut(x.height, blk.stride) && r.value.width == ConvOut(x.width, blk.stride) &&
      forall b, k | 0 <= b < |x.items| && 0 <= k < blk.OupInc() ::
        r.value.items[b][2 * k] == banch1(x).items[b][k] &&
        r.value.items[b][2 * k + 1] == banch2(x).items[b][k]
  {
    var y1, y2 := banch1(x), banch2(x);
    assert Forward(blk, x, banch1, banch2) == ConcatShuffle(y1, y2);
  }
}
