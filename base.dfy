/**
 Shared vocabulary of the ShuffleNet V2 model: the errors the Python code raises,
 a Result type for operations that may raise, and the activation tensors that
 flow between layers.
 */
module Base {

  /** The exceptions the modelled code can raise, one constructor per cause. */
  datatype Error =
    | ZeroDivision                    // `num_channels // groups` with groups == 0
    | ViewShapeMismatch               // `x.view(...)` to a shape the channel count does not fill
    | ChunkUnpack                     // `x1, x2 = x.chunk(2, 1)` when chunk yields a single piece
    | ConcatMismatch                  // `torch.cat` of tensors whose batch size, height or width differ
    | UnboundOut                      // `forward` of a block whose benchmodel is neither 1 nor 2
    | StrideAssertion                 // `assert stride in [1, 2]`
    | InputSizeAssertion              // `assert input_size % 32 == 0`
    | UnsupportedWidth(widthMult: real) // the ValueError for an unknown width multiplier
    | LayerConstruction               // a framework layer refusing its sizes: a convolution with
                                      // `groups <= 0`, or a weight with a negative dimension

  datatype Result<+R> = Ok(value: R) | Err(error: Error)

  datatype Option<+T> = None | Some(value: T)

  /**
   An N x C x H x W activation, seen along the channel axis: `items` holds the
   N batch items, each a sequence of C channels, and a channel is one H x W
   plane of type P. The planes are opaque; `height` and `width` record the
   spatial size the framework reports for them. Reshapes along the channel
   axis move planes whole and keep both.
   */
  datatype Activation<P> = Activation(channels: nat, height: nat, width: nat, items: seq<seq<P>>)

  /** A well-shaped activation: every batch item has exactly `channels` channels. */
  type Tensor<P> = t: Activation<P> | forall b | 0 <= b < |t.items| :: |t.items[b]| == t.channels
    witness Activation(0, 0, 0, [])
}
