/**
 * The input-channel adapter for a first-layer convolution: given a
 * convolution and a new input-channel count, build a new same-padding
 * convolution whose weight is derived from the old one along the channel
 * axis, by cyclic tiling (more channels) or by taking a prefix (fewer).
 *
 * A weight is modelled as a sequence of output filters, each a sequence of
 * per-input-channel kernel slices of an opaque element type T. Slices are
 * only copied, never combined, so no arithmetic on weight values occurs.
 */
module ChannelAdapter {

  datatype Option<T> = None | Some(value: T)

  function GetOr<T>(o: Option<T>, default: T): T
  {
    match o
    case Some(v) => v
    case None => default
  }

  /** A (height, width) pair: kernel size, stride, padding or dilation. */
  datatype Pair = Pair(h: int, w: int)

  /** The class of a convolution module: a plain Conv2d or timm's Conv2dSame. */
  datatype ConvKind = Conv2d | Conv2dSame

  /** A 2D convolution: its hyperparameters and weight [out][in / groups][kernel slice]. */
  datatype ConvSpec<T> = ConvSpec(
    kind: ConvKind,
    inChannels: nat,
    outChannels: nat,
    kernelSize: Pair,
    stride: Pair,
    padding: Pair,
    dilation: Pair,
    groups: nat,
    hasBias: bool,
    weight: seq<seq<T>>)

  /** Keyword overrides for the new convolution; None keeps the original's value. */
  datatype Overrides = Overrides(
    kernelSize: Option<Pair>,
    stride: Option<Pair>,
    padding: Option<Pair>,
    dilation: Option<Pair>,
    groups: Option<nat>,
    hasBias: Option<bool>)

  const NoOverrides: Overrides := Overrides(None, None, None, None, None, None)

  /** The result of the adapter together with whether it warned that the call was spurious. */
  datatype Adapted<T> = Adapted(conv: ConvSpec<T>, warned: bool)

  /** Every filter of w has exactly c channel slices. */
  ghost predicate HasChannels<T>(w: seq<seq<T>>, c: nat)
  {
    forall o :: 0 <= o < |w| ==> |w[o]| == c
  }

  /**
   * A stem-style convolution: ungrouped, at least one input channel, and a
   * weight of shape [outChannels][inChannels].
   */
  ghost predicate WellFormed<T>(conv: ConvSpec<T>)
  {
    && conv.inChannels >= 1
    && conv.groups == 1
    && |conv.weight| == conv.outChannels
    && HasChannels(conv.weight, conv.inChannels)
  }

  /** The number of copies to tile: the integer ceiling of a / b. */
  function CeilDiv(a: nat, b: nat): (n: nat)
    requires b >= 1
    ensures n * b >= a
    ensures (n - 1) * b < a || a == 0
    ensures a == 0 ==> n == 0
  {
    var q := (a + b - 1) / b;
    var r := (a + b - 1) % b;
    assert a + b - 1 == q * b + r && 0 <= r < b;
    assert (q - 1) * b == q * b - b;
    q
  }

  /** Concatenation of two weights along the channel axis (torch.cat(dim=1)). */
  function CatChannels<T>(a: seq<seq<T>>, b: seq<seq<T>>): (r: seq<seq<T>>)
    requires |a| == |b|
    ensures |r| == |a|
    ensures forall o :: 0 <= o < |r| ==> r[o] == a[o] + b[o]
  {
    seq(|a|, o requires 0 <= o < |a| => a[o] + b[o])
  }

  /** torch.cat([w] * n, dim=1): w repeated n times along the channel axis. */
  function TileChannels<T>(w: seq<seq<T>>, n: nat): (r: seq<seq<T>>)
    ensures |r| == |w|
    ensures forall o :: 0 <= o < |r| ==> |r[o]| == n * |w[o]|
  {
    if n == 0 then seq(|w|, o => [])
    else
      var rest := TileChannels(w, n - 1);
      assert forall o :: 0 <= o < |w| ==> |w[o]| + (n - 1) * |w[o]| == n * |w[o]|;
      CatChannels(w, rest)
  }

  /** w[:, lo:hi]: channels lo up to hi of every filter. */
  function SliceChannels<T>(w: seq<seq<T>>, lo: nat, hi: nat): (r: seq<seq<T>>)
    requires lo <= hi
    requires forall o :: 0 <= o < |w| ==> hi <= |w[o]|
    ensures |r| == |w|
    ensures forall o :: 0 <= o < |r| ==> r[o] == w[o][lo..hi]
  {
    seq(|w|, o requires 0 <= o < |w| => w[o][lo..hi])
  }

  /** Channel i of the tiled weight is channel i mod C of the original. */
  lemma {:induction false} TileChannelsAt<T>(w: seq<seq<T>>, c: nat, n: nat, o: nat, i: nat)
    requires c >= 1 && HasChannels(w, c)
    requires o < |w| && i < n * c
    ensures |TileChannels(w, n)[o]| == n * c
    ensures TileChannels(w, n)[o][i] == w[o][i % c]
  {
    assert n != 0;
    var rest := TileChannels(w, n - 1);
    assert TileChannels(w, n)[o] == w[o] + rest[o];
    assert n * c == c + (n - 1) * c;
    if i < c {
      assert i % c == i;
    } else {
      TileChannelsAt(w, c, n - 1, o, i - c);
      ModShift(i, c);
    }
  }

  lemma MulAtLeast(a: int, c: int)
    requires a >= 1 && c >= 1
    ensures a * c >= c
  {
  }

  /** The remainder is determined by any quotient-remainder decomposition. */
  lemma ModUnique(i: int, c: int, q: int, r: int)
    requires c >= 1 && i == q * c + r && 0 <= r < c
    ensures i % c == r
  {
    var q', r' := i / c, i % c;
    assert i == q' * c + r' && 0 <= r' < c;
    assert (q - q') * c == r' - r by {
      assert q * c - q' * c == (q - q') * c;
    }
    if q > q' {
      MulAtLeast(q - q', c);
    } else if q < q' {
      MulAtLeast(q' - q, c);
    }
  }

  lemma ModShift(i: nat, c: nat)
    requires 1 <= c <= i
    ensures (i - c) % c == i % c
  {
    var q, r := (i - c) / c, (i - c) % c;
    assert i - c == q * c + r;
    assert (q + 1) * c == q * c + c;
    ModUnique(i, c, q + 1, r);
  }

  /** The grow branch: tile ceil(in / C) times, then keep the first `in` channels. */
  function GrowWeight<T>(w: seq<seq<T>>, c: nat, inChannels: nat): (r: seq<seq<T>>)
    requires c >= 1 && HasChannels(w, c)
    requires inChannels > c
    ensures |r| == |w| && HasChannels(r, inChannels)
    ensures forall o, i :: 0 <= o < |r| && 0 <= i < inChannels ==> r[o][i] == w[o][i % c]
  {
    var n := CeilDiv(inChannels, c);
    var tiled := TileChannels(w, n);
    assert forall o :: 0 <= o < |w| ==> |tiled[o]| == n * c;
    var r := SliceChannels(tiled, 0, inChannels);
    forall o, i | 0 <= o < |r| && 0 <= i < inChannels
      ensures r[o][i] == w[o][i % c]
    {
      TileChannelsAt(w, c, n, o, i);
    }
    r
  }

  /** The shrink branch: keep the first `in` channels, with no averaging. */
  function ShrinkWeight<T>(w: seq<seq<T>>, c: nat, inChannels: nat): (r: seq<seq<T>>)
    requires HasChannels(w, c)
    requires inChannels <= c
    ensures |r| == |w| && HasChannels(r, inChannels)
    ensures forall o :: 0 <= o < |r| ==> r[o] == w[o][..inChannels]
  {
    SliceChannels(w, 0, inChannels)
  }

  /** The hyperparameters of the new convolution: the originals unless overridden. */
  function NewConv<T>(conv: ConvSpec<T>, inChannels: nat, ov: Overrides, w: seq<seq<T>>): (r: ConvSpec<T>)
    // Always a same-padding convolution with the new inputs, the original outputs and weight w.
    ensures r.kind == Conv2dSame && r.inChannels == inChannels && r.outChannels == conv.outChannels && r.weight == w
    // Without overrides, every other hyperparameter is copied from the original.
    ensures ov == NoOverrides ==> r == conv.(kind := Conv2dSame, inChannels := inChannels, weight := w)
    // A given override wins over the original's value.
    ensures ov.kernelSize.Some? ==> r.kernelSize == ov.kernelSize.value
    ensures ov.stride.Some? ==> r.stride == ov.stride.value
    ensures ov.padding.Some? ==> r.padding == ov.padding.value
    ensures ov.dilation.Some? ==> r.dilation == ov.dilation.value
    ensures ov.groups.Some? ==> r.groups == ov.groups.value
    ensures ov.hasBias.Some? ==> r.hasBias == ov.hasBias.value
  {
    ConvSpec(
      Conv2dSame,
      inChannels,
      conv.outChannels,
      GetOr(ov.kernelSize, conv.kernelSize),
      GetOr(ov.stride, conv.stride),
      GetOr(ov.padding, conv.padding),
      GetOr(ov.dilation, conv.dilation),
      GetOr(ov.groups, conv.groups),
      GetOr(ov.hasBias, conv.hasBias),
      w)
  }

  /**
   * make_n_channel_input_conv2d_same: adapt a convolution to a new number of
   * input channels.
   */
  function AdaptInputChannels<T>(conv: ConvSpec<T>, inChannels: nat, ov: Overrides): (r: Adapted<T>)
    requires WellFormed(conv)
    requires inChannels >= 1
    // Equal count: the very same convolution, and a warning.
    ensures inChannels == conv.inChannels ==> r.conv == conv && r.warned
    // Otherwise a new same-padding convolution with `inChannels` inputs.
    ensures inChannels != conv.inChannels ==>
      && !r.warned
      && r.conv.kind == Conv2dSame
      && r.conv.inChannels == inChannels
      && r.conv.outChannels == conv.outChannels
      && r.conv.kernelSize == GetOr(ov.kernelSize, conv.kernelSize)
      && r.conv.stride == GetOr(ov.stride, conv.stride)
      && r.conv.padding == GetOr(ov.padding, conv.padding)
      && r.conv.dilation == GetOr(ov.dilation, conv.dilation)
      && r.conv.groups == GetOr(ov.groups, conv.groups)
      && r.conv.hasBias == GetOr(ov.hasBias, conv.hasBias)
    // The filter count is kept and every filter has exactly `inChannels` slices.
    ensures |r.conv.weight| == |conv.weight| && HasChannels(r.conv.weight, inChannels)
    // Grow: channel i is the original's channel i mod C.
    ensures inChannels > conv.inChannels ==>
      forall o, i :: 0 <= o < |conv.weight| && 0 <= i < inChannels ==>
        r.conv.weight[o][i] == conv.weight[o][i % conv.inChannels]
    // Shrink: exactly the first `inChannels` channels of each filter.
    ensures inChannels < conv.inChannels ==>
      forall o :: 0 <= o < |conv.weight| ==> r.conv.weight[o] == conv.weight[o][..inChannels]
    // The result is again a stem-style convolution unless groups is overridden.
    ensures GetOr(ov.groups, 1) == 1 ==> WellFormed(r.conv)
  {
    if conv.inChannels == inChannels then
      Adapted(conv, true)
    else if inChannels > conv.inChannels then
      Adapted(NewConv(conv, inChannels, ov, GrowWeight(conv.weight, conv.inChannels, inChannels)), false)
    else
      Adapted(NewConv(conv, inChannels, ov, ShrinkWeight(conv.weight, conv.inChannels, inChannels)), false)
  }

  /** The first C channels of a grown weight are the original weight, in order. */
  lemma GrowKeepsPrefix<T>(w: seq<seq<T>>, c: nat, inChannels: nat)
    requires c >= 1 && HasChannels(w, c)
    requires inChannels > c
    ensures forall o :: 0 <= o < |w| ==> GrowWeight(w, c, inChannels)[o][..c] == w[o]
  {
  }

  /**
   * Growing to any N >= C and then shrinking back to C gives back the
   * original hyperparameters and weight exactly; only the module class
   * becomes Conv2dSame when N > C.
   */
  lemma GrowThenShrinkRestores<T>(conv: ConvSpec<T>, n: nat)
    requires WellFormed(conv)
    requires n >= conv.inChannels
    ensures WellFormed(AdaptInputChannels(conv, n, NoOverrides).conv)
    ensures
      var back := AdaptInputChannels(AdaptInputChannels(conv, n, NoOverrides).conv, conv.inChannels, NoOverrides).conv;
      back == if n == conv.inChannels then conv else conv.(kind := Conv2dSame)
  {
    var c := conv.inChannels;
    if n > c {
      var up := AdaptInputChannels(conv, n, NoOverrides).conv;
      var back := AdaptInputChannels(up, c, NoOverrides).conv;
      GrowKeepsPrefix(conv.weight, c, n);
      assert up.weight == GrowWeight(conv.weight, c, n);
      assert back.weight == ShrinkWeight(up.weight, n, c);
      assert back.weight == conv.weight;
    }
  }

  /**
   * Shrinking to k < C and then growing back to C gives channel i mod k of
   * the original in channel i, and it restores the original exactly when
   * and only when every filter repeats itself with period k.
   */
  lemma ShrinkThenGrow<T>(conv: ConvSpec<T>, k: nat)
    requires WellFormed(conv)
    requires 1 <= k < conv.inChannels
    ensures
      var back := AdaptInputChannels(AdaptInputChannels(conv, k, NoOverrides).conv, conv.inChannels, NoOverrides).conv;
      && back.inChannels == conv.inChannels
      && |back.weight| == |conv.weight|
      && (forall o, i :: 0 <= o < |conv.weight| && 0 <= i < conv.inChannels ==>
            back.weight[o][i] == conv.weight[o][i % k])
      && (back.weight == conv.weight <==>
            forall o, i :: 0 <= o < |conv.weight| && 0 <= i < conv.inChannels ==>
              conv.weight[o][i] == conv.weight[o][i % k])
  {
    var c := conv.inChannels;
    var down := AdaptInputChannels(conv, k, NoOverrides).conv;
    var back := AdaptInputChannels(down, c, NoOverrides).conv;
    forall o, i | 0 <= o < |conv.weight| && 0 <= i < c
      ensures back.weight[o][i] == conv.weight[o][i % k]
    {
      assert back.weight[o][i] == down.weight[o][i % k];
    }
    if forall o, i :: 0 <= o < |conv.weight| && 0 <= i < c ==> conv.weight[o][i] == conv.weight[o][i % k] {
      forall o | 0 <= o < |conv.weight| ensures back.weight[o] == conv.weight[o] {
        assert |back.weight[o]| == c;
      }
    }
  }

  /**
   * A concrete one-filter stem with three distinct channels: shrinking it to
   * one channel and growing back to three repeats channel 0 three times.
   */
  lemma ShrinkThenGrowLosesChannels()
    ensures
      var conv := ConvSpec(Conv2d, 3, 1, Pair(3, 3), Pair(2, 2), Pair(1, 1), Pair(1, 1), 1, false, [[10, 11, 12]]);
      var back := AdaptInputChannels(AdaptInputChannels(conv, 1, NoOverrides).conv, 3, NoOverrides).conv;
      back.weight == [[10, 10, 10]] && back.weight != conv.weight
  {
    var conv := ConvSpec(Conv2d, 3, 1, Pair(3, 3), Pair(2, 2), Pair(1, 1), Pair(1, 1), 1, false, [[10, 11, 12]]);
    ShrinkThenGrow(conv, 1);
    var back := AdaptInputChannels(AdaptInputChannels(conv, 1, NoOverrides).conv, 3, NoOverrides).conv;
    assert back.weight[0][1] == conv.weight[0][0];
    assert |back.weight[0]| == 3;
    assert back.weight[0] == [10, 10, 10];
  }
}
