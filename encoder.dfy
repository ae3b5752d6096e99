/**
 * The EfficientNet / MixNet encoder family: one parameterised encoder driven
 * by a variant table, the no-stride (dilated) rewrite of two depthwise
 * convolutions of the backbone, and the replacement of the backbone's stem
 * when the number of input channels changes.
 *
 * The backbone comes from an external model library; here it is a table of
 * depthwise-convolution configurations keyed by (block group, block index)
 * together with its stem convolution.
 */
module EfficientNetEncoders {
  import opened ChannelAdapter

  /** The nine encoder classes, which differ only in constants. */
  datatype Variant = B0 | B1 | B2 | B3 | B4 | B5 | B6 | B7 | MixNetXL

  /** The five per-stage feature channel counts each variant passes to its base class. */
  function StageChannels(v: Variant): (r: seq<nat>)
    ensures |r| == 5
    ensures forall i, j :: 0 <= i < j < 5 ==> r[i] < r[j]
  {
    match v
    case B0 => [16, 24, 40, 112, 320]
    case B1 => [16, 24, 40, 112, 320]
    case B2 => [16, 24, 48, 120, 352]
    case B3 => [24, 32, 48, 136, 384]
    case B4 => [24, 32, 56, 160, 448]
    case B5 => [24, 40, 64, 176, 512]
    case B6 => [32, 40, 72, 200, 576]
    case B7 => [32, 48, 80, 224, 640]
    case MixNetXL => [40, 48, 64, 192, 320]
  }

  /** Only the EfficientNet classes accept the no_stride argument. */
  predicate SupportsNoStride(v: Variant)
  {
    v != MixNetXL
  }

  /** The default nominal downsampling of the five stages. */
  const DefaultStrides: seq<nat> := [2, 4, 8, 16, 32]

  /**
   * The output strides of the five stages: the default progression, with
   * the last two stages held at 8 when the two stride-2 depthwise
   * convolutions are dilated instead.
   */
  function StageStrides(noStride: bool): (r: seq<nat>)
    ensures |r| == 5
    ensures r[..3] == [2, 4, 8]
    ensures noStride ==> r[3] == 8 && r[4] == 8
    ensures !noStride ==> r == DefaultStrides
    ensures forall i, j :: 0 <= i < j < 5 ==> r[i] <= r[j]
  {
    if noStride then DefaultStrides[3 := 8][4 := 8] else DefaultStrides
  }

  /** Addresses blocks[group][index] of the backbone. */
  datatype BlockKey = BlockKey(group: nat, index: nat)

  /** The two blocks whose depthwise convolution the no-stride rewrite dilates. */
  const Group5First: BlockKey := BlockKey(5, 0)
  const Group3First: BlockKey := BlockKey(3, 0)

  /** The configuration of a block's depthwise convolution, conv_dw. */
  datatype DwConv = DwConv(kernelSize: Pair, stride: Pair, padding: Pair, dilation: Pair, channels: nat)

  /** Both assignments the rewrite makes to one conv_dw: stride (1,1), dilation (2,2). */
  function Dilated(c: DwConv): (r: DwConv)
    ensures r.stride == Pair(1, 1) && r.dilation == Pair(2, 2)
    ensures r.kernelSize == c.kernelSize && r.padding == c.padding && r.channels == c.channels
  {
    c.(stride := Pair(1, 1)).(dilation := Pair(2, 2))
  }

  /** The table with one block's conv_dw dilated, if that block exists. */
  function DilateBlock(m: map<BlockKey, DwConv>, k: BlockKey): (r: map<BlockKey, DwConv>)
    ensures r.Keys == m.Keys
    ensures k in m ==> r[k] == Dilated(m[k])
    ensures forall j :: j in m && j != k ==> r[j] == m[j]
  {
    if k in m then m[k := Dilated(m[k])] else m
  }

  /**
   * The table after the no-stride rewrite: blocks[5][0] and blocks[3][0]
   * get stride (1,1) and dilation (2,2); every other block, and every other
   * field of those two, is left as it was.
   */
  function NoStrideBlocks(m: map<BlockKey, DwConv>): (r: map<BlockKey, DwConv>)
    requires Group5First in m && Group3First in m
    ensures r.Keys == m.Keys
    ensures r[Group5First] == Dilated(m[Group5First])
    ensures r[Group3First] == Dilated(m[Group3First])
    ensures forall j :: j in m && j != Group5First && j != Group3First ==> r[j] == m[j]
  {
    DilateBlock(DilateBlock(m, Group5First), Group3First)
  }

  /** Applying the no-stride rewrite a second time changes nothing more. */
  lemma NoStrideBlocksIdempotent(m: map<BlockKey, DwConv>)
    requires Group5First in m && Group3First in m
    ensures NoStrideBlocks(NoStrideBlocks(m)) == NoStrideBlocks(m)
  {
  }

  /** The external backbone: its stem convolution and its blocks' depthwise convolutions. */
  class Backbone<T> {
    var convStem: ConvSpec<T>
    var blocks: map<BlockKey, DwConv>

    constructor (stem: ConvSpec<T>, blocks: map<BlockKey, DwConv>)
      ensures convStem == stem && this.blocks == blocks
    {
      convStem := stem;
      this.blocks := blocks;
    }

    /**
     * The in-place no-stride rewrite, in the source's order: blocks[5][0]
     * first, then blocks[3][0]. A missing block stops the rewrite where it
     * occurs (ok is false), after the assignments that came before it.
     */
    method ApplyNoStride() returns (ok: bool)
      modifies this
      ensures ok <==> Group5First in old(blocks) && Group3First in old(blocks)
      ensures ok ==> blocks == NoStrideBlocks(old(blocks))
      ensures !ok ==> blocks == DilateBlock(old(blocks), Group5First)
      ensures convStem == old(convStem)
    {
      if Group5First !in blocks {
        return false;
      }
      blocks := blocks[Group5First := blocks[Group5First].(stride := Pair(1, 1))];
      blocks := blocks[Group5First := blocks[Group5First].(dilation := Pair(2, 2))];
      if Group3First !in blocks {
        return false;
      }
      blocks := blocks[Group3First := blocks[Group3First].(stride := Pair(1, 1))];
      blocks := blocks[Group3First := blocks[Group3First].(dilation := Pair(2, 2))];
      return true;
    }
  }

  /** One encoder: the backbone it owns and the channel and stride tables it reports. */
  class Encoder<T> {
    const variant: Variant
    const channels: seq<nat>
    const strides: seq<nat>
    const layers: seq<nat>
    const backbone: Backbone<T>

    ghost predicate Valid()
      reads this, backbone
    {
      && channels == StageChannels(variant)
      && |strides| == 5
      && WellFormed(backbone.convStem)
    }

    /**
     * The encoder constructor: take the backbone built by the model library,
     * apply the no-stride rewrite when asked, and record the variant's
     * channel table and the resulting stride table. The defaults are the
     * source's: layers [1, 2, 3, 4] and no_stride off.
     */
    constructor (variant: Variant, backbone: Backbone<T>, layers: seq<nat> := [1, 2, 3, 4], noStride: bool := false)
      requires noStride ==> SupportsNoStride(variant)
      requires noStride ==> Group5First in backbone.blocks && Group3First in backbone.blocks
      requires WellFormed(backbone.convStem)
      modifies backbone
      ensures Valid()
      ensures this.variant == variant && this.backbone == backbone && this.layers == layers
      ensures channels == StageChannels(variant)
      ensures strides == StageStrides(noStride)
      ensures noStride ==> backbone.blocks == NoStrideBlocks(old(backbone.blocks))
      ensures !noStride ==> backbone.blocks == old(backbone.blocks)
      ensures backbone.convStem == old(backbone.convStem)
    {
      var table := new nat[5];
      table[0], table[1], table[2], table[3], table[4] := 2, 4, 8, 16, 32;
      if noStride {
        var ok := backbone.ApplyNoStride();
        assert ok;
        table[3] := 8;
        table[4] := 8;
      }
      this.variant := variant;
      this.channels := StageChannels(variant);
      this.strides := table[..];
      this.layers := layers;
      this.backbone := backbone;
    }

    /**
     * change_input_channels: replace the backbone's stem by the adapted
     * current stem and return this encoder; warned reports the spurious
     * call with an unchanged channel count.
     */
    method ChangeInputChannels(inputChannels: nat, ov: Overrides) returns (r: Encoder<T>, warned: bool)
      requires Valid()
      requires inputChannels >= 1
      requires GetOr(ov.groups, 1) == 1
      modifies backbone
      ensures Valid()
      ensures r == this
      ensures backbone.convStem == AdaptInputChannels(old(backbone.convStem), inputChannels, ov).conv
      ensures warned == AdaptInputChannels(old(backbone.convStem), inputChannels, ov).warned
      ensures backbone.convStem.inChannels == inputChannels
      ensures backbone.blocks == old(backbone.blocks)
    {
      var adapted := AdaptInputChannels(backbone.convStem, inputChannels, ov);
      backbone.convStem := adapted.conv;
      warned := adapted.warned;
      r := this;
    }
  }
}
