/**
 * OAM DMA as the PPU sees it (core/src/hardware/ppu/dma.rs): the 160 bytes
 * copied from the source page become the 40 four-byte sprite entries, the
 * PPU marks the transfer as running, and the scheduler is told when it ends.
 */
module PpuDma {
  import opened Bits
  import Ppu
  import Sched = Scheduler

  /** OAM spans 0xFE00-0xFE9F. */
  const OAM_BYTES: nat := 0xA0
  const OAM_SPRITES: nat := 40

  /** The transfer takes 644 cycles, counting the 4-cycle start delay. */
  const DMA_DURATION: nat := 644

  /**
   * Sprite `i` from the copied bytes: Y, X, tile number and attributes at
   * `4i..4i+3`; every attribute bit is defined, so `from_bits_truncate`
   * keeps the byte as it is.
   */
  function Unpack(values: seq<Byte>, i: nat): Ppu.SpriteAttribute
    requires 4 * i + 3 < |values|
  {
    Ppu.SpriteAttribute(values[4 * i], values[4 * i + 1], values[4 * i + 2], values[4 * i + 3])
  }

  /** The byte image of a sequence of sprite entries, as OAM lays them out. */
  function Pack(oam: seq<Ppu.SpriteAttribute>): (bytes: seq<Byte>)
    ensures |bytes| == 4 * |oam|
  {
    if |oam| == 0 then []
    else [oam[0].yPos, oam[0].xPos, oam[0].tileNumber, oam[0].attributeFlags] + Pack(oam[1..])
  }

  /** Byte `4i + k` of the image is field `k` of entry `i`. */
  lemma {:induction false} PackIndex(oam: seq<Ppu.SpriteAttribute>)
    ensures forall i :: 0 <= i < |oam| ==>
      Pack(oam)[4 * i] == oam[i].yPos && Pack(oam)[4 * i + 1] == oam[i].xPos &&
      Pack(oam)[4 * i + 2] == oam[i].tileNumber && Pack(oam)[4 * i + 3] == oam[i].attributeFlags
  {
    if |oam| != 0 {
      PackIndex(oam[1..]);
      forall i | 1 <= i < |oam|
        ensures Pack(oam)[4 * i] == oam[i].yPos && Pack(oam)[4 * i + 1] == oam[i].xPos &&
                Pack(oam)[4 * i + 2] == oam[i].tileNumber && Pack(oam)[4 * i + 3] == oam[i].attributeFlags
      {
        assert oam[1..][i - 1] == oam[i];
        assert Pack(oam)[4 * i] == Pack(oam[1..])[4 * (i - 1)];
        assert Pack(oam)[4 * i + 1] == Pack(oam[1..])[4 * (i - 1) + 1];
        assert Pack(oam)[4 * i + 2] == Pack(oam[1..])[4 * (i - 1) + 2];
        assert Pack(oam)[4 * i + 3] == Pack(oam[1..])[4 * (i - 1) + 3];
      }
    }
  }

  /** The 40 entries a transfer of `values` produces. */
  function Unpacked(values: seq<Byte>): (oam: seq<Ppu.SpriteAttribute>)
    requires |values| == OAM_BYTES
    ensures |oam| == OAM_SPRITES
  {
    seq(OAM_SPRITES, i requires 0 <= i < OAM_SPRITES => Unpack(values, i))
  }

  /**
   * Unpacking loses nothing: the entries pack back to exactly the copied
   * bytes, and packing 40 entries then unpacking gives them back.
   */
  lemma UnpackRoundTrip(values: seq<Byte>, oam: seq<Ppu.SpriteAttribute>)
    requires |values| == OAM_BYTES && |oam| == OAM_SPRITES
    ensures Pack(Unpacked(values)) == values
    ensures Unpacked(Pack(oam)) == oam
  {
    PackIndex(Unpacked(values));
    forall b | 0 <= b < OAM_BYTES ensures Pack(Unpacked(values))[b] == values[b] {
      var i := b / 4;
      assert Unpacked(values)[i] == Unpack(values, i);
      if b % 4 == 0 { assert b == 4 * i; }
      else if b % 4 == 1 { assert b == 4 * i + 1; }
      else if b % 4 == 2 { assert b == 4 * i + 2; }
      else { assert b == 4 * i + 3; }
    }
    PackIndex(oam);
  }

  /** The OAM table and the flag that blocks CPU access while a transfer runs. */
  class OamDma {
    const oam: array<Ppu.SpriteAttribute>
    var oamTransferOngoing: bool

    /** OAM of 40 zeroed entries, no transfer running. */
    constructor ()
      ensures oam.Length == OAM_SPRITES && fresh(oam) && !oamTransferOngoing
    {
      oam := new Ppu.SpriteAttribute[OAM_SPRITES](_ => Ppu.SpriteAttribute(0, 0, 0, 0));
      oamTransferOngoing := false;
    }

    /** `oam_dma_finished`: called when the completion event fires. */
    method OamDmaFinished()
      modifies this`oamTransferOngoing
      ensures !oamTransferOngoing
    {
      oamTransferOngoing := false;
    }

    /**
     * `oam_dma_transfer`: a batch of anything but 0xA0 bytes panics. The 40
     * entries are replaced by the unpacked bytes, the transfer is marked
     * running and its completion is scheduled 644 cycles ahead.
     */
    method OamDmaTransfer(values: seq<Byte>, scheduler: Sched.Scheduler)
      requires |values| == OAM_BYTES
      requires oam.Length == OAM_SPRITES
      modifies oam, this`oamTransferOngoing, scheduler`eventQueue
      ensures oam[..] == Unpacked(values)
      ensures Pack(oam[..]) == values
      ensures oamTransferOngoing
      ensures scheduler.eventQueue ==
        old(scheduler.eventQueue) + multiset{Sched.Event(scheduler.currentTime + DMA_DURATION, Sched.DMATransferComplete)}
    {
      for i := 0 to 40
        invariant forall k :: 0 <= k < i ==> oam[k] == Unpack(values, k)
        invariant scheduler.eventQueue == old(scheduler.eventQueue)
      {
        var multiplier := i * 4;
        oam[i] := Ppu.SpriteAttribute(values[multiplier], values[multiplier + 1], values[multiplier + 2], values[multiplier + 3]);
      }
      assert oam[..] == Unpacked(values);
      UnpackRoundTrip(values, oam[..]);
      oamTransferOngoing := true;
      scheduler.PushRelative(Sched.DMATransferComplete, 644);
    }
  }
}
