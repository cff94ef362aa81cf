/**
 * The video unit's timing: a per-scanline mode machine (OAM scan, drawing,
 * H-blank, V-blank) driven by a cycle counter, with LY advancing modulo 154
 * and the mode mirrored in the low two bits of STAT.
 */
module Video {
  import opened Bits
  import opened Memory
  import opened MemoryMap
  import Interrupts
  import opened Display

  /** PPU_MODE, in ordinal order. */
  datatype PpuMode = HBlank | VBlank | OamScan | Drawing

  function ModeOrdinal(mode: PpuMode): nat {
    match mode
    case HBlank => 0
    case VBlank => 1
    case OamScan => 2
    case Drawing => 3
  }

  /** Cycles per scanline. */
  const ScanlineCycles: int := 456

  /** The PPU's own fields. */
  datatype PpuState = PpuState(mode: PpuMode, cycleCounter: int, lcdEnabled: bool)

  /** `(STAT & 0xFC) | ordinal` */
  function StatWithMode(stat: int, mode: PpuMode): int {
    Or(And(stat, 0xFC), ModeOrdinal(mode))
  }

  /** `x & 0xFC` clears the two low bits of a byte. */
  lemma {:induction false} ClearLowTwo(x: int)
    requires 0 <= x < 256
    ensures And(x, 0xFC) == (x / 4) * 4
  {
    assert Pow2(2) == 4;
    assert Pow2(8) == 256 by {
      Pow2Add(4, 4);
    }
    AndHighMask(x, 2, 8);
  }

  /**
   * The mode field of STAT: on a byte, the new value keeps bits 7..2 and
   * holds the mode's ordinal in bits 1..0.
   */
  lemma {:induction false} StatKeepsUpperBits(stat: int, mode: PpuMode)
    requires 0 <= stat < 256
    ensures StatWithMode(stat, mode) == (stat / 4) * 4 + ModeOrdinal(mode)
    ensures 0 <= StatWithMode(stat, mode) < 256
    ensures StatWithMode(stat, mode) / 4 == stat / 4
    ensures StatWithMode(stat, mode) % 4 == ModeOrdinal(mode)
  {
    ClearLowTwo(stat);
    assert Pow2(2) == 4;
    OrDisjoint(stat / 4, ModeOrdinal(mode), 2);
  }

  /**
   * The STAT byte setPpuMode leaves: bits 7..2 as found, bits 1..0 the
   * mode's ordinal, or 0 when the LCD is off.
   */
  function ModeStat(b: int, mode: PpuMode, lcdEnabled: bool): (r: int)
    requires 0 <= b < 256
    ensures 0 <= r < 256 && r / 4 == b / 4
    ensures r % 4 == (if lcdEnabled then ModeOrdinal(mode) else 0)
  {
    var q := b / 4;
    assert 0 <= q < 64;
    q * 4 + (if lcdEnabled then ModeOrdinal(mode) else 0)
  }

  /** setPpuMode on a snapshot: it records the mode and rewrites STAT only. */
  function ModeSet(s: PpuState, m: seq<Byte>, mode: PpuMode): (r: (PpuState, seq<Byte>))
    requires |m| == Size
    ensures |r.1| == Size
  {
    (s.(mode := mode), Store(m, STAT, ModeStat(ByteAt(m, STAT), mode, s.lcdEnabled)))
  }

  /**
   * setPpuMode records the mode and changes only STAT: bits 7..2 stay, and
   * bits 1..0 hold the ordinal, or 0 when the LCD is off.
   */
  lemma {:induction false} ModeSetWritesStat(s: PpuState, m: seq<Byte>, mode: PpuMode)
    requires |m| == Size
    ensures ModeSet(s, m, mode).0 == s.(mode := mode)
    ensures ModeSet(s, m, mode).1[STAT] ==
            (m[STAT] / 4) * 4 + (if s.lcdEnabled then ModeOrdinal(mode) else 0)
    ensures forall a :: 0 <= a < Size && a != STAT ==> ModeSet(s, m, mode).1[a] == m[a]
  {
    assert Wrap(STAT) == STAT;
  }

  /**
   * The Java writes of setPpuMode, `(STAT & 0xFC) | ordinal` and then, with
   * the LCD off, `& 0xFC` again, produce the byte ModeStat describes.
   */
  lemma {:induction false} StatByteWritten(b: int, mode: PpuMode, lcdEnabled: bool)
    requires 0 <= b < 256
    ensures var stat := StatWithMode(b, mode);
      (if lcdEnabled then stat % 256 else And(stat, 0xFC) % 256) == ModeStat(b, mode, lcdEnabled)
  {
    if lcdEnabled {
      StatKeepsUpperBits(b, mode);
    } else {
      StatModeCleared(b, mode);
    }
  }

  /** setPpuMode's one or two writes to STAT leave only the last value written. */
  lemma {:induction false} StatWrites(m: seq<Byte>, stat: int, cleared: int, lcdEnabled: bool, target: int)
    requires |m| == Size && 0 <= target < 256
    requires (if lcdEnabled then stat % 256 else cleared % 256) == target
    ensures (if lcdEnabled then Store(m, STAT, stat) else Store(Store(m, STAT, stat), STAT, cleared)) ==
            Store(m, STAT, target)
  {
    if !lcdEnabled {
      StoreOverwrites(m, STAT, stat, cleared);
    }
  }

  /** With the LCD off the second write masks the mode bits away again. */
  lemma {:induction false} StatModeCleared(b: int, mode: PpuMode)
    requires 0 <= b < 256
    ensures And(StatWithMode(b, mode), 0xFC) % 256 == (b / 4) * 4
  {
    var stat := StatWithMode(b, mode);
    var q := b / 4;
    assert 0 <= q * 4 < 256;
    StatKeepsUpperBits(b, mode);
    assert stat / 4 == q;
    ClearLowTwo(stat);
    assert And(stat, 0xFC) == q * 4;
    DivUnique(q * 4, 256, 0, q * 4);
  }

  /** triggerVBlankInterrupt on a snapshot: `IF | 0x01`. */
  function VBlankTriggered(m: seq<Byte>): (m': seq<Byte>)
    requires |m| == Size
    ensures |m'| == Size
  {
    Store(m, IF, Or(ByteAt(m, IF), 1))
  }

  /** Triggering V-blank is requesting the VBLANK interrupt. */
  lemma VBlankTriggerIsRequest(m: seq<Byte>)
    requires |m| == Size
    ensures VBlankTriggered(m) == Interrupts.Requested(m, Interrupts.VBlank)
  {
  }

  /** incrementLY on a snapshot: `LY := (LY + 1) % 154`. */
  function LyIncremented(m: seq<Byte>): (m': seq<Byte>)
    requires |m| == Size
    ensures |m'| == Size
  {
    Store(m, LY, (ByteAt(m, LY) + 1) % 154)
  }

  /** Switch to a mode only when not already in it, as each branch of step does. */
  function Enter(s: PpuState, m: seq<Byte>, mode: PpuMode): (r: (PpuState, seq<Byte>))
    requires |m| == Size
    ensures |r.1| == Size
  {
    if s.mode != mode then ModeSet(s, m, mode) else (s, m)
  }

  /** The mode-selection part of step, for an enabled LCD and the counter already advanced. */
  function SelectMode(s: PpuState, m: seq<Byte>): (r: (PpuState, seq<Byte>))
    requires |m| == Size
    ensures |r.1| == Size
  {
    if ByteAt(m, LY) >= 144 then
      if s.mode != VBlank then
        var (s1, m1) := ModeSet(s, m, VBlank);
        (s1, VBlankTriggered(m1))
      else
        (s, m)
    else if s.cycleCounter < 80 then Enter(s, m, OamScan)
    else if s.cycleCounter < 252 then Enter(s, m, Drawing)
    else if s.cycleCounter < ScanlineCycles then Enter(s, m, HBlank)
    else (s, m)
  }

  /** The end-of-scanline part of step. */
  function EndScanline(s: PpuState, m: seq<Byte>): (r: (PpuState, seq<Byte>))
    requires |m| == Size
    ensures |r.1| == Size
  {
    if s.cycleCounter >= ScanlineCycles then
      var s1 := s.(cycleCounter := s.cycleCounter - ScanlineCycles);
      var m1 := LyIncremented(m);
      if ByteAt(m1, LY) < 144 then ModeSet(s1, m1, OamScan) else (s1, m1)
    else
      (s, m)
  }

  /** step(cycles) on a snapshot of the PPU fields and memory. */
  function Stepped(s: PpuState, m: seq<Byte>, cycles: int): (r: (PpuState, seq<Byte>))
    requires |m| == Size
    ensures |r.1| == Size
  {
    var enabled := And(ByteAt(m, LCDC), 0x80) != 0;
    if !enabled then
      ModeSet(s.(lcdEnabled := false), Store(m, LY, 0), HBlank)
    else
      var (s1, m1) := SelectMode(s.(lcdEnabled := true, cycleCounter := s.cycleCounter + cycles), m);
      EndScanline(s1, m1)
  }

  /** The state init leaves: the palettes, LCDC and LY set, and mode OAM scan. */
  function Initialised(s: PpuState, m: seq<Byte>): (r: (PpuState, seq<Byte>))
    requires |m| == Size
    ensures |r.1| == Size
  {
    var (s1, m1) := ModeSet(s, m, OamScan);
    var m2 := Store(Store(Store(Store(Store(m1, LY, 0), LCDC, 0x91), BGP, 0xFC), OBP0, 0xFF), OBP1, 0xFF);
    (s1.(lcdEnabled := true), m2)
  }

  // ---------------------------------------------------------------- lemmas

  /** LCDC bit 7 is the LCD enable. */
  lemma LcdEnableBit(lcdc: int)
    ensures (And(lcdc, 0x80) != 0) == Bit(lcdc, 7)
  {
    assert Pow2(7) == 0x80;
    MaskTestsBit(lcdc, 7);
  }

  /**
   * With LCDC bit 7 clear, step sets LY = 0 and mode H-blank with the STAT
   * mode bits cleared, keeps the cycle counter, and writes nothing else.
   */
  lemma {:induction false} LcdOffStep(s: PpuState, m: seq<Byte>, cycles: int)
    requires |m| == Size && !Bit(m[LCDC], 7)
    ensures Stepped(s, m, cycles).0 == s.(lcdEnabled := false, mode := HBlank)
    ensures Stepped(s, m, cycles).1[LY] == 0
    ensures Stepped(s, m, cycles).1[STAT] == (m[STAT] / 4) * 4
    ensures forall a :: 0 <= a < Size && a != LY && a != STAT ==> Stepped(s, m, cycles).1[a] == m[a]
  {
    assert Wrap(LCDC) == LCDC && Wrap(LY) == LY;
    LcdEnableBit(m[LCDC]);
    var m1 := Store(m, LY, 0);
    ModeSetWritesStat(s.(lcdEnabled := false), m1, HBlank);
  }

  /**
   * From LY >= 144 with the LCD on, step sets IF bit 0 exactly when the mode
   * was not already V-blank, and the mode becomes V-blank unless the
   * scanline also ends and LY wraps below 144.
   */
  lemma {:induction false} VBlankEntry(s: PpuState, m: seq<Byte>, cycles: int)
    requires |m| == Size && Bit(m[LCDC], 7) && m[LY] >= 144
    ensures var (s', m') := Stepped(s, m, cycles);
      m'[IF] == (if s.mode != VBlank then Or(m[IF], 1) else m[IF]) &&
      (s.mode != VBlank ==> Bit(m'[IF], 0)) &&
      (s'.mode == VBlank <==>
         !(s.cycleCounter + cycles >= ScanlineCycles && (m[LY] as int + 1) % 154 < 144))
  {
    assert Wrap(LCDC) == LCDC && Wrap(LY) == LY && Wrap(IF) == IF && Wrap(STAT) == STAT;
    LcdEnableBit(m[LCDC]);
    var s0 := s.(lcdEnabled := true, cycleCounter := s.cycleCounter + cycles);
    var (s1, m1) := SelectMode(s0, m);
    if s.mode != VBlank {
      var (sa, ma) := ModeSet(s0, m, VBlank);
      ModeSetWritesStat(s0, m, VBlank);
      assert ma[IF] == m[IF] && ma[LY] == m[LY];
      Interrupts.RequestTouchesOnlyIF(ma, Interrupts.VBlank);
      assert m1 == Interrupts.Requested(ma, Interrupts.VBlank);
      assert ByteAt(ma, IF) == m[IF] && Pow2(0) == 1;
      Interrupts.RaiseSetsOneBit(m[IF] as int, Interrupts.VBlank);
      assert m1[IF] == Or(m[IF], 1);
      assert Interrupts.Ordinal(Interrupts.VBlank) == 0;
    }
    assert s1.mode == VBlank && s1.cycleCounter == s0.cycleCounter;
    assert m1[LY] == m[LY] && m1[IF] == (if s.mode != VBlank then Or(m[IF], 1) else m[IF]);
    EndScanlineFrame(s1, m1);
  }

  /**
   * The end of a scanline writes only LY and STAT: the counter drops by one
   * scanline, LY advances modulo 154, and the mode resets to OAM scan when
   * the new LY is below 144.
   */
  lemma {:induction false} EndScanlineFrame(s: PpuState, m: seq<Byte>)
    requires |m| == Size
    ensures var (s', m') := EndScanline(s, m);
      (forall a :: 0 <= a < Size && a != LY && a != STAT ==> m'[a] == m[a]) &&
      (s.cycleCounter >= ScanlineCycles ==>
         s'.cycleCounter == s.cycleCounter - ScanlineCycles &&
         m'[LY] == (m[LY] as int + 1) % 154 &&
         s'.mode == (if (m[LY] as int + 1) % 154 < 144 then OamScan else s.mode) &&
         s'.lcdEnabled == s.lcdEnabled) &&
      (s.cycleCounter >= ScanlineCycles && (m[LY] as int + 1) % 154 < 144 ==>
         m'[STAT] == (m[STAT] / 4) * 4 + (if s.lcdEnabled then ModeOrdinal(OamScan) else 0)) &&
      (!(s.cycleCounter >= ScanlineCycles && (m[LY] as int + 1) % 154 < 144) ==>
         m'[STAT] == m[STAT] && s'.mode == s.mode) &&
      (s.cycleCounter < ScanlineCycles ==> s' == s && m' == m)
  {
    assert Wrap(LY) == LY;
    if s.cycleCounter >= ScanlineCycles {
      var s1 := s.(cycleCounter := s.cycleCounter - ScanlineCycles);
      var m1 := LyIncremented(m);
      assert m1[LY] == (m[LY] as int + 1) % 154;
      ModeSetWritesStat(s1, m1, OamScan);
    }
  }

  /**
   * Below LY 144 with the LCD on, the advanced counter c picks the mode:
   * OAM scan for c < 80, drawing for c < 252, H-blank for c < 456; IF is
   * untouched.
   */
  lemma {:induction false} ModeByCounter(s: PpuState, m: seq<Byte>, cycles: int)
    requires |m| == Size && Bit(m[LCDC], 7) && m[LY] < 144
    ensures var (s', m') := Stepped(s, m, cycles);
      var c := s.cycleCounter + cycles;
      m'[IF] == m[IF] &&
      (c < 80 ==> s'.mode == OamScan && s'.cycleCounter == c) &&
      (80 <= c < 252 ==> s'.mode == Drawing && s'.cycleCounter == c) &&
      (252 <= c < ScanlineCycles ==> s'.mode == HBlank && s'.cycleCounter == c) &&
      (c >= ScanlineCycles ==>
         s'.cycleCounter == c - ScanlineCycles && m'[LY] == m[LY] + 1 &&
         s'.mode == (if m[LY] + 1 < 144 then OamScan else s.mode))
  {
    assert Wrap(LCDC) == LCDC && Wrap(LY) == LY && Wrap(IF) == IF && Wrap(STAT) == STAT;
    LcdEnableBit(m[LCDC]);
    var s0 := s.(lcdEnabled := true, cycleCounter := s.cycleCounter + cycles);
    var (s1, m1) := SelectMode(s0, m);
    if s0.mode != OamScan { ModeSetWritesStat(s0, m, OamScan); }
    if s0.mode != Drawing { ModeSetWritesStat(s0, m, Drawing); }
    if s0.mode != HBlank { ModeSetWritesStat(s0, m, HBlank); }
    assert m1[IF] == m[IF] && m1[LY] == m[LY] && s1.cycleCounter == s0.cycleCounter;
    assert s0.cycleCounter >= ScanlineCycles ==> s1 == s0;
    EndScanlineFrame(s1, m1);
  }

  /** LY stays within 0..153 across a step. */
  lemma {:induction false} StepKeepsLyBelow154(s: PpuState, m: seq<Byte>, cycles: int)
    requires |m| == Size && m[LY] < 154
    ensures Stepped(s, m, cycles).1[LY] < 154
  {
    assert Wrap(LY) == LY;
    if Bit(m[LCDC], 7) {
      if m[LY] >= 144 {
        VBlankEntry(s, m, cycles);
      }
      var s0 := s.(lcdEnabled := true, cycleCounter := s.cycleCounter + cycles);
      var (s1, m1) := SelectMode(s0, m);
      SelectModeFrame(s0, m);
      EndScanlineFrame(s1, m1);
      LcdEnableBit(m[LCDC]);
    } else {
      LcdOffStep(s, m, cycles);
    }
  }

  /** Mode selection writes only STAT and IF, and keeps the counter. */
  lemma {:induction false} SelectModeFrame(s: PpuState, m: seq<Byte>)
    requires |m| == Size
    ensures var (s', m') := SelectMode(s, m);
      (forall a :: 0 <= a < Size && a != STAT && a != IF ==> m'[a] == m[a]) &&
      s'.cycleCounter == s.cycleCounter && s'.lcdEnabled == s.lcdEnabled &&
      (s'.mode != s.mode ==>
         m'[STAT] == (m[STAT] / 4) * 4 + (if s.lcdEnabled then ModeOrdinal(s'.mode) else 0)) &&
      (s'.mode == s.mode ==> m' == m)
  {
    assert Wrap(LY) == LY && Wrap(IF) == IF && Wrap(STAT) == STAT;
    var (s1, m1) := SelectMode(s, m);
    forall mode: PpuMode ensures
      (forall a :: 0 <= a < Size && a != STAT ==> ModeSet(s, m, mode).1[a] == m[a]) &&
      ModeSet(s, m, mode).1[STAT] == (m[STAT] / 4) * 4 + (if s.lcdEnabled then ModeOrdinal(mode) else 0)
    {
      ModeSetWritesStat(s, m, mode);
    }
  }

  /** STAT's mode bits agree with the mode field. */
  ghost predicate StatInSync(s: PpuState, m: seq<Byte>)
    requires |m| == Size
  {
    m[STAT] % 4 == ModeOrdinal(s.mode)
  }

  /**
   * Once STAT's mode bits agree with the mode, every step keeps them in
   * agreement (an LCD-off step restores agreement from any state).
   */
  lemma {:induction false} StepKeepsStatInSync(s: PpuState, m: seq<Byte>, cycles: int)
    requires |m| == Size && StatInSync(s, m)
    ensures StatInSync(Stepped(s, m, cycles).0, Stepped(s, m, cycles).1)
  {
    assert Wrap(LCDC) == LCDC;
    LcdEnableBit(m[LCDC]);
    if Bit(m[LCDC], 7) {
      var s0 := s.(lcdEnabled := true, cycleCounter := s.cycleCounter + cycles);
      var (s1, m1) := SelectMode(s0, m);
      assert Stepped(s, m, cycles) == EndScanline(s1, m1);
      SelectKeepsStatInSync(s0, m);
      EndKeepsStatInSync(s1, m1);
    } else {
      LcdOffStep(s, m, cycles);
      var q := m[STAT] / 4;
      assert Stepped(s, m, cycles).1[STAT] == q * 4;
    }
  }

  lemma {:induction false} SelectKeepsStatInSync(s: PpuState, m: seq<Byte>)
    requires |m| == Size && StatInSync(s, m) && s.lcdEnabled
    ensures StatInSync(SelectMode(s, m).0, SelectMode(s, m).1)
    ensures SelectMode(s, m).0.lcdEnabled
  {
    var (s1, m1) := SelectMode(s, m);
    SelectModeFrame(s, m);
    if s1.mode != s.mode {
      var q := m[STAT] / 4;
      assert m1[STAT] == q * 4 + ModeOrdinal(s1.mode);
    }
  }

  lemma {:induction false} EndKeepsStatInSync(s: PpuState, m: seq<Byte>)
    requires |m| == Size && StatInSync(s, m) && s.lcdEnabled
    ensures StatInSync(EndScanline(s, m).0, EndScanline(s, m).1)
  {
    var (s2, m2) := EndScanline(s, m);
    EndScanlineFrame(s, m);
    if s.cycleCounter >= ScanlineCycles && (m[LY] as int + 1) % 154 < 144 {
      var q := m[STAT] / 4;
      assert m2[STAT] == q * 4 + ModeOrdinal(OamScan);
    }
  }

  /**
   * A counter within one scanline stays within one scanline when a step
   * adds at most one scanline's worth of cycles.
   */
  lemma {:induction false} StepKeepsCounterInScanline(s: PpuState, m: seq<Byte>, cycles: int)
    requires |m| == Size
    requires 0 <= s.cycleCounter < ScanlineCycles && 0 <= cycles <= ScanlineCycles
    ensures 0 <= Stepped(s, m, cycles).0.cycleCounter < ScanlineCycles
  {
    if Bit(m[LCDC], 7) {
      assert Wrap(LCDC) == LCDC;
      LcdEnableBit(m[LCDC]);
      var s0 := s.(lcdEnabled := true, cycleCounter := s.cycleCounter + cycles);
      var (s1, m1) := SelectMode(s0, m);
      SelectModeFrame(s0, m);
      EndScanlineFrame(s1, m1);
    } else {
      LcdOffStep(s, m, cycles);
    }
  }

  /**
   * init leaves mode OAM scan but, because the LCD is still off when the
   * mode is written, STAT's mode bits read 0 (H-blank).
   */
  lemma {:induction false} InitLeavesStatModeClear(s: PpuState, m: seq<Byte>)
    requires |m| == Size && !s.lcdEnabled
    ensures var (s', m') := Initialised(s, m);
      s'.mode == OamScan && s'.lcdEnabled && s'.cycleCounter == s.cycleCounter &&
      m'[STAT] % 4 == 0 && m'[STAT] / 4 == m[STAT] / 4 &&
      m'[LY] == 0 && m'[LCDC] == 0x91 && m'[BGP] == 0xFC && m'[OBP0] == 0xFF && m'[OBP1] == 0xFF
  {
    assert Wrap(STAT) == STAT && Wrap(LY) == LY && Wrap(LCDC) == LCDC;
    assert Wrap(BGP) == BGP && Wrap(OBP0) == OBP0 && Wrap(OBP1) == OBP1;
    var (s1, m1) := ModeSet(s, m, OamScan);
    ModeSetWritesStat(s, m, OamScan);
    var q := m[STAT] / 4;
    assert m1[STAT] == q * 4;
    var m2 := Store(m1, LY, 0);
    var m3 := Store(m2, LCDC, 0x91);
    assert m3[STAT] == q * 4 && m3[LY] == 0;
    var m4 := Store(m3, BGP, 0xFC);
    var m5 := Store(m4, OBP0, 0xFF);
    assert m5[STAT] == q * 4 && m5[LY] == 0 && m5[LCDC] == 0x91 && m5[BGP] == 0xFC;
    var m6 := Store(m5, OBP1, 0xFF);
    assert Initialised(s, m) == (s1.(lcdEnabled := true), m6);
    assert m6[STAT] == q * 4 && m6[LY] == 0 && m6[LCDC] == 0x91 && m6[BGP] == 0xFC && m6[OBP0] == 0xFF;
  }

  // ------------------------------------------------------------ as written

  /**
   * incrementLY as the source writes it: LY comes back from readByte as a
   * signed Java byte, `(LY + 1) % 154` is Java's truncating remainder, the
   * store keeps the low byte, and the unmasked value is returned.
   */
  function LyIncrementedAsWritten(m: seq<Byte>): (r: (seq<Byte>, int))
    requires |m| == Size
    ensures |r.0| == Size
  {
    var ly := JavaRem(SignedRead(m, LY) + 1, 154);
    (Store(m, LY, ly), ly)
  }

  /**
   * The mode selection of step as written.  Its V-blank branch tests
   * `ly >= 144` on the signed read, which lies in -128..127, so only the
   * three counter branches can run.
   */
  function SelectModeAsWritten(s: PpuState, m: seq<Byte>): (r: (PpuState, seq<Byte>))
    requires |m| == Size
    ensures |r.1| == Size
  {
    if s.cycleCounter < 80 then Enter(s, m, OamScan)
    else if s.cycleCounter < 252 then Enter(s, m, Drawing)
    else if s.cycleCounter < ScanlineCycles then Enter(s, m, HBlank)
    else (s, m)
  }

  /** The end of a scanline as written, deciding on the value incrementLY returns. */
  function EndScanlineAsWritten(s: PpuState, m: seq<Byte>): (r: (PpuState, seq<Byte>))
    requires |m| == Size
    ensures |r.1| == Size
  {
    if s.cycleCounter >= ScanlineCycles then
      var s1 := s.(cycleCounter := s.cycleCounter - ScanlineCycles);
      var (m1, ly) := LyIncrementedAsWritten(m);
      if ly < 144 then ModeSet(s1, m1, OamScan) else (s1, m1)
    else
      (s, m)
  }

  /**
   * step(cycles) as written.  The LCDC test reads the same either way
   * (LcdEnableBit holds for any int), so only LY's sign makes a difference.
   */
  function SteppedAsWritten(s: PpuState, m: seq<Byte>, cycles: int): (r: (PpuState, seq<Byte>))
    requires |m| == Size
    ensures |r.1| == Size
  {
    var enabled := And(ByteAt(m, LCDC), 0x80) != 0;
    if !enabled then
      ModeSet(s.(lcdEnabled := false), Store(m, LY, 0), HBlank)
    else
      var (s1, m1) := SelectModeAsWritten(s.(lcdEnabled := true, cycleCounter := s.cycleCounter + cycles), m);
      EndScanlineAsWritten(s1, m1)
  }

  /**
   * As written, incrementLY steps LY on modulo 256, not 154, and hands back
   * a value below 144 whatever the cell holds, so from 153 LY goes on to
   * 154 where the corrected machine wraps to 0.
   */
  lemma {:induction false} LyAsWrittenCycles256(m: seq<Byte>)
    requires |m| == Size
    ensures LyIncrementedAsWritten(m).0 == m[LY := (m[LY] as int + 1) % 256]
    ensures LyIncrementedAsWritten(m).1 < 144
    ensures m[LY] == 153 ==> LyIncrementedAsWritten(m).0[LY] == 154 && LyIncremented(m)[LY] == 0
  {
    assert Wrap(LY) == LY;
    SignExtendPlusOne(m[LY]);
  }

  /**
   * As written, step never enters V-blank and never writes IF: the mode it
   * leaves is V-blank only if it already was, and IF is unchanged.
   */
  lemma {:induction false} StepAsWrittenNeverEntersVBlank(s: PpuState, m: seq<Byte>, cycles: int)
    requires |m| == Size
    ensures var (s', m') := SteppedAsWritten(s, m, cycles);
      m'[IF] == m[IF] && (s'.mode == VBlank ==> s.mode == VBlank)
  {
    assert Wrap(LY) == LY && Wrap(IF) == IF && Wrap(STAT) == STAT;
    if And(ByteAt(m, LCDC), 0x80) != 0 {
      var s0 := s.(lcdEnabled := true, cycleCounter := s.cycleCounter + cycles);
      var (s1, m1) := SelectModeAsWritten(s0, m);
      if s0.mode != OamScan { ModeSetWritesStat(s0, m, OamScan); }
      if s0.mode != Drawing { ModeSetWritesStat(s0, m, Drawing); }
      if s0.mode != HBlank { ModeSetWritesStat(s0, m, HBlank); }
      assert m1[IF] == m[IF] && s1.cycleCounter == s0.cycleCounter;
      assert s1.mode == VBlank ==> s.mode == VBlank;
      if s1.cycleCounter >= ScanlineCycles {
        var s2 := s1.(cycleCounter := s1.cycleCounter - ScanlineCycles);
        LyAsWrittenCycles256(m1);
        var (m2, ly) := LyIncrementedAsWritten(m1);
        assert m2[IF] == m[IF];
        ModeSetWritesStat(s2, m2, OamScan);
      }
    } else {
      ModeSetWritesStat(s.(lcdEnabled := false), Store(m, LY, 0), HBlank);
    }
  }

  /**
   * The step after LY reaches 144 (0x90, one scanline after 0x8F) with the
   * LCD on: the corrected step enters V-blank and sets IF bit 0, while as
   * written IF is left alone.
   */
  lemma {:induction false} VBlankLostAsWritten(s: PpuState, m: seq<Byte>, cycles: int)
    requires |m| == Size && Bit(m[LCDC], 7) && m[LY] == 0x90 && s.mode != VBlank
    ensures Bit(Stepped(s, m, cycles).1[IF], 0)
    ensures SteppedAsWritten(s, m, cycles).1[IF] == m[IF]
    ensures !Bit(m[IF], 0) ==> SteppedAsWritten(s, m, cycles).1[IF] != Stepped(s, m, cycles).1[IF]
  {
    VBlankEntry(s, m, cycles);
    StepAsWrittenNeverEntersVBlank(s, m, cycles);
  }

  class Ppu {
    var mode: PpuMode
    var cycleCounter: int
    var lcdEnabled: bool
    const mem: Memory
    const frameBuffer: FrameBuffer

    ghost predicate Valid()
      reads this, mem
    {
      mem.Valid()
    }

    function State(): PpuState
      reads this
    {
      PpuState(mode, cycleCounter, lcdEnabled)
    }

    /** PPU(memory, frameBuffer): the counter starts at 0, then init runs. */
    constructor(mem: Memory, frameBuffer: FrameBuffer)
      requires mem.Valid()
      modifies mem.cells
      ensures Valid() && this.mem == mem && this.frameBuffer == frameBuffer
      ensures (State(), mem.Contents()) ==
              Initialised(PpuState(HBlank, 0, false), old(mem.Contents()))
    {
      this.mem := mem;
      this.frameBuffer := frameBuffer;
      cycleCounter := 0;
      mode := HBlank;
      lcdEnabled := false;
      new;
      Init();
    }

    method Init()
      requires Valid()
      modifies this, mem.cells
      ensures Valid()
      ensures (State(), mem.Contents()) == Initialised(old(State()), old(mem.Contents()))
    {
      SetPpuMode(OamScan);
      lcdEnabled := true;
      mem.WriteByte(LY, 0x00);
      mem.WriteByte(LCDC, 0x91);
      mem.WriteByte(BGP, 0xFC);
      mem.WriteByte(OBP0, 0xFF);
      mem.WriteByte(OBP1, 0xFF);
    }

    method SetPpuMode(newMode: PpuMode)
      requires Valid()
      modifies this, mem.cells
      ensures Valid()
      ensures (State(), mem.Contents()) == ModeSet(old(State()), old(mem.Contents()), newMode)
    {
      ghost var m0 := mem.Contents();
      mode := newMode;
      var stat := mem.ReadByte(STAT);
      var updated := StatWithMode(stat, newMode);
      StatByteWritten(stat, newMode, lcdEnabled);
      StatWrites(m0, updated, And(updated, 0xFC), lcdEnabled, ModeStat(stat, newMode, lcdEnabled));
      mem.WriteByte(STAT, updated);
      if !lcdEnabled {
        mem.WriteByte(STAT, And(updated, 0xFC));
      }
    }

    method TriggerVBlankInterrupt()
      requires Valid()
      modifies mem.cells
      ensures mem.Contents() == VBlankTriggered(old(mem.Contents()))
    {
      var flags := mem.ReadByte(IF);
      mem.WriteByte(IF, Or(flags, 0x01));
    }

    method IncrementLY() returns (ly: int)
      requires Valid()
      modifies mem.cells
      ensures mem.Contents() == LyIncremented(old(mem.Contents()))
      ensures ly == mem.ReadByte(LY) && 0 <= ly < 154
    {
      ly := mem.ReadByte(LY);
      ly := (ly + 1) % 154;
      mem.WriteByte(LY, ly);
      assert ByteAt(mem.Contents(), LY) == ly % 256 == ly;
    }

    /** step(cycles); the scanline drawing on entry to the drawing mode is not modelled. */
    method Step(cycles: int)
      requires Valid()
      modifies this, mem.cells
      ensures Valid()
      ensures (State(), mem.Contents()) == Stepped(old(State()), old(mem.Contents()), cycles)
    {
      var lcdc := mem.ReadByte(LCDC);
      lcdEnabled := And(lcdc, 0x80) != 0;
      if !lcdEnabled {
        mem.WriteByte(LY, 0x00);
        SetPpuMode(HBlank);
        return;
      }
      var ly := mem.ReadByte(LY);
      cycleCounter := cycleCounter + cycles;
      if ly >= 144 {
        if mode != VBlank {
          SetPpuMode(VBlank);
          TriggerVBlankInterrupt();
        }
      } else if cycleCounter < 80 {
        if mode != OamScan {
          SetPpuMode(OamScan);
        }
      } else if cycleCounter < 252 {
        if mode != Drawing {
          SetPpuMode(Drawing);
        }
      } else if cycleCounter < ScanlineCycles {
        if mode != HBlank {
          SetPpuMode(HBlank);
        }
      }
      if cycleCounter >= ScanlineCycles {
        cycleCounter := cycleCounter - ScanlineCycles;
        ly := IncrementLY();
        if ly < 144 {
          SetPpuMode(OamScan);
        }
      }
    }
  }
}
