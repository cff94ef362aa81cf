/**
 * The flat 64 KiB address space: a byte array indexed by `address & 0xFFFF`,
 * little-endian word reads, and the start-up image (cartridge first, boot
 * ROM on top of it).
 *
 * Cells are modelled as 0..255.  Java's `readByte` hands back the signed
 * `byte`; see `SignedRead` below for what that changes.
 */
module Memory {
  import opened Bits
  import opened Wrappers

  type Byte = x: int | 0 <= x < 256

  /** new byte[0x10000] */
  const Size: int := 0x10000

  /** `address & 0xFFFF` */
  function Wrap(address: int): (r: int)
    ensures 0 <= r < Size
  {
    address % Size
  }

  /** readByte on a snapshot of the cells. */
  function ByteAt(m: seq<Byte>, address: int): Byte
    requires |m| == Size
  {
    m[Wrap(address)]
  }

  /** readWord on a snapshot: `(mem[a + 1] << 8) | mem[a]`. */
  function WordAt(m: seq<Byte>, address: int): (r: int)
    requires |m| == Size
    ensures r == ByteAt(m, address + 1) * 256 + ByteAt(m, address)
    ensures 0 <= r < 0x10000
  {
    OrDisjoint(ByteAt(m, address + 1), ByteAt(m, address), 8);
    Or(ByteAt(m, address + 1) * 256, ByteAt(m, address))
  }

  /** writeByte on a snapshot: stores `v & 0xFF` at `address & 0xFFFF`. */
  function Store(m: seq<Byte>, address: int, v: int): (m': seq<Byte>)
    requires |m| == Size
    ensures |m'| == Size
    ensures ByteAt(m', address) == v % 256
    ensures forall a :: 0 <= a < Size && a != Wrap(address) ==> m'[a] == m[a]
  {
    m[Wrap(address) := v % 256]
  }

  /** A second write to the same address replaces the first. */
  lemma {:induction false} StoreOverwrites(m: seq<Byte>, address: int, v: int, w: int)
    requires |m| == Size
    ensures Store(Store(m, address, v), address, w) == Store(m, address, w)
  {
    var m2, m3 := Store(Store(m, address, v), address, w), Store(m, address, w);
    assert forall a :: 0 <= a < Size ==> m2[a] == m3[a];
  }

  /** System.arraycopy(data, 0, memory, 0, data.length) on a snapshot. */
  function Overlay(m: seq<Byte>, data: seq<Byte>): (m': seq<Byte>)
    requires |data| <= |m|
    ensures |m'| == |m|
    ensures forall i :: 0 <= i < |data| ==> m'[i] == data[i]
    ensures forall i :: |data| <= i < |m| ==> m'[i] == m[i]
  {
    data + m[|data|..]
  }

  /** Addresses wrap: readByte(a) == readByte(a & 0xFFFF). */
  lemma {:induction false} AddressesWrap(m: seq<Byte>, address: int)
    requires |m| == Size
    ensures ByteAt(m, address) == ByteAt(m, Wrap(address))
    ensures ByteAt(m, address + Size) == ByteAt(m, address)
  {
    assert Wrap(Wrap(address)) == Wrap(address);
    assert (address + Size) % Size == address % Size;
  }

  /** readWord(0xFFFF) takes its high byte from address 0x0000. */
  lemma {:induction false} WordWrapsAtTop(m: seq<Byte>)
    requires |m| == Size
    ensures WordAt(m, 0xFFFF) == (m[0] as int) * 256 + m[0xFFFF]
  {
    assert Wrap(0x10000) == 0;
  }

  /** readWord of a freshly stored little-endian pair gives the word back. */
  lemma {:induction false} StoreWordThenRead(m: seq<Byte>, address: int, v: int)
    requires |m| == Size
    ensures WordAt(Store(Store(m, address, v), address + 1, v / 256), address) == v % 0x10000
  {
    var m' := Store(Store(m, address, v), address + 1, v / 256);
    assert Wrap(address + 1) != Wrap(address) by {
      if address % Size == Size - 1 {
        assert (address + 1) % Size == 0;
      } else {
        assert (address + 1) % Size == address % Size + 1;
      }
    }
    assert ByteAt(m', address) == v % 256;
    assert ByteAt(m', address + 1) == (v / 256) % 256;
    WordSplit(v);
  }

  /** A word is its high byte times 256 plus its low byte, modulo 2^16. */
  lemma WordSplit(v: int)
    ensures ((v / 256) % 256) * 256 + v % 256 == v % 0x10000
  {
    var q := v / 0x10000;
    var r := v % 0x10000;
    assert v == q * 0x10000 + r;
    DivUnique(v, 256, q * 256 + r / 256, r % 256);
    DivUnique(v / 256, 256, q, r / 256);
  }

  /**
   * readByte as written returns the signed Java byte, so a cell holding
   * 0x80..0xFF reads as a negative int.
   */
  function SignedRead(m: seq<Byte>, address: int): (r: int)
    requires |m| == Size
    ensures -128 <= r < 128
  {
    SignExtend8(ByteAt(m, address))
  }

  class Memory {
    const cells: array<Byte>

    ghost predicate Valid()
      reads this
    {
      cells.Length == Size
    }

    /** The cells as a sequence. */
    function Contents(): seq<Byte>
      reads this, cells
    {
      cells[..]
    }

    /**
     * Memory(cartridge): a zeroed array, then init().  When an image is
     * longer than the array, init throws out of the constructor; the cells
     * then hold what was copied before the throw.
     */
    constructor(cart: seq<Byte>, boot: Option<seq<Byte>>)
      ensures Valid() && fresh(cells)
      ensures |cart| <= Size && (boot.Some? ==> |boot.value| <= Size) ==>
                Contents() == StartImage(seq(Size, _ => 0), cart, boot)
      ensures |cart| > Size ==> Contents() == seq(Size, _ => 0)
      ensures |cart| <= Size && boot.Some? && |boot.value| > Size ==>
                Contents() == Overlay(seq(Size, _ => 0), cart)
    {
      cells := new Byte[Size](_ => 0);
      new;
      var ok := Init(cart, boot);
    }

    function ReadByte(address: int): Byte
      requires Valid()
      reads this, cells
    {
      ByteAt(cells[..], address)
    }

    function ReadWord(address: int): (r: int)
      requires Valid()
      reads this, cells
      ensures r == ReadByte(address + 1) * 256 + ReadByte(address)
    {
      WordAt(cells[..], address)
    }

    /** getMemoryLength */
    function Length(): (n: int)
      requires Valid()
      reads this
      ensures n == 0x10000
    {
      cells.Length
    }

    /**
     * writeByte has no definition in the memory class; it is taken to store
     * `v & 0xFF` at `address & 0xFFFF` and change nothing else.
     */
    method WriteByte(address: int, v: int)
      requires Valid()
      modifies cells
      ensures Contents() == Store(old(Contents()), address, v)
    {
      cells[Wrap(address)] := v % 256;
    }

    /**
     * init: the cartridge image is copied from address 0, then the boot ROM
     * (if its resource could be read) is copied over it.  An image longer
     * than the array makes arraycopy throw before copying anything; `ok` is
     * false then.
     */
    method Init(cart: seq<Byte>, boot: Option<seq<Byte>>) returns (ok: bool)
      requires Valid()
      modifies cells
      ensures ok == (|cart| <= Size && (boot.Some? ==> |boot.value| <= Size))
      ensures ok ==> Contents() == StartImage(old(Contents()), cart, boot)
      ensures !ok && |cart| > Size ==> Contents() == old(Contents())
      ensures !ok && |cart| <= Size ==> Contents() == Overlay(old(Contents()), cart)
    {
      if |cart| > Size {
        return false;
      }
      Copy(cart);
      if boot.Some? {
        if |boot.value| > Size {
          return false;
        }
        Copy(boot.value);
      }
      ok := true;
    }

    /** System.arraycopy(data, 0, memory, 0, data.length) */
    method Copy(data: seq<Byte>)
      requires Valid() && |data| <= Size
      modifies cells
      ensures Contents() == Overlay(old(Contents()), data)
    {
      forall i | 0 <= i < |data| {
        cells[i] := data[i];
      }
    }
  }

  /** The memory image init leaves behind. */
  function StartImage(m: seq<Byte>, cart: seq<Byte>, boot: Option<seq<Byte>>): seq<Byte>
    requires |m| == Size && |cart| <= Size
    requires boot.Some? ==> |boot.value| <= Size
  {
    var withCart := Overlay(m, cart);
    if boot.Some? then Overlay(withCart, boot.value) else withCart
  }

  /**
   * After init, boot ROM bytes win where they overlap the cartridge, the
   * cartridge shows through above the boot ROM, and cells past both keep
   * their value.
   */
  lemma {:induction false} BootRomOnTop(m: seq<Byte>, cart: seq<Byte>, boot: seq<Byte>, i: int)
    requires |m| == Size && |cart| <= Size && |boot| <= Size && 0 <= i < Size
    ensures i < |boot| ==> StartImage(m, cart, Some(boot))[i] == boot[i]
    ensures |boot| <= i < |cart| ==> StartImage(m, cart, Some(boot))[i] == cart[i]
    ensures |boot| <= i && |cart| <= i ==> StartImage(m, cart, Some(boot))[i] == m[i]
  {
  }
}

/** The fixed addresses of the I/O registers the timer, interrupt and video code use. */
module MemoryMap {
  import opened Wrappers

  const JOYP: int := 0xFF00
  const DIV: int := 0xFF04
  const TIMA: int := 0xFF05
  const TMA: int := 0xFF06
  const TAC: int := 0xFF07
  const IF: int := 0xFF0F
  const LCDC: int := 0xFF40
  const STAT: int := 0xFF41
  const SCY: int := 0xFF42
  const SCX: int := 0xFF43
  const LY: int := 0xFF44
  const LYC: int := 0xFF45
  const BGP: int := 0xFF47
  const OBP0: int := 0xFF48
  const OBP1: int := 0xFF49
  const WY: int := 0xFF4A
  const WX: int := 0xFF4B
  const IE: int := 0xFFFF

  /** The map's entries in insertion order. */
  const Entries: seq<(string, int)> := [
    ("JOYP", JOYP), ("DIV", DIV), ("TIMA", TIMA), ("TMA", TMA), ("TAC", TAC),
    ("IF", IF), ("LCDC", LCDC), ("STAT", STAT), ("SCY", SCY), ("SCX", SCX),
    ("LY", LY), ("LYC", LYC), ("BGP", BGP), ("OBP0", OBP0), ("OBP1", OBP1),
    ("WY", WY), ("WX", WX), ("IE", IE)]

  /** getMap().get(name); None for a name that is not mapped. */
  function Lookup(name: string): (r: Option<int>)
    ensures r.Some? <==> exists i :: 0 <= i < |Entries| && Entries[i].0 == name
    ensures r.Some? ==> exists i :: 0 <= i < |Entries| && Entries[i] == (name, r.value)
  {
    LookupIn(Entries, name)
  }

  function LookupIn(es: seq<(string, int)>, name: string): (r: Option<int>)
    ensures r.Some? <==> exists i :: 0 <= i < |es| && es[i].0 == name
    ensures r.Some? ==> exists i :: 0 <= i < |es| && es[i] == (name, r.value)
  {
    if es == [] then None
    else if es[0].0 == name then Some(es[0].1)
    else
      var r := LookupIn(es[1..], name);
      assert forall i :: 1 <= i < |es| ==> es[i] == es[1..][i - 1];
      r
  }

  /** Every mapped address lies in 0xFF00..0xFFFF, and no two names share one. */
  lemma {:induction false} AddressesDistinctHighPage()
    ensures forall i :: 0 <= i < |Entries| ==> 0xFF00 <= Entries[i].1 <= 0xFFFF
    ensures forall i, j :: 0 <= i < j < |Entries| ==> Entries[i].1 != Entries[j].1
    ensures forall i, j :: 0 <= i < j < |Entries| ==> Entries[i].0 != Entries[j].0
  {
  }

  /** The timer registers are consecutive, and the LCD registers occupy 0xFF40..0xFF4B. */
  lemma RegisterBlocks()
    ensures DIV == 0xFF04 && TIMA == DIV + 1 && TMA == DIV + 2 && TAC == DIV + 3
    ensures IF == 0xFF0F && IE == 0xFFFF
    ensures LCDC == 0xFF40 && WX == 0xFF4B
    ensures LCDC < STAT < SCY < SCX < LY < LYC < BGP < OBP0 < OBP1 < WY < WX
  {
  }
}
