/**
 * The memory bus: routes each CPU address to the cartridge (ROM at
 * 0x0000-0x7FFF, RAM at 0xA000-0xBFFF), VRAM, work RAM and its echo at
 * 0xE000-0xFDFF, OAM (blocked while OAM DMA runs), the unusable area
 * 0xFEA0-0xFEFF, the I/O registers with IF at 0xFF0F, high RAM, and the IE
 * register at 0xFFFF.
 */
module Bus {
  import opened Common
  import Ram
  import Cart

  const VramSize: nat := 0x2000
  const OamSize: nat := 0xA0
  const IoSize: nat := 0x80

  /** The bus's backing stores and flags as one value. */
  datatype BusState = BusState(wram: seq<Byte>, hram: seq<Byte>, vram: seq<Byte>, oam: seq<Byte>, io: seq<Byte>,
                               ie: Byte, intFlags: Byte, cart: Option<Cart.CartState>, dmaActive: bool)

  /** Every fixed-size store has its size. */
  predicate WellFormed(s: BusState)
  {
    |s.wram| == Ram.WramSize && |s.hram| == Ram.HramSize && |s.vram| == VramSize && |s.oam| == OamSize && |s.io| == IoSize
  }

  /** `Bus::new()`: all memory zeroed, no cartridge, no DMA. */
  const Fresh: BusState := BusState(seq(Ram.WramSize, _ => 0), seq(Ram.HramSize, _ => 0), seq(VramSize, _ => 0),
                                    seq(OamSize, _ => 0), seq(IoSize, _ => 0), 0, 0, None, false)

  /** The backing store an address is routed to. */
  datatype Store = CartStore | VramStore | WramStore | OamStore | Unusable | IoStore | IfStore | HramStore | IeStore

  /** The routing of `read` and `write`, one range per arm. */
  function StoreOf(a: Word): Store
  {
    if a <= 0x7FFF then CartStore
    else if a <= 0x9FFF then VramStore
    else if a <= 0xBFFF then CartStore
    else if a <= 0xFDFF then WramStore
    else if a <= 0xFE9F then OamStore
    else if a <= 0xFEFF then Unusable
    else if a == 0xFF0F then IfStore
    else if a <= 0xFF7F then IoStore
    else if a <= 0xFFFE then HramStore
    else IeStore
  }

  /** The position within its store that an address names; the echo area names work RAM's. */
  function IndexOf(a: Word): nat
  {
    match StoreOf(a)
    case VramStore => a - 0x8000
    case WramStore => if a <= 0xDFFF then a - 0xC000 else a - 0xE000
    case OamStore => a - 0xFE00
    case IoStore => a - 0xFF00
    case HramStore => a - 0xFF80
    case _ => a
  }

  /** A cartridge read, or 0xFF with no cartridge inserted. */
  function CartReadOf(s: BusState, a: Word): Byte
  {
    match s.cart
    case None => 0xFF
    case Some(c) => Cart.CartRead(c, a)
  }

  /** `read`. */
  function ReadOf(s: BusState, a: Word): Byte
    requires WellFormed(s)
  {
    if a <= 0x7FFF then CartReadOf(s, a)
    else if a <= 0x9FFF then s.vram[a - 0x8000]
    else if a <= 0xBFFF then CartReadOf(s, a)
    else if a <= 0xDFFF then Ram.RegionRead(s.wram, Ram.WramBase, a)
    else if a <= 0xFDFF then Ram.RegionRead(s.wram, Ram.WramBase, a - 0x2000)
    else if a <= 0xFE9F then (if s.dmaActive then 0xFF else s.oam[a - 0xFE00])
    else if a <= 0xFEFF then 0xFF
    else if a <= 0xFF7F then (if a == 0xFF0F then Or(s.intFlags, 0xE0) else s.io[a - 0xFF00])
    else if a <= 0xFFFE then Ram.RegionRead(s.hram, Ram.HramBase, a)
    else s.ie
  }

  /** A cartridge write, dropped with no cartridge inserted. */
  function CartWriteNext(s: BusState, a: Word, v: Byte): BusState
  {
    match s.cart
    case None => s
    case Some(c) => s.(cart := Some(Cart.CartWrite(c, a, v)))
  }

  /** `write`. */
  function WriteNext(s: BusState, a: Word, v: Byte): (r: BusState)
    requires WellFormed(s)
    ensures WellFormed(r)
  {
    if a <= 0x7FFF then CartWriteNext(s, a, v)
    else if a <= 0x9FFF then s.(vram := s.vram[a - 0x8000 := v])
    else if a <= 0xBFFF then CartWriteNext(s, a, v)
    else if a <= 0xDFFF then s.(wram := Ram.RegionWrite(s.wram, Ram.WramBase, a, v))
    else if a <= 0xFDFF then s.(wram := Ram.RegionWrite(s.wram, Ram.WramBase, a - 0x2000, v))
    else if a <= 0xFE9F then (if s.dmaActive then s else s.(oam := s.oam[a - 0xFE00 := v]))
    else if a <= 0xFEFF then s
    else if a <= 0xFF7F then (if a == 0xFF0F then s.(intFlags := v) else s.(io := s.io[a - 0xFF00 := v]))
    else if a <= 0xFFFE then s.(hram := Ram.RegionWrite(s.hram, Ram.HramBase, a, v))
    else s.(ie := v)
  }

  /** `read16`: the little-endian word at a, the high byte from a + 1 (wrapping). */
  function ReadWordOf(s: BusState, a: Word): Word
    requires WellFormed(s)
  {
    ReadOf(s, AddWord(a, 1)) * 0x100 + ReadOf(s, a)
  }

  /** `write16`: the low byte at a, then the high byte at a + 1 (wrapping). */
  function WriteWordNext(s: BusState, a: Word, v: Word): (r: BusState)
    requires WellFormed(s)
    ensures WellFormed(r)
  {
    WriteNext(WriteNext(s, a, v % 0x100), AddWord(a, 1), v / 0x100)
  }

  /** Stores that read back exactly what was written. */
  predicate Plain(s: BusState, a: Word)
  {
    match StoreOf(a)
    case VramStore => true
    case WramStore => true
    case IoStore => true
    case HramStore => true
    case IeStore => true
    case OamStore => !s.dmaActive
    case _ => false
  }

  /**
   * A write is read back at its own address: plain stores give the value,
   * OAM under DMA and the unusable area give 0xFF, IF gives the value with
   * bits 5-7 set, and the cartridge decides for its own ranges.
   */
  lemma ReadAfterWrite(s: BusState, a: Word, v: Byte)
    requires WellFormed(s)
    ensures Plain(s, a) ==> ReadOf(WriteNext(s, a, v), a) == v
    ensures StoreOf(a) == OamStore && s.dmaActive ==> ReadOf(WriteNext(s, a, v), a) == 0xFF
    ensures StoreOf(a) == Unusable ==> ReadOf(WriteNext(s, a, v), a) == 0xFF
    ensures StoreOf(a) == IfStore ==> ReadOf(WriteNext(s, a, v), a) == Or(v, 0xE0)
    ensures StoreOf(a) == CartStore ==>
              ReadOf(WriteNext(s, a, v), a) == if s.cart.None? then 0xFF else Cart.CartRead(Cart.CartWrite(s.cart.value, a, v), a)
  {
  }

  /**
   * A write changes no read of any other position of any store, except
   * that one cartridge write can change every cartridge read (it may switch
   * banks).
   */
  lemma WriteSeparation(s: BusState, a: Word, b: Word, v: Byte)
    requires WellFormed(s)
    requires StoreOf(a) != StoreOf(b) || IndexOf(a) != IndexOf(b)
    requires !(StoreOf(a) == CartStore && StoreOf(b) == CartStore)
    ensures ReadOf(WriteNext(s, a, v), b) == ReadOf(s, b)
  {
  }

  /** 0xE000-0xFDFF mirrors 0xC000-0xDDFF: reads and writes go to the same work RAM byte. */
  lemma EchoMirror(s: BusState, a: Word, v: Byte)
    requires WellFormed(s) && Between(a, 0xE000, 0xFDFF)
    ensures ReadOf(s, a) == ReadOf(s, a - 0x2000)
    ensures WriteNext(s, a, v) == WriteNext(s, a - 0x2000, v)
  {
  }

  /** While OAM DMA runs, the CPU reads 0xFF from OAM and its OAM writes are dropped. */
  lemma DmaBlocksOam(s: BusState, a: Word, v: Byte)
    requires WellFormed(s) && Between(a, 0xFE00, 0xFE9F) && s.dmaActive
    ensures ReadOf(s, a) == 0xFF
    ensures WriteNext(s, a, v) == s
  {
  }

  /** 0xFEA0-0xFEFF reads 0xFF and ignores writes. */
  lemma UnusableArea(s: BusState, a: Word, v: Byte)
    requires WellFormed(s) && Between(a, 0xFEA0, 0xFEFF)
    ensures ReadOf(s, a) == 0xFF
    ensures WriteNext(s, a, v) == s
  {
  }

  /** With no cartridge, both cartridge ranges read 0xFF and ignore writes. */
  lemma NoCartridge(s: BusState, a: Word, v: Byte)
    requires WellFormed(s) && s.cart.None? && (a <= 0x7FFF || Between(a, 0xA000, 0xBFFF))
    ensures ReadOf(s, a) == 0xFF
    ensures WriteNext(s, a, v) == s
  {
  }

  /**
   * IF stores the whole written byte and reads with bits 5-7 set and bits
   * 0-4 as stored; IE stores and reads back the whole byte.
   */
  lemma InterruptRegisters(s: BusState, v: Byte)
    requires WellFormed(s)
    ensures WriteNext(s, 0xFF0F, v) == s.(intFlags := v)
    ensures forall n: nat :: n < 5 ==> (Bit(ReadOf(s, 0xFF0F), n) <==> Bit(s.intFlags, n))
    ensures forall n: nat :: 5 <= n < 8 ==> Bit(ReadOf(s, 0xFF0F), n)
    ensures WriteNext(s, 0xFFFF, v) == s.(ie := v)
    ensures ReadOf(WriteNext(s, 0xFFFF, v), 0xFFFF) == v
  {
    forall n: nat | n < 8
      ensures Bit(ReadOf(s, 0xFF0F), n) <==> Bit(s.intFlags, n) || n >= 5
    {
      OrBits(s.intFlags, 0xE0, n);
      UpperBitsMask(n);
    }
  }

  /** The bits of 0xE0 are bits 5, 6 and 7. */
  lemma UpperBitsMask(n: nat)
    requires n < 8
    ensures Bit(0xE0, n) <==> n >= 5
  {
    BitIsBitOf(0xE0, n);
  }

  /**
   * A write changes only the backing store it is routed to; the DMA flag
   * never changes.
   */
  lemma WriteFrame(s: BusState, a: Word, v: Byte)
    requires WellFormed(s)
    ensures var r := WriteNext(s, a, v);
            && (StoreOf(a) != WramStore ==> r.wram == s.wram)
            && (StoreOf(a) != HramStore ==> r.hram == s.hram)
            && (StoreOf(a) != VramStore ==> r.vram == s.vram)
            && (StoreOf(a) != OamStore ==> r.oam == s.oam)
            && (StoreOf(a) != IoStore ==> r.io == s.io)
            && (StoreOf(a) != IeStore ==> r.ie == s.ie)
            && (StoreOf(a) != IfStore ==> r.intFlags == s.intFlags)
            && (StoreOf(a) != CartStore ==> r.cart == s.cart)
            && r.dmaActive == s.dmaActive
  {
  }

  /**
   * `write16` then `read16` at an address whose two bytes are plain stores
   * gives the word back, stored little-endian: the low byte at a, the high
   * byte at a + 1.
   */
  lemma WordRoundTrip(s: BusState, a: Word, v: Word)
    requires WellFormed(s) && Plain(s, a) && Plain(s, AddWord(a, 1))
    ensures ReadOf(WriteWordNext(s, a, v), a) == v % 0x100
    ensures ReadOf(WriteWordNext(s, a, v), AddWord(a, 1)) == v / 0x100
    ensures ReadWordOf(WriteWordNext(s, a, v), a) == v
  {
    var b := AddWord(a, 1);
    var s1 := WriteNext(s, a, v % 0x100);
    ReadAfterWrite(s, a, v % 0x100);
    WriteFrame(s, a, v % 0x100);
    assert Plain(s1, b);
    ReadAfterWrite(s1, b, v / 0x100);
    WriteSeparation(s1, b, a, v / 0x100);
  }

  /** The Game Boy memory bus. */
  class Bus {
    const ram: Ram.Ram
    var ieRegister: Byte
    var intFlags: Byte
    var cart: Option<Cart.Cartridge>
    const vram: array<Byte>
    const oam: array<Byte>
    const ioRegs: array<Byte>
    var dmaActive: bool

    /** The inserted cartridge and its RAM. */
    function CartObjects(): set<object>
      reads this
    {
      if cart.Some? then {cart.value, cart.value.ram} else {}
    }

    /** The stores have their sizes, and no two of them share an array. */
    predicate Valid()
      reads this, ram
    {
      && ram.Valid()
      && vram.Length == VramSize && oam.Length == OamSize && ioRegs.Length == IoSize
      && vram != ram.wram
      && (cart.Some? ==> cart.value.ram !in {vram, oam, ioRegs, ram.wram, ram.hram})
    }

    /** The stores and flags as a value. */
    function View(): BusState
      reads this, ram, ram.wram, ram.hram, vram, oam, ioRegs, CartObjects()
    {
      BusState(ram.wram[..], ram.hram[..], vram[..], oam[..], ioRegs[..], ieRegister, intFlags,
               if cart.Some? then Some(cart.value.State()) else None, dmaActive)
    }

    /** `Bus::new()`. */
    constructor ()
      ensures Valid() && View() == Fresh
      ensures fresh(ram) && fresh(ram.wram) && fresh(ram.hram) && fresh(vram) && fresh(oam) && fresh(ioRegs)
    {
      ram := new Ram.Ram();
      ieRegister := 0;
      intFlags := 0;
      cart := None;
      vram := new Byte[VramSize](_ => 0);
      oam := new Byte[OamSize](_ => 0);
      ioRegs := new Byte[IoSize](_ => 0);
      dmaActive := false;
    }

    /** `load_cartridge`. */
    method LoadCartridge(c: Cart.Cartridge)
      requires Valid() && c.ram !in {vram, oam, ioRegs, ram.wram, ram.hram}
      modifies this
      ensures Valid() && View() == old(View()).(cart := Some(c.State()))
    {
      cart := Some(c);
    }

    /** `set_dma_active`. */
    method SetDmaActive(active: bool)
      modifies this
      ensures View() == old(View()).(dmaActive := active)
    {
      dmaActive := active;
    }

    /** `is_dma_active`. */
    predicate IsDmaActive()
      reads this
    {
      dmaActive
    }

    /** `read`: the address dispatch over the components. */
    function Read(a: Word): (r: Byte)
      reads this, ram, ram.wram, ram.hram, vram, oam, ioRegs, CartObjects()
      requires Valid()
      ensures r == ReadOf(View(), a)
    {
      if a <= 0x7FFF then (if cart.Some? then cart.value.Read(a) else 0xFF)
      else if a <= 0x9FFF then vram[a - 0x8000]
      else if a <= 0xBFFF then (if cart.Some? then cart.value.Read(a) else 0xFF)
      else if a <= 0xDFFF then ram.WramRead(a)
      else if a <= 0xFDFF then ram.WramRead(a - 0x2000)
      else if a <= 0xFE9F then (if dmaActive then 0xFF else oam[a - 0xFE00])
      else if a <= 0xFEFF then 0xFF
      else if a <= 0xFF7F then (if a == 0xFF0F then Or(intFlags, 0xE0) else ioRegs[a - 0xFF00])
      else if a <= 0xFFFE then ram.HramRead(a)
      else ieRegister
    }

    /** `write`: the address dispatch over the components. */
    method Write(a: Word, v: Byte)
      requires Valid()
      modifies this, ram.wram, ram.hram, vram, oam, ioRegs, CartObjects()
      ensures Valid() && cart == old(cart)
      ensures View() == WriteNext(old(View()), a, v)
    {
      if a <= 0x7FFF || Between(a, 0xA000, 0xBFFF) {
        if cart.Some? {
          cart.value.Write(a, v);
        }
      } else if a <= 0x9FFF {
        vram[a - 0x8000] := v;
      } else if a <= 0xDFFF {
        ram.WramWrite(a, v);
      } else if a <= 0xFDFF {
        ram.WramWrite(a - 0x2000, v);
      } else if a <= 0xFE9F {
        if !dmaActive {
          oam[a - 0xFE00] := v;
        }
      } else if a <= 0xFEFF {
      } else if a <= 0xFF7F {
        if a == 0xFF0F {
          intFlags := v;
        } else {
          ioRegs[a - 0xFF00] := v;
        }
      } else if a <= 0xFFFE {
        ram.HramWrite(a, v);
      } else {
        ieRegister := v;
      }
    }

    /** `read16`. */
    function Read16(a: Word): (r: Word)
      reads this, ram, ram.wram, ram.hram, vram, oam, ioRegs, CartObjects()
      requires Valid()
      ensures r == ReadWordOf(View(), a)
    {
      Read(AddWord(a, 1)) * 0x100 + Read(a)
    }

    /** `write16`: the low byte first. */
    method Write16(a: Word, v: Word)
      requires Valid()
      modifies this, ram.wram, ram.hram, vram, oam, ioRegs, CartObjects()
      ensures Valid() && cart == old(cart)
      ensures View() == WriteWordNext(old(View()), a, v)
    {
      Write(a, v % 0x100);
      Write(AddWord(a, 1), v / 0x100);
    }
  }
}
