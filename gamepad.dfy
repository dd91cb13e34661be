/**
 * The joypad and its JOYP register (0xFF00). Bits 5 and 4 select the action
 * buttons and the direction pad (0 = selected); bits 3-0 read 0 for each
 * line on which a selected key is held; bits 7 and 6 always read 1.
 */
module Gamepad {
  import opened Common

  /** `Button`. */
  datatype Button = A | B | Select | Start | Right | Left | Up | Down

  /** The eight key fields (true = pressed). */
  datatype Keys = Keys(a: bool, b: bool, select: bool, start: bool, right: bool, left: bool, up: bool, down: bool)

  /** No key held. */
  const Released: Keys := Keys(false, false, false, false, false, false, false, false)

  /** `is_pressed`. */
  predicate Held(k: Keys, b: Button)
  {
    match b
    case A => k.a
    case B => k.b
    case Select => k.select
    case Start => k.start
    case Right => k.right
    case Left => k.left
    case Up => k.up
    case Down => k.down
  }

  /** The field update of `set_button`. */
  function WithKey(k: Keys, b: Button, pressed: bool): Keys
  {
    match b
    case A => k.(a := pressed)
    case B => k.(b := pressed)
    case Select => k.(select := pressed)
    case Start => k.(start := pressed)
    case Right => k.(right := pressed)
    case Left => k.(left := pressed)
    case Up => k.(up := pressed)
    case Down => k.(down := pressed)
  }

  /** After the update, the key reads as set and every other key as before. */
  lemma WithKeyHeld(k: Keys, b: Button, pressed: bool, c: Button)
    ensures Held(WithKey(k, b, pressed), c) == if c == b then pressed else Held(k, c)
  {
  }

  /** A direction-pad key, selected by bit 4; the others are selected by bit 5. */
  predicate IsDirection(b: Button)
  {
    b.Right? || b.Left? || b.Up? || b.Down?
  }

  /** The JOYP line (bit 0-3) a key pulls low. */
  function Line(b: Button): (r: nat)
    ensures r < 4
  {
    match b
    case A => 0
    case Right => 0
    case B => 1
    case Left => 1
    case Select => 2
    case Up => 2
    case Start => 3
    case Down => 3
  }

  /** The action key on line n. */
  function ActionOn(n: nat): (r: Button)
    requires n < 4
    ensures !IsDirection(r) && Line(r) == n
  {
    if n == 0 then A else if n == 1 then B else if n == 2 then Select else Start
  }

  /** The direction key on line n. */
  function DirectionOn(n: nat): (r: Button)
    requires n < 4
    ensures IsDirection(r) && Line(r) == n
  {
    if n == 0 then Right else if n == 1 then Left else if n == 2 then Up else Down
  }

  /** Each key is the action or the direction key of its line. */
  lemma KeyOnLine(b: Button)
    ensures b == (if IsDirection(b) then DirectionOn(Line(b)) else ActionOn(Line(b)))
  {
  }

  /** The selection bit of a key's group is 0, which selects it. */
  predicate Selected(sel: Byte, b: Button)
  {
    !Bit(sel, if IsDirection(b) then 4 else 5)
  }

  /** Key b is held and its group is selected: it pulls its line low. */
  predicate Pulls(sel: Byte, k: Keys, b: Button)
  {
    Selected(sel, b) && Held(k, b)
  }

  /** `result &= !mask` when the key is held. */
  function Release(r: bv8, held: bool, mask: bv8): bv8
  {
    if held then r & !mask else r
  }

  /** `read` on the `bv8` view: start from `0xCF | selection` and clear the line of each selected held key. */
  function JoypBits(sel: bv8, k: Keys): bv8
  {
    var r0 := 0xCF | sel;
    var r1 := if sel & 0x20 == 0 then
        Release(Release(Release(Release(r0, k.start, 0x08), k.select, 0x04), k.b, 0x02), k.a, 0x01)
      else r0;
    if sel & 0x10 == 0 then
      Release(Release(Release(Release(r1, k.down, 0x08), k.up, 0x04), k.left, 0x02), k.right, 0x01)
    else r1
  }

  /** `read`: the JOYP byte. */
  function Joyp(sel: Byte, k: Keys): Byte
  {
    JoypBits(Bits(sel), k) as int
  }

  /**
   * What JOYP reads, bit by bit: bits 7 and 6 are 1; bits 5 and 4 are the
   * selection; a line bit is 0 exactly when the action or the direction key
   * of that line pulls it.
   */
  lemma JoypBitsRead(sel: Byte, k: Keys)
    ensures Bit(Joyp(sel, k), 7) && Bit(Joyp(sel, k), 6)
    ensures Bit(Joyp(sel, k), 5) == Bit(sel, 5) && Bit(Joyp(sel, k), 4) == Bit(sel, 4)
    ensures forall n: nat | n < 4 ::
              !Bit(Joyp(sel, k), n) <==> Pulls(sel, k, ActionOn(n)) || Pulls(sel, k, DirectionOn(n))
  {
    var x := Bits(sel);
    BitsOfByte(JoypBits(x, k));
    HighBits(x, k);
    forall n: nat | n < 4
      ensures !Bit(Joyp(sel, k), n) <==> Pulls(sel, k, ActionOn(n)) || Pulls(sel, k, DirectionOn(n))
    {
      LineBit(sel, k, n);
    }
  }

  /** One line bit of JOYP. */
  lemma LineBit(sel: Byte, k: Keys, n: nat)
    requires n < 4
    ensures !Bit(Joyp(sel, k), n) <==> Pulls(sel, k, ActionOn(n)) || Pulls(sel, k, DirectionOn(n))
  {
    var x := Bits(sel);
    JoypBit(sel, k, n);
    SelectedBits(sel, ActionOn(n));
    SelectedBits(sel, DirectionOn(n));
    if n == 0 {
      Line0(x, k);
    } else if n == 1 {
      Line1(x, k);
    } else if n == 2 {
      Line2(x, k);
    } else {
      Line3(x, k);
    }
  }

  /** Bit n of JOYP is bit n of its `bv8` view. */
  lemma JoypBit(sel: Byte, k: Keys, n: nat)
    requires n < 8
    ensures Bit(Joyp(sel, k), n) == (JoypBits(Bits(sel), k) & Mask(n) != 0)
  {
    BitsOfByte(JoypBits(Bits(sel), k));
  }

  /** A key's group is selected when its selection bit of the `bv8` view is 0. */
  lemma SelectedBits(sel: Byte, b: Button)
    ensures Selected(sel, b) == (Bits(sel) & (if IsDirection(b) then 0x10 else 0x20) == 0)
  {
  }

  /** Bits 7-4 of the view: 1, 1 and the two selection bits. */
  lemma HighBits(x: bv8, k: Keys)
    ensures JoypBits(x, k) & 0x80 != 0 && JoypBits(x, k) & 0x40 != 0
    ensures (JoypBits(x, k) & 0x20 != 0) == (x & 0x20 != 0)
    ensures (JoypBits(x, k) & 0x10 != 0) == (x & 0x10 != 0)
  {
  }

  /** Bit 0 of the view: cleared by A with bit 5 low or by Right with bit 4 low. */
  lemma Line0(x: bv8, k: Keys)
    ensures (JoypBits(x, k) & 0x01 == 0) == ((x & 0x20 == 0 && k.a) || (x & 0x10 == 0 && k.right))
  {
  }

  /** Bit 1 of the view: cleared by B with bit 5 low or by Left with bit 4 low. */
  lemma Line1(x: bv8, k: Keys)
    ensures (JoypBits(x, k) & 0x02 == 0) == ((x & 0x20 == 0 && k.b) || (x & 0x10 == 0 && k.left))
  {
  }

  /** Bit 2 of the view: cleared by Select with bit 5 low or by Up with bit 4 low. */
  lemma Line2(x: bv8, k: Keys)
    ensures (JoypBits(x, k) & 0x04 == 0) == ((x & 0x20 == 0 && k.select) || (x & 0x10 == 0 && k.up))
  {
  }

  /** Bit 3 of the view: cleared by Start with bit 5 low or by Down with bit 4 low. */
  lemma Line3(x: bv8, k: Keys)
    ensures (JoypBits(x, k) & 0x08 == 0) == ((x & 0x20 == 0 && k.start) || (x & 0x10 == 0 && k.down))
  {
  }

  /** A held key of a selected group reads 0 on its line; an unselected or released key never pulls a line. */
  lemma KeyReadsLow(sel: Byte, k: Keys, b: Button)
    ensures Pulls(sel, k, b) ==> !Bit(Joyp(sel, k), Line(b))
    ensures !Bit(Joyp(sel, k), Line(b)) ==>
              Pulls(sel, k, ActionOn(Line(b))) || Pulls(sel, k, DirectionOn(Line(b)))
  {
    JoypBitsRead(sel, k);
    KeyOnLine(b);
  }

  /** With both groups deselected (the power-on selection 0x30) JOYP reads 0xFF. */
  lemma NothingSelected(k: Keys)
    ensures Joyp(0x30, k) == 0xFF
  {
    assert Bits(0x30) == 0x30;
    assert JoypBits(0x30, k) == 0xFF;
  }

  /** `write`: only bits 5 and 4 are writable. */
  function Selection(v: Byte): (r: Byte)
    ensures Bit(r, 5) == Bit(v, 5) && Bit(r, 4) == Bit(v, 4)
    ensures forall n: nat | n < 8 && n != 4 && n != 5 :: !Bit(r, n)
  {
    SelectionBits(v);
    And(v, 0x30)
  }

  /** The `bv8` view of `v & 0x30`. */
  lemma SelectionBits(v: Byte)
    ensures Bits(And(v, 0x30)) == Bits(v) & 0x30
    ensures forall n: nat | n < 8 :: Bit(And(v, 0x30), n) == ((n == 4 || n == 5) && Bit(v, n))
  {
    assert Bits(0x30) == 0x30;
    BitsOfByte(Bits(v) & 0x30);
  }

  /** The gamepad's fields as one value. */
  datatype GamepadState = GamepadState(keys: Keys, selection: Byte, interruptRequested: bool)

  /** `Gamepad::new()` and `init`: no key held, both groups deselected, no interrupt. */
  const PowerOn: GamepadState := GamepadState(Released, 0x30, false)

  /** `set_button`: the key takes its new state; a press of a released key requests the interrupt. */
  function SetButtonNext(s: GamepadState, b: Button, pressed: bool): GamepadState
  {
    var was := Held(s.keys, b);
    s.(keys := WithKey(s.keys, b, pressed),
       interruptRequested := if pressed && !was then true else s.interruptRequested)
  }

  /**
   * The joypad interrupt is raised by a key going from released to pressed
   * and by nothing else; a raised request stays raised.
   */
  lemma InterruptOnPress(s: GamepadState, b: Button, pressed: bool)
    ensures SetButtonNext(s, b, pressed).interruptRequested <==>
            s.interruptRequested || (pressed && !Held(s.keys, b))
    ensures SetButtonNext(s, b, pressed).selection == s.selection
  {
  }

  /** Pressing an already pressed key, or releasing a key, raises no new request. */
  lemma NoInterruptWithoutEdge(s: GamepadState, b: Button, pressed: bool)
    requires !s.interruptRequested && (Held(s.keys, b) || !pressed)
    ensures !SetButtonNext(s, b, pressed).interruptRequested
  {
  }

  /** The joypad; the eight key fields are held as one `Keys` value. */
  class Gamepad {
    var keys: Keys
    var selection: Byte
    var interruptRequested: bool

    function State(): GamepadState
      reads this
    {
      GamepadState(keys, selection, interruptRequested)
    }

    /** `Gamepad::new()`. */
    constructor ()
      ensures State() == PowerOn
    {
      keys, selection, interruptRequested := Released, 0x30, false;
    }

    /** `init`. */
    method Init()
      modifies this
      ensures State() == PowerOn
    {
      keys := Released;
      selection := 0x30;
      interruptRequested := false;
    }

    /** `is_pressed`. */
    predicate IsPressed(b: Button)
      reads this
    {
      Held(keys, b)
    }

    /** `read`: JOYP from the selection and the held keys, computed as the register does. */
    method Read() returns (r: Byte)
      ensures r == Joyp(selection, keys)
    {
      var x: bv8 := 0xCF | Bits(selection);
      if Bits(selection) & 0x20 == 0 {
        if keys.start { x := x & !0x08; }
        if keys.select { x := x & !0x04; }
        if keys.b { x := x & !0x02; }
        if keys.a { x := x & !0x01; }
      }
      if Bits(selection) & 0x10 == 0 {
        if keys.down { x := x & !0x08; }
        if keys.up { x := x & !0x04; }
        if keys.left { x := x & !0x02; }
        if keys.right { x := x & !0x01; }
      }
      r := x as int;
    }

    /** `write`. */
    method Write(v: Byte)
      modifies this
      ensures State() == old(State()).(selection := Selection(v))
    {
      selection := And(v, 0x30);
    }

    /** `set_button`. */
    method SetButton(b: Button, pressed: bool)
      modifies this
      ensures State() == SetButtonNext(old(State()), b, pressed)
    {
      var wasPressed := IsPressed(b);
      keys := WithKey(keys, b, pressed);
      if pressed && !wasPressed {
        interruptRequested := true;
      }
    }

    /** `clear_interrupt`. */
    method ClearInterrupt()
      modifies this
      ensures State() == old(State()).(interruptRequested := false)
    {
      interruptRequested := false;
    }
  }
}
