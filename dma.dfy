/**
 * OAM DMA: a write to 0xFF46 starts a copy of 160 bytes from page
 * `value * 0x100` to OAM at 0xFE00. After a two-cycle delay each tick
 * hands one (source, destination) pair to the caller, which does the copy.
 */
module Dma {
  import opened Common

  /** Bytes copied by one transfer: the whole of OAM. */
  const TransferLength: nat := 160
  /** T-cycles between the start of a transfer and its first byte. */
  const StartDelay: Byte := 2

  /** The controller's fields as one value. */
  datatype DmaState = DmaState(active: bool, byte: Byte, value: Byte, delay: Byte)

  /** A (source, destination) pair handed out by a tick. */
  type Transfer = (Word, Word)

  /** `byte` never passes 160, and stays below 160 while a transfer runs. */
  predicate Valid(s: DmaState)
  {
    s.byte <= TransferLength && (s.active ==> s.byte < TransferLength)
  }

  /** `Dma::new()` and `init`: idle, everything zero. */
  const Idle: DmaState := DmaState(false, 0, 0, 0)

  /** `start(v)`: active, from byte 0, after the two-cycle delay, from page v. */
  function Started(v: Byte): (r: DmaState)
    ensures Valid(r) && r.active && r.byte == 0 && r.delay == StartDelay && r.value == v
  {
    DmaState(true, 0, v, StartDelay)
  }

  /** `source_address`: `value << 8 | byte`, the page in the high byte and the index in the low byte. */
  function SourceAddress(s: DmaState): (r: Word)
    ensures r / 0x100 == s.value && r % 0x100 == s.byte
  {
    DivMod256(s.value, s.byte);
    s.value * 0x100 + s.byte
  }

  /** `dest_address`: `0xFE00 + byte`, inside OAM while a transfer is running. */
  function DestAddress(s: DmaState): (r: Word)
    ensures r >= 0xFE00 && r - 0xFE00 == s.byte
    ensures s.byte < TransferLength ==> Between(r, 0xFE00, 0xFE9F)
  {
    0xFE00 + s.byte
  }

  /**
   * `tick` on the state: idle does nothing; during the delay it counts down;
   * otherwise it hands out the current pair and moves to the next byte,
   * turning itself off after byte 159. The `u8` increment cannot overflow
   * when the tick reaches it.
   */
  function TickNext(s: DmaState): (r: (DmaState, Option<Transfer>))
    requires s.active && s.delay == 0 ==> s.byte < 0xFF
  {
    if !s.active then (s, None)
    else if s.delay > 0 then (s.(delay := s.delay - 1), None)
    else
      var b := s.byte + 1;
      (s.(byte := b, active := !(b >= TransferLength)), Some((SourceAddress(s), DestAddress(s))))
  }

  /** A tick keeps `Valid`, and it hands out a pair exactly when it is active and past the delay. */
  lemma TickKeepsValid(s: DmaState)
    requires Valid(s)
    ensures Valid(TickNext(s).0)
    ensures TickNext(s).1.Some? <==> s.active && s.delay == 0
    ensures TickNext(s).0.value == s.value
  {
  }

  /** `n` ticks from s: the final state and the result of each tick in order. */
  function Run(s: DmaState, n: nat): (r: (DmaState, seq<Option<Transfer>>))
    requires Valid(s)
    ensures Valid(r.0) && |r.1| == n
    decreases n
  {
    if n == 0 then (s, [])
    else
      TickKeepsValid(s);
      var (t, o) := TickNext(s);
      var (u, os) := Run(t, n - 1);
      (u, [o] + os)
  }

  /** The pair for byte i of a transfer from page v. */
  function Pair(v: Byte, i: nat): Transfer
    requires i < 0x100
  {
    (v * 0x100 + i, 0xFE00 + i)
  }

  /**
   * From byte b with no delay left, the remaining 160 - b ticks hand out the
   * pairs for bytes b .. 159 in order and leave the controller idle.
   */
  lemma {:induction false} Transfers(s: DmaState, k: nat)
    requires Valid(s) && s.active && s.delay == 0 && k == TransferLength - s.byte
    ensures Run(s, k).1 == seq(k, i requires 0 <= i < k => Some(Pair(s.value, s.byte + i)))
    ensures !Run(s, k).0.active && Run(s, k).0.byte == TransferLength && Run(s, k).0.value == s.value
    decreases k
  {
    var (t, o) := TickNext(s);
    assert o == Some(Pair(s.value, s.byte));
    if k > 1 {
      Transfers(t, k - 1);
      var rest := Run(t, k - 1).1;
      assert Run(s, k).1 == [o] + rest;
    }
  }

  /**
   * After `start(v)`: two ticks with no transfer, then exactly 160 transfers
   * from v * 0x100 + i to 0xFE00 + i in order, then the controller is idle
   * and the next tick hands out nothing.
   */
  lemma StartSequence(v: Byte)
    ensures Run(Started(v), 162).1 == [None, None] + seq(160, i requires 0 <= i < 160 => Some(Pair(v, i)))
    ensures !Run(Started(v), 162).0.active
    ensures TickNext(Run(Started(v), 162).0).1 == None
  {
    var s0 := Started(v);
    var s1 := TickNext(s0).0;
    var s2 := TickNext(s1).0;
    assert s2 == DmaState(true, 0, v, 0);
    Transfers(s2, 160);
    assert Run(s1, 161).1 == [None] + Run(s2, 160).1;
    assert Run(s0, 162).1 == [None] + Run(s1, 161).1;
  }

  /** The DMA controller. */
  class Dma {
    var active: bool
    var byte: Byte
    var value: Byte
    var delay: Byte

    function State(): DmaState
      reads this
    {
      DmaState(active, byte, value, delay)
    }

    /** `Dma::new()`. */
    constructor ()
      ensures State() == Idle
    {
      active, byte, value, delay := false, 0, 0, 0;
    }

    /** `init`: back to idle. */
    method Init()
      modifies this
      ensures State() == Idle
    {
      active := false;
      byte := 0;
      value := 0;
      delay := 0;
    }

    /** `start` (and `write`, which calls it). */
    method Start(v: Byte)
      modifies this
      ensures State() == Started(v)
    {
      value := v;
      active := true;
      byte := 0;
      delay := StartDelay;
    }

    /** `tick`: one T-cycle; returns the pair to copy, if any. */
    method Tick() returns (r: Option<Transfer>)
      requires active && delay == 0 ==> byte < 0xFF
      modifies this
      ensures (State(), r) == TickNext(old(State()))
    {
      if !active {
        return None;
      }
      if delay > 0 {
        delay := delay - 1;
        return None;
      }
      var source := SourceAddress(State());
      var dest := DestAddress(State());
      byte := byte + 1;
      if byte >= TransferLength {
        active := false;
      }
      return Some((source, dest));
    }

    /** `is_transferring`: active and past the delay. */
    predicate IsTransferring()
      reads this
    {
      active && delay == 0
    }

    /** `read`: the last page written. */
    function Read(): Byte
      reads this
    {
      value
    }
  }
}
