/**
 * The input mapper of `retro_run`: each d-pad pair becomes a three-level
 * joystick axis, and the four action buttons of each player become
 * active-low bits of the sound chip's I/O port A register.
 */
module Input {
  import opened Types

  /** What the frontend reports as held for one joypad. */
  datatype Pad = Pad(left: bool, right: bool, up: bool, down: bool, a: bool, b: bool, x: bool, y: bool)

  /** `alg_jch0` / `alg_jch2`: LEFT gives the minimum, else RIGHT the maximum, else the centre. */
  function HorizontalAxis(left: bool, right: bool): (v: Byte)
    ensures v == 0x00 || v == 0x80 || v == 0xff
    ensures v == 0x00 <==> left
    ensures v == 0xff <==> !left && right
    ensures v == 0x80 <==> !left && !right
  {
    if left then 0x00 else if right then 0xff else 0x80
  }

  /** `alg_jch1` / `alg_jch3`: UP gives the maximum, else DOWN the minimum, else the centre. */
  function VerticalAxis(up: bool, down: bool): (v: Byte)
    ensures v == 0x00 || v == 0x80 || v == 0xff
    ensures v == 0xff <==> up
    ensures v == 0x00 <==> !up && down
    ensures v == 0x80 <==> !up && !down
  {
    if up then 0xff else if down then 0x00 else 0x80
  }

  /** The port A bit of button k, k < 8. */
  function Mask(k: nat): (m: bv32)
    requires k < 8
    ensures m == (1 as bv32) << k
    ensures m != 0 && m & 0xFF == m
  {
    match k
    case 0 => 0x01
    case 1 => 0x02
    case 2 => 0x04
    case 3 => 0x08
    case 4 => 0x10
    case 5 => 0x20
    case 6 => 0x40
    case _ => 0x80
  }

  /** The button wired to bit k of port A: A, B, X, Y of player 0 on bits 0-3, of player 1 on bits 4-7. */
  function ButtonHeld(p0: Pad, p1: Pad, k: nat): bool
    requires k < 8
  {
    var p := if k < 4 then p0 else p1;
    match k % 4
    case 0 => p.a
    case 1 => p.b
    case 2 => p.x
    case _ => p.y
  }

  /** One `if (held) reg &= ~m; else reg |= m;` pair of the button pass. */
  function UpdateButton(reg: bv32, m: bv32, held: bool): (r: bv32)
    ensures r & !m == reg & !m
    ensures r & m == (if held then 0 else m)
  {
    if held then reg & !m else reg | m
  }

  /** The bits of m are cleared when the button is held and set otherwise. */
  lemma UpdateButtonWrites(reg: bv32, m: bv32, held: bool)
    requires m != 0
    ensures UpdateButton(reg, m, held) & m == 0 <==> held
    ensures UpdateButton(reg, m, held) & m == m <==> !held
  {
  }

  /** The port A bits of the buttons that are held. */
  function HeldMask(p0: Pad, p1: Pad): bv32
  {
    (if p0.a then 0x01 else 0) | (if p0.b then 0x02 else 0) | (if p0.x then 0x04 else 0) | (if p0.y then 0x08 else 0) |
    (if p1.a then 0x10 else 0) | (if p1.b then 0x20 else 0) | (if p1.x then 0x40 else 0) | (if p1.y then 0x80 else 0)
  }

  /** Port A after the button pass: the low byte is the complement of the held buttons, the rest is kept. */
  function PortA(reg: bv32, p0: Pad, p1: Pad): bv32
  {
    (reg | 0xFF) & !HeldMask(p0, p1)
  }

  /** Bit k of port A is clear exactly when its button is held; bits 8 to 31 are never touched. */
  lemma PortABits(reg: bv32, p0: Pad, p1: Pad)
    ensures forall k :: 0 <= k < 8 ==> (PortA(reg, p0, p1) & Mask(k) == 0 <==> ButtonHeld(p0, p1, k))
    ensures PortA(reg, p0, p1) & 0xFFFF_FF00 == reg & 0xFFFF_FF00
  {
    forall k | 0 <= k < 8
      ensures PortA(reg, p0, p1) & Mask(k) == 0 <==> ButtonHeld(p0, p1, k)
    {
    }
  }

  /**
   * The register part-way through the button pass: the bits in `done` have
   * been written, set where the button is released and cleared where it is
   * held; every other bit still has its old value.
   */
  function Written(reg: bv32, held: bv32, done: bv32): bv32
  {
    (reg | done) & !(held & done)
  }

  /** Only buttons are ever held: HeldMask lies in the low byte. */
  lemma HeldMaskLowByte(p0: Pad, p1: Pad)
    ensures HeldMask(p0, p1) & 0xFF == HeldMask(p0, p1)
  {
  }

  /** With nothing written yet, the register is unchanged. */
  lemma WrittenNone(reg: bv32, held: bv32)
    ensures Written(reg, held, 0x00) == reg
  {
  }

  /** With the whole low byte written, held bits are clear and the rest of the low byte is set. */
  lemma WrittenLowByte(reg: bv32, held: bv32)
    requires held & 0xFF == held
    ensures Written(reg, held, 0xFF) == (reg | 0xFF) & !held
  {
  }

  /** Before the first button nothing is written; after the last, all of the low byte is. */
  lemma ButtonPassEnds(reg: bv32, p0: Pad, p1: Pad)
    ensures Written(reg, HeldMask(p0, p1), 0x00) == reg
    ensures Written(reg, HeldMask(p0, p1), 0xFF) == PortA(reg, p0, p1)
  {
    HeldMaskLowByte(p0, p1);
    WrittenNone(reg, HeldMask(p0, p1));
    WrittenLowByte(reg, HeldMask(p0, p1));
  }

  /** Each bit of HeldMask is the button wired to it. */
  lemma HeldBits(p0: Pad, p1: Pad)
    ensures HeldMask(p0, p1) & 0x01 == (if p0.a then 0x01 else 0)
    ensures HeldMask(p0, p1) & 0x02 == (if p0.b then 0x02 else 0)
    ensures HeldMask(p0, p1) & 0x04 == (if p0.x then 0x04 else 0)
    ensures HeldMask(p0, p1) & 0x08 == (if p0.y then 0x08 else 0)
    ensures HeldMask(p0, p1) & 0x10 == (if p1.a then 0x10 else 0)
    ensures HeldMask(p0, p1) & 0x20 == (if p1.b then 0x20 else 0)
    ensures HeldMask(p0, p1) & 0x40 == (if p1.x then 0x40 else 0)
    ensures HeldMask(p0, p1) & 0x80 == (if p1.y then 0x80 else 0)
  {
  }

  /**
   * One statement pair of the button pass: when the bits in `done` are
   * written and the new bit m is not among them, updating m with its button
   * writes done | m.
   */
  lemma ButtonStep(reg: bv32, held: bv32, done: bv32, done': bv32, m: bv32, h: bool)
    requires m != 0 && m & done == 0 && done' == done | m
    requires held & m == (if h then m else 0)
    ensures UpdateButton(Written(reg, held, done), m, h) == Written(reg, held, done')
  {
    assert held & done' == (held & done) | (if h then m else 0);
  }

  /**
   * The eight statement pairs of the button pass, A, B, X, Y of player 0
   * then of player 1, leave port A in the closed form PortA.
   */
  lemma ButtonPass(reg: bv32, p0: Pad, p1: Pad)
    ensures UpdateButton(UpdateButton(UpdateButton(UpdateButton(
      UpdateButton(UpdateButton(UpdateButton(UpdateButton(reg, 0x01, p0.a), 0x02, p0.b), 0x04, p0.x), 0x08, p0.y), 0x10, p1.a), 0x20, p1.b), 0x40, p1.x), 0x80, p1.y)
      == PortA(reg, p0, p1)
  {
    var held := HeldMask(p0, p1);
    HeldBits(p0, p1);
    ButtonPassEnds(reg, p0, p1);
    ButtonStep(reg, held, 0x00, 0x01, 0x01, p0.a);
    ButtonStep(reg, held, 0x01, 0x03, 0x02, p0.b);
    ButtonStep(reg, held, 0x03, 0x07, 0x04, p0.x);
    ButtonStep(reg, held, 0x07, 0x0F, 0x08, p0.y);
    ButtonStep(reg, held, 0x0F, 0x1F, 0x10, p1.a);
    ButtonStep(reg, held, 0x1F, 0x3F, 0x20, p1.b);
    ButtonStep(reg, held, 0x3F, 0x7F, 0x40, p1.x);
    ButtonStep(reg, held, 0x7F, 0xFF, 0x80, p1.y);
  }
}
