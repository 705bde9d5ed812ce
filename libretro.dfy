/**
 * The libretro entry points of the Vectrex frontend: cartridge load and
 * unload, and one frame of `retro_run` (input mapping, the emulation step,
 * audio conversion, video delivery). The emulator and the host are outside
 * this model; every call into them is recorded, in order, in `trace`.
 */
module Libretro {
  import opened Types
  import opened Raster
  import opened Video
  import opened Input
  import opened Audio

  /** CPU cycles of one emulation step: 1.5 MHz for 20 ms. */
  const CYCLES_PER_FRAME: int := 30000

  /** A call from the frontend into the host or the emulator. */
  datatype HostCall =
    | SetPerformanceLevel(level: int)
    | InitSound
    | ResetEmulator
    | PollInput
    | Emulate(cycles: int, axes: seq<Byte>, portA: bv32)
    | MixSound(count: int)
    | AudioSample(left: int, right: int)
    | VideoRefresh(frame: seq<bv16>, width: int, height: int, pitch: int)

  /** The game buffer the host passes to `retro_load_game`: a possibly NULL pointer and a length. */
  datatype GameInfo = GameInfo(data: Option<seq<Byte>>, size: nat)

  /**
   * `retro_load_game` accepts a non-NULL buffer of 1 to `capacity` bytes: it
   * rejects a NULL buffer, an empty one, and one too large for the cartridge.
   */
  predicate Accepts(info: GameInfo, capacity: nat)
    ensures info.data.None? ==> !Accepts(info, capacity)
    ensures info.size == 0 ==> !Accepts(info, capacity)
    ensures info.size > capacity ==> !Accepts(info, capacity)
    ensures info.data.Some? && 1 <= info.size <= capacity ==> Accepts(info, capacity)
  {
    info.data.Some? && 0 < info.size <= capacity
  }

  /** The audio callbacks of one frame: one stereo call per sample, both channels equal, in buffer order. */
  ghost function AudioCalls(samples: seq<Byte>): (calls: seq<HostCall>)
    ensures |calls| == |samples|
  {
    seq(|samples|, i requires 0 <= i < |samples| => AudioSample(Convert(samples[i]), Convert(samples[i])))
  }

  lemma AudioCallsInOrder(samples: seq<Byte>)
    ensures forall i :: 0 <= i < |samples| ==>
      AudioCalls(samples)[i].AudioSample? &&
      AudioCalls(samples)[i].left == AudioCalls(samples)[i].right == Convert(samples[i])
  {
  }

  /** The frontend context together with the emulator globals it writes. */
  class Core {
    const screen: Screen
    var soundInit: bool
    var algJch0: Byte
    var algJch1: Byte
    var algJch2: Byte
    var algJch3: Byte
    /** The sound chip registers; register 14 is I/O port A, where the buttons are wired. */
    var sndRegs: array<bv32>
    var cart: array<Byte>
    var rom: array<Byte>
    ghost var trace: seq<HostCall>

    ghost predicate Valid()
      reads this, screen
    {
      screen.Valid() && sndRegs.Length == 16 && cart != rom &&
      sndRegs as object != cart && sndRegs as object != rom
    }

    /** `retro_init`, with the emulator's cartridge and ROM areas of the given sizes. */
    constructor (cartSize: nat, romSize: nat)
      ensures Valid() && fresh(screen) && fresh(screen.framebuffer) && fresh(sndRegs) && fresh(cart) && fresh(rom)
      ensures screen.pointSize == 1 && screen.lineSize == 1 && screen.framebuffer[..] == Blank()
      ensures soundInit && cart.Length == cartSize && rom.Length == romSize
      ensures trace == [SetPerformanceLevel(1), InitSound]
    {
      screen := new Screen();
      sndRegs := new bv32[16](_ => 0);
      cart := new Byte[cartSize](_ => 0);
      rom := new Byte[romSize](_ => 0);
      algJch0, algJch1, algJch2, algJch3 := 0x80, 0x80, 0x80, 0x80;
      trace := [SetPerformanceLevel(1), InitSound];
      soundInit := true;
    }

    /**
     * `retro_load_game`: copy the BIOS into the ROM, then, if the game buffer
     * is accepted, zero the cartridge, copy the game to its start and reset.
     * The emulator reset may rewrite the sound registers and the axis
     * latches; only a rejected game is promised to leave them alone.
     */
    method LoadGame(info: GameInfo, bios: seq<Byte>) returns (ok: bool)
      requires Valid() && |bios| <= rom.Length
      requires Accepts(info, cart.Length) ==> info.size <= |info.data.value|
      modifies this`trace, rom, cart, sndRegs, this`algJch0, this`algJch1, this`algJch2, this`algJch3
      ensures Valid()
      ensures rom[..|bios|] == bios && rom[|bios|..] == old(rom[|bios|..])
      ensures ok == Accepts(info, cart.Length)
      ensures ok ==> cart[..info.size] == info.data.value[..info.size]
      ensures ok ==> forall i :: info.size <= i < cart.Length ==> cart[i] == 0
      ensures !ok ==> cart[..] == old(cart[..])
      ensures !ok ==> sndRegs[..] == old(sndRegs[..])
      ensures !ok ==> algJch0 == old(algJch0) && algJch1 == old(algJch1) && algJch2 == old(algJch2) && algJch3 == old(algJch3)
      ensures trace == old(trace) + if ok then [ResetEmulator, InitSound] else []
    {
      forall i | 0 <= i < |bios| {
        rom[i] := bios[i];
      }
      var cartSize := cart.Length;
      if info.data.Some? && info.size > 0 && info.size <= cartSize {
        forall i | 0 <= i < cartSize {
          cart[i] := 0;
        }
        forall i | 0 <= i < info.size {
          cart[i] := info.data.value[i];
        }
        trace := trace + [ResetEmulator, InitSound];
        return true;
      }
      return false;
    }

    /**
     * `retro_unload_game`: zero the whole cartridge and reset the emulator,
     * which may rewrite the sound registers and the axis latches.
     */
    method UnloadGame()
      requires Valid()
      modifies this`trace, cart, sndRegs, this`algJch0, this`algJch1, this`algJch2, this`algJch3
      ensures Valid()
      ensures forall i :: 0 <= i < cart.Length ==> cart[i] == 0
      ensures trace == old(trace) + [ResetEmulator]
    {
      forall i | 0 <= i < cart.Length {
        cart[i] := 0;
      }
      trace := trace + [ResetEmulator];
    }

    /**
     * `retro_reset`: reset the emulator, which may rewrite the sound registers
     * and the axis latches, then re-initialise the sound chip.
     */
    method Reset()
      modifies this`trace, sndRegs, this`algJch0, this`algJch1, this`algJch2, this`algJch3
      ensures trace == old(trace) + [ResetEmulator, InitSound]
    {
      trace := trace + [ResetEmulator, InitSound];
    }

    /** The input half of `retro_run`: the four axes, then the eight buttons, bit by bit. */
    method MapInput(p0: Pad, p1: Pad)
      requires Valid()
      modifies this`algJch0, this`algJch1, this`algJch2, this`algJch3, sndRegs
      ensures Valid()
      ensures algJch0 == HorizontalAxis(p0.left, p0.right) && algJch1 == VerticalAxis(p0.up, p0.down)
      ensures algJch2 == HorizontalAxis(p1.left, p1.right) && algJch3 == VerticalAxis(p1.up, p1.down)
      ensures sndRegs[14] == PortA(old(sndRegs[14]), p0, p1)
      ensures forall j :: 0 <= j < 16 && j != 14 ==> sndRegs[j] == old(sndRegs[j])
    {
      algJch0 := HorizontalAxis(p0.left, p0.right);
      algJch1 := VerticalAxis(p0.up, p0.down);
      algJch2 := HorizontalAxis(p1.left, p1.right);
      algJch3 := VerticalAxis(p1.up, p1.down);
      var reg := sndRegs[14];
      reg := UpdateButton(reg, 0x01, p0.a);
      reg := UpdateButton(reg, 0x02, p0.b);
      reg := UpdateButton(reg, 0x04, p0.x);
      reg := UpdateButton(reg, 0x08, p0.y);
      reg := UpdateButton(reg, 0x10, p1.a);
      reg := UpdateButton(reg, 0x20, p1.b);
      reg := UpdateButton(reg, 0x40, p1.x);
      reg := UpdateButton(reg, 0x80, p1.y);
      ButtonPass(old(sndRegs[14]), p0, p1);
      sndRegs[14] := reg;
    }

    /**
     * `vecx_emu(30000)`: run the emulator for one frame's worth of cycles.
     * The emulator calls back into `osint_render` every time it completes a
     * vector list; `rendered` holds those lists in the order they were
     * completed, and the frame buffer ends as the last of them drew it.
     * The emulated CPU also writes the sound chip registers; what it leaves
     * there is not part of this model, so nothing is promised about them.
     * The trace entry records the latches and port A it starts from.
     */
    method EmulateFrame(rendered: seq<seq<Vector>>, maxX: nat, maxY: nat)
      requires Valid() && maxX > 0 && maxY > 0
      requires forall j, k :: 0 <= j < |rendered| && 0 <= k < |rendered[j]| ==>
        VectorSafe(screen.pointSize, rendered[j][k], maxX, maxY)
      modifies this`trace, sndRegs, screen.framebuffer
      ensures Valid()
      ensures screen.framebuffer[..] ==
        if rendered == [] then old(screen.framebuffer[..])
        else Frame(screen.pointSize, rendered[|rendered| - 1], maxX, maxY)
      ensures trace == old(trace) + [Emulate(CYCLES_PER_FRAME, [algJch0, algJch1, algJch2, algJch3], old(sndRegs[14]))]
    {
      trace := trace + [Emulate(CYCLES_PER_FRAME, [algJch0, algJch1, algJch2, algJch3], sndRegs[14])];
      var j := 0;
      while j < |rendered|
        invariant 0 <= j <= |rendered| && Valid()
        invariant trace == old(trace) + [Emulate(CYCLES_PER_FRAME, [algJch0, algJch1, algJch2, algJch3], old(sndRegs[14]))]
        invariant screen.framebuffer[..] ==
          if j == 0 then old(screen.framebuffer[..])
          else Frame(screen.pointSize, rendered[j - 1], maxX, maxY)
      {
        screen.Render(rendered[j], maxX, maxY);
        j := j + 1;
      }
    }

    /** The audio loop of `retro_run`: every sample converted and sent to both channels, in buffer order. */
    method PlaySamples(samples: seq<Byte>)
      modifies this`trace
      ensures trace == old(trace) + AudioCalls(samples)
    {
      var i := 0;
      while i < |samples|
        invariant 0 <= i <= |samples|
        invariant trace == old(trace) + AudioCalls(samples[..i])
      {
        var s := Convert(samples[i]);
        assert AudioCalls(samples[..i + 1]) == AudioCalls(samples[..i]) + [AudioSample(s, s)];
        trace := trace + [AudioSample(s, s)];
        i := i + 1;
      }
      assert samples[..i] == samples;
    }

    /**
     * `retro_run`: poll and map the input, run the emulator for one frame
     * (during which it renders the lists in `rendered`), fetch and deliver
     * its 882 audio samples, then hand the frame buffer to the host.
     * `samples` is the block the sound chip mixes for this frame.
     */
    method Run(p0: Pad, p1: Pad, rendered: seq<seq<Vector>>, maxX: nat, maxY: nat, samples: seq<Byte>)
      requires Valid() && |samples| == SAMPLES_PER_FRAME && maxX > 0 && maxY > 0
      requires forall j, k :: 0 <= j < |rendered| && 0 <= k < |rendered[j]| ==>
        VectorSafe(screen.pointSize, rendered[j][k], maxX, maxY)
      modifies this`trace, this`algJch0, this`algJch1, this`algJch2, this`algJch3, sndRegs, screen.framebuffer
      ensures Valid()
      ensures algJch0 == HorizontalAxis(p0.left, p0.right) && algJch1 == VerticalAxis(p0.up, p0.down)
      ensures algJch2 == HorizontalAxis(p1.left, p1.right) && algJch3 == VerticalAxis(p1.up, p1.down)
      ensures screen.framebuffer[..] ==
        if rendered == [] then old(screen.framebuffer[..])
        else Frame(screen.pointSize, rendered[|rendered| - 1], maxX, maxY)
      ensures trace == old(trace)
        + [PollInput,
           Emulate(CYCLES_PER_FRAME,
             [HorizontalAxis(p0.left, p0.right), VerticalAxis(p0.up, p0.down),
              HorizontalAxis(p1.left, p1.right), VerticalAxis(p1.up, p1.down)],
             PortA(old(sndRegs[14]), p0, p1)),
           MixSound(SAMPLES_PER_FRAME)]
        + AudioCalls(samples)
        + [VideoRefresh(screen.framebuffer[..], WIDTH, HEIGHT, WIDTH * 2)]
    {
      trace := trace + [PollInput];
      MapInput(p0, p1);
      EmulateFrame(rendered, maxX, maxY);
      trace := trace + [MixSound(SAMPLES_PER_FRAME)];
      PlaySamples(samples);
      trace := trace + [VideoRefresh(screen.framebuffer[..], WIDTH, HEIGHT, WIDTH * 2)];
    }
  }
}
