# libretro-vecx frontend glue, modelled in Dafny

This project models the frame-side half of the libretro frontend of the
Vectrex emulator (`libretro/libretro.c`). That half covers:

- rasterising the emulator's vector list into a 330 x 410 RGB1555 frame
  buffer (`RGB1555`, `draw_point`, `draw_line`, `osint_render`);
- mapping two joypads onto the analog axis latches and the button bits of
  sound-chip I/O port A (`retro_run`);
- converting the sound chip's unsigned 8-bit samples into the signed 16-bit
  stereo pairs handed to the host;
- loading and unloading a cartridge;
- the order of calls one frame makes into the emulator and the host.

Everything outside this file is a parameter or an entry in a ghost call
trace. That includes the CPU, the vector generator, the AY-3-8910 sound chip
and the host callbacks.

Modules, one per file:

- `Types`: bytes and `Option`.
- `Arith`: multiplication facts used by the line proofs.
- `Raster`: the frame buffer layout, `RGB1555`, and `draw_point` as a pure
  function `Plot` on the buffer contents.
- `Bresenham`: `draw_line`'s stepping as a function `Step` on a cursor
  `(x, y, err)`, the drawn path `LinePath`, and its properties.
- `Video`: vector scaling, the whole frame `Frame`, and the class `Screen`,
  which owns the frame buffer array. `DrawPoint`, `DrawLine` and `Render`
  run the source's loops on that array and are proved equal to `Plot`,
  `PlotPath(LinePath)` and `Frame`.
- `Input`: the axis and button mapping on port A.
- `Audio`: the sample conversion.
- `Libretro`: the class `Core`, which holds the frontend context and the
  emulator globals the frontend writes. Its methods are `retro_init`,
  `retro_load_game`, `retro_unload_game`, `retro_reset` and `retro_run`.

Some behaviour of the code is kept as written:

- **The disc is measured from the wrong point.** For a point size other
  than 1, `draw_point` measures the disc from the corner `(sx, sy)` of the
  clamped box, not from the point itself. The result is a quarter disc that
  grows from the top-left corner. `InDisc` and `PlotDisc` state this rule.
- **A coordinate at the maximum lands off-screen.** `osint_render` scales a
  coordinate equal to `ALG_MAX_X` / `ALG_MAX_Y` to exactly `WIDTH` /
  `HEIGHT`, one past the last column or row (`ScaleMaxIsOffScreen`).
  A point with `x == WIDTH` and `y` above the last row still lands inside
  the buffer: it wraps to column 0 of the next row. A point with
  `y == HEIGHT`, or with `x == WIDTH` on the last row, indexes past the end
  of the buffer. So `Render` and `DrawLine` require every point they plot
  to be safe to write (`VectorSafe`, `PointSafe`). `VectorOnScreenIsSafe` shows that coordinates
  below the maxima always meet this requirement.
- **The buffer index does not check the column.** The radius-1 path
  indexes `y * WIDTH + x` without checking `x`, so an `x` past the last
  column wraps into the next row. For this reason `IndexOnScreen` goes one
  way only: an on-screen point gives an in-buffer index, not the reverse.
- **The `retro_init` clear covers only half the buffer.** Its `memset`
  clears `sizeof / sizeof[0]` bytes, which is half of it. The context is a
  zero-initialised static, so the buffer is blank at start-up anyway, and
  `osint_render` clears the whole buffer before each frame.
- **The buttons update a local copy of port A.** The eight button statements
  become eight updates (`UpdateButton`) of a local copy of port A, which is
  stored back once; a single thread cannot tell this apart from eight writes
  to the register. `ButtonPass` proves that together they equal the closed
  form `PortA`.
- **The sample conversion wraps.** It computes `(b << 8) - 0x7ff` in `int`
  and stores it in a `short`, so samples from `0x88` upwards wrap to
  negative values (`Convert`, `ConvertOrder`).

## Model

| member | source | states |
|---|---|---|
| `Raster.Rgb1555` | libretro/libretro.c:145 | the low five bits of the result are the low five bits of the intensity; an intensity below 32 appears unchanged in all three 5-bit fields, i.e. the value is col*1024 + col*32 + col (a grey) |
| `Raster.IndexOnScreen` | libretro/libretro.c:153 | the row-major index of an on-screen point lies inside the 135300-entry buffer and maps back to the same column and row |
| `Raster.IndexInverse` | libretro/libretro.c:163 | every buffer index is the row-major index of exactly one on-screen pixel |
| `Raster.DiscBox` | libretro/libretro.c:155-158 | the box lies on the screen and inside the point's psz-square; each bound moves away from x±psz / y±psz only when it is clamped to the screen edge |
| `Raster.PlotRadiusOne` | libretro/libretro.c:152-153 | with point size 1, draw_point writes RGB1555(col) at y*WIDTH+x and changes no other entry |
| `Raster.PlotDisc` | libretro/libretro.c:155-163 | with any other point size, an on-screen pixel is overwritten exactly when it is in the clamped box and within psz of the box's top-left corner; no entry outside the box changes |
| `Raster.PlotPathSnoc` | libretro/libretro.c:176-177 | plotting a path extended by one point equals plotting that point over the picture of the path |
| `Raster.PlotPathPixel` | libretro/libretro.c:176-191 | after plotting a whole path in one colour, a pixel covered by any point of the path has that colour, and a pixel covered by none keeps its old value |
| `Video.Screen.DrawPoint` | libretro/libretro.c:147-164 | the two loops of draw_point leave the buffer equal to Plot of the old contents, the point size, the point and the colour |
| `Bresenham.Setup` | libretro/libretro.c:169-173 | dx, dy are non-negative and sx, sy are unit directions such that dx steps of sx lead from x0 to x1 and dy steps of sy from y0 to y1; a direction is +1 exactly when its coordinate grows |
| `Bresenham.Step` | libretro/libretro.c:182-191 | one pass moves each coordinate by zero or one step in its direction; the error term loses dy for an x step and gains dx for a y step |
| `Bresenham.Advance` | libretro/libretro.c:182-191 | the e2 test and the two conditional updates compute exactly one Step of the cursor |
| `Bresenham.StartReachable` | libretro/libretro.c:169-173 | the initial cursor satisfies the error invariant err == dx - dy + remX*dy - remY*dx, with the whole distance left on each axis |
| `Bresenham.StepReachable` | libretro/libretro.c:182-191 | a step from a non-target cursor keeps the error invariant, moves each coordinate by 0 or one unit towards the target, and shrinks the remaining distance |
| `Bresenham.ErrorStep` | libretro/libretro.c:182-191 | under the error invariant, the x step is taken only while x has distance left, the y step only while y has, and at least one of them is taken |
| `Bresenham.WalkUnfold` | libretro/libretro.c:176-192 | the path from a cursor is that cursor's point alone at the target, otherwise that point followed by the path from the next cursor |
| `Bresenham.TraceStep` | libretro/libretro.c:176-192 | one loop turn plots the next point of LinePath; at the target the plotted prefix is the whole path, otherwise the loop state stays on the path and its measure decreases |
| `Bresenham.WalkLast` | libretro/libretro.c:179-180 | the walk ends exactly at (x1, y1) |
| `Bresenham.WalkSteps` | libretro/libretro.c:182-191 | consecutive points of the walk differ by at most one unit per axis, always towards the target |
| `Bresenham.WalkBetween` | libretro/libretro.c:176-192 | every point of the walk lies between the cursor and the target on both axes |
| `Bresenham.StepBanded` | libretro/libretro.c:182-191 | on the major axis every step moves one unit |
| `Bresenham.BandedOrder` | libretro/libretro.c:182-191 | the remaining distance on the minor axis never exceeds that on the major axis |
| `Bresenham.WalkLength` | libretro/libretro.c:176-192 | the walk has max(remX, remY) + 1 points |
| `Bresenham.WalkRow` | libretro/libretro.c:176-192 | a horizontal walk visits every column between the cursor and the target |
| `Bresenham.WalkColumn` | libretro/libretro.c:176-192 | a vertical walk visits every row between the cursor and the target |
| `Bresenham.LineEnds` | libretro/libretro.c:167-193 | draw_line's path starts at (x0, y0) and ends at (x1, y1) |
| `Bresenham.LineSteps` | libretro/libretro.c:167-193 | draw_line's path is 8-connected and monotone towards (x1, y1) |
| `Bresenham.LineInBox` | libretro/libretro.c:167-193 | every point of the path lies in the bounding box of the two endpoints |
| `Bresenham.LineOnScreen` | libretro/libretro.c:167-193 | a line between two on-screen endpoints never leaves the screen |
| `Bresenham.LineLength` | libretro/libretro.c:167-193 | the path has max(\|dx\|, \|dy\|) + 1 points, one per major-axis position |
| `Bresenham.HorizontalLine` | libretro/libretro.c:167-193 | a horizontal line covers exactly the columns between its endpoints, whichever endpoint comes first |
| `Bresenham.VerticalLine` | libretro/libretro.c:167-193 | a vertical line covers exactly the rows between its endpoints, whichever endpoint comes first |
| `Bresenham.DegenerateLine` | libretro/libretro.c:176-180 | a line from a point to itself plots that one point |
| `Video.Screen.DrawLine` | libretro/libretro.c:167-193 | the draw_line loop leaves the buffer equal to the old contents with draw_point applied along LinePath, in order |
| `Video.Scale` | libretro/libretro.c:206-209 | the scaled coordinate is the floor of raw * dim / max: r * max <= raw * dim < (r + 1) * max |
| `Video.ScaleEnds` | libretro/libretro.c:206-209 | raw 0 scales to 0 and raw == max scales to the full dimension |
| `Video.ScaleMonotonic` | libretro/libretro.c:206-209 | scaling preserves the order of coordinates |
| `Video.ScaleBelow` | libretro/libretro.c:206-209 | a raw coordinate below the maximum scales below the dimension |
| `Video.ScaleMaxIsOffScreen` | libretro/libretro.c:206-209 | a vector endpoint at (ALG_MAX_X, ALG_MAX_Y) scales to a point outside the screen and outside the buffer |
| `Video.VectorOnScreenIsSafe` | libretro/libretro.c:204-217 | a vector whose raw coordinates are below the maxima only plots points that are safe to write |
| `Video.DrawVectorPlotsBeam` | libretro/libretro.c:214-217 | a vector with the beam off plots nothing, one with equal scaled endpoints goes through draw_point once, any other through draw_line; in every case the buffer equals plotting the vector's Beam in order |
| `Video.BeamOffIsInvisible` | libretro/libretro.c:211-212 | appending a vector of intensity 128 leaves the frame unchanged |
| `Video.LastVectorWins` | libretro/libretro.c:204-218 | a pixel covered by any point the last vector of the list plots ends in that vector's colour, whatever the earlier vectors drew; every other pixel keeps the value the earlier vectors left |
| `Video.FrameOfEmptyList` | libretro/libretro.c:201 | an empty vector list renders an all-black frame |
| `Video.Screen.constructor` | libretro/libretro.c:92-94 | the frame buffer starts blank, with point and line size 1 |
| `Video.Screen.Render` | libretro/libretro.c:195-219 | osint_render leaves the buffer equal to Frame: cleared, then every vector drawn in list order |
| `Input.HorizontalAxis` | libretro/libretro.c:234-236 | the latch is 0x00 exactly when left is held, 0xff exactly when right but not left is held, and 0x80 exactly when neither is held |
| `Input.VerticalAxis` | libretro/libretro.c:238-240 | the latch is 0xff exactly when up is held, 0x00 exactly when down but not up is held, and 0x80 exactly when neither is held |
| `Input.Mask` | libretro/libretro.c:250-272 | the mask of button k is exactly bit k of port A (1 << k), a non-zero bit of the low byte |
| `Input.UpdateButtonWrites` | libretro/libretro.c:250-251 | after one button statement the masked bit is clear exactly when the button is held and set exactly when it is released (active low) |
| `Input.UpdateButton` | libretro/libretro.c:250-251 | one button statement clears the masked bits when the button is held, sets them when it is released, and leaves every bit outside the mask unchanged |
| `Input.ButtonStep` | libretro/libretro.c:250-272 | each button statement extends the set of bits already written by its own bit, without disturbing earlier ones |
| `Input.ButtonPass` | libretro/libretro.c:250-272 | the eight button statements in source order yield PortA: the low byte is the inverted held mask, the rest of the register is untouched |
| `Input.PortABits` | libretro/libretro.c:250-272 | in the final port A value, bit k is clear exactly when button k is held (k < 8), and bits 8-31 equal the old register's |
| `Libretro.Core.MapInput` | libretro/libretro.c:234-272 | all four axis latches are set from the pads, port A becomes PortA of its old value, and the other fifteen sound registers are unchanged |
| `Audio.ToShort` | libretro/libretro.c:280 | the narrowing to short lies in [-32768, 32767], agrees with its input modulo 2^16, and is the identity on values already in range |
| `Audio.Convert` | libretro/libretro.c:280 | a sample below 0x88 becomes b*256 - 0x7ff; from 0x88 up it wraps to b*256 - 0x7ff - 0x10000, which is negative |
| `Audio.ConvertOrder` | libretro/libretro.c:280 | the conversion is strictly increasing on each side of the wrap; 0 maps to -0x7ff, 0x87 to 0x7f01, 0x88 to -0x7fff |
| `Libretro.AudioCallsInOrder` | libretro/libretro.c:279-282 | the i-th audio call carries the converted i-th sample on both channels |
| `Libretro.Core.PlaySamples` | libretro/libretro.c:279-282 | the audio loop appends exactly AudioCalls of the buffer to the trace: one stereo call per sample, in order |
| `Libretro.Core.constructor` | libretro/libretro.c:87-95 | retro_init sets the performance level to 1, initialises the sound chip, marks sound as initialised, and leaves a blank buffer with point and line size 1 |
| `Libretro.Accepts` | libretro/libretro.c:120 | a NULL buffer, an empty one and one larger than the cartridge are rejected; every non-NULL buffer of 1 to capacity bytes is accepted |
| `Libretro.Core.LoadGame` | libretro/libretro.c:112-131 | the BIOS is always copied into the ROM; the game is accepted exactly when its buffer is non-NULL and 1..cart-size bytes long; then the cartridge holds the game followed by zeros, and the emulator is reset and the sound chip re-initialised, the reset being free to rewrite the sound registers and axis latches; a rejected game leaves the cartridge, sound registers, latches and trace unchanged |
| `Libretro.Core.UnloadGame` | libretro/libretro.c:133-137 | the cartridge is zeroed and the emulator reset; the reset may rewrite the sound registers and axis latches |
| `Libretro.Core.Reset` | libretro/libretro.c:139-143 | the emulator is reset, then the sound chip re-initialised; the reset may rewrite the sound registers and axis latches |
| `Libretro.Core.EmulateFrame` | libretro/libretro.c:274 | the emulation step records a 30000-cycle run starting from the current latches and port A; the osint_render calls it makes leave the buffer as Frame of the last vector list, or unchanged when it completes none; the emulated CPU may rewrite the sound registers |
| `Libretro.Core.Run` | libretro/libretro.c:224-285 | one frame polls input, sets the four latches as MapInput does, hands the emulator those latches and PortA of the old port A for a 30000-cycle run (leaving the buffer as the last rendered list drew it), mixes 882 samples, emits them converted in order as stereo pairs, then delivers that frame buffer with width 330, height 410 and pitch 660 bytes; the cartridge, ROM and sound-init flag are outside its frame |

## Left out

- The float arithmetic of `osint_render` (lines 206-209): `Video.Scale` uses exact integer floor(raw * dim / max) instead of the single-precision product `(float)raw / max * dim`. The two can differ by one unit where the float rounding crosses an integer.
- `draw_line` runs on `unsigned` coordinates. For a line running leftwards or upwards, `x1 - x0` / `y1 - y0` wrap modulo 2^32, and each step `x0 + sx` / `y0 + sy` adds 0xFFFFFFFF. `abs` recovers the distance only through the implementation-defined conversion of an out-of-range `unsigned` to `int`. The model uses exact integers: `Abs(x1 - x0)` and `x + sx` on natural coordinates. These agree with the C code under the two's-complement conversion assumed for `short` below, and wrap-around itself is not modelled.
- `vecx_emu` calls `osint_render` each time it completes a vector list. The emulator is not part of this model, so the lists it completes during one frame, and the scaling maxima `ALG_MAX_X` / `ALG_MAX_Y`, are parameters of `Libretro.Core.Run`. `Libretro.Core.EmulateFrame` renders each list with `Video.Screen.Render`, in order.
- Calls into the emulator and the sound chip are recorded in the trace. These are `vecx_emu`, `vecx_reset`, `e8910_init_sound` and `e8910_callback`. Apart from rendering, what they compute is not modelled. The methods that make them may change the emulator state those calls own: `vecx_emu` may change the sound registers, and `vecx_reset` may change the sound registers and the axis latches. Their contracts promise nothing about those values afterwards. The mixed samples of a frame are a parameter of `Run`.
- The host callbacks become trace entries. These are the environment, input poll, audio sample and video refresh callbacks. The input state callback has no trace entry: it is replaced by a per-frame joypad snapshot (`Input.Pad`), so the order in which `input_state` is queried, and the queries skipped by the `else if` chains, are not modelled.
- Savestates (`retro_serialize_size`, `retro_serialize`, `retro_unserialize`) forward to the emulator and are not modelled.
- The following are not modelled: the callback setters, `retro_get_system_info`, `retro_get_system_av_info`, `retro_api_version`, `retro_set_controller_port_device`, the cheat and memory stubs, and `retro_deinit`. They only store pointers or fill constant structures.
- `retro_init`'s `memset` of half the buffer (line 92) is not modelled. The model starts from an all-zero buffer, which is what the zero-initialised static context holds.
- `Libretro.Core.LoadGame` takes the BIOS image as a parameter that fits the ROM area. The BIOS data itself is not part of this model.
- The `short` conversion of an out-of-range `int` is implementation-defined in C. `Audio.ToShort` models the usual two's-complement truncation.
- `lineSize` is stored but unused, as in the source: `draw_line` never reads it.
