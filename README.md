# NeedyWave core, modelled in Dafny

NeedyWave simulates the 2D scalar wave equation on the GPU. The medium comes from an image: its blue channel gives the wave speed and its green channel the source mask. The program shows the field every frame and can record the rendered frames to a video. This project models the CPU-side bookkeeping of `needy_wave.py` and proves properties of it:

- **Damping map** (`damping.dfy`): the absorbing border `side_damp`. A nested `for x` / `for y` loop fills a zero-initialised `array2<real>`. Then the whole array is scaled by `DT` in place.
- **Medium maps** (`terrain.dfy`): the y-flip of the terrain image, the blue and green channels scaled by 1/255, and the all-zero initial field generations.
- **Letterbox** (`letterbox.dfy`): the four UV bounds that keep the medium's aspect ratio inside the window.
- **Ping-pong stepper and clock** (`stepper.dfy` for the value-level specification, `simulation.dfy` for the `WaveSimulation` class).
  - Each substep advances `t`, computes the source amplitude at the new `t`, renders into the previous generation and flips `current_texture`.
  - Every pass renders into a target texture of fixed size, so both generations keep the texture's h-by-w shape.
  - `Update` runs ten substeps and hands `textures[1 - current_texture]` to the visualiser. After ten passes that is the 9th pass's output. The 10th pass's output sits in `textures[current_texture]`, so the frame shown lags the newest generation by one substep.
- **Start-up checks** (`simulation.dfy`): the CFL warning predicate and the `ValueError` raised when recording is requested without a video path.
- **Capture consumer** (`capture.dfy`): `VideoWriter.run` as a sequential drain of its queue.
  - It writes every buffer before the `None` sentinel, in queue order.
  - A buffer of the wrong size raises from the reshape.
  - The encoder is released exactly once on either way out.

Floats are modelled as `real`. Two pieces of code are not part of this model: the wave-update program (`wave.frag`) and `np.sin`. The model takes them as function-typed parameters, fixed at construction. `WaveProgram` gives the value the program writes at texel (x, y) under its bindings, and `sin` is the sine. The encoder calls are recorded in a ghost log of `Write`/`Release` events.

Three facts about the source shape the model:
- **No image validation.** The source performs no check on the terrain image: an unreadable image would crash at the y-flip. The model requires a well-formed (non-empty, rectangular) image.
- **Clock first.** The source advances `t` before the pass and computes the source amplitude from the advanced time.
- **Equal aspect ratios.** When the screen and texture aspects are equal, both UV axes are the full [0, 1]. `ContentUv` states both if-and-only-ifs.

## Model

| member | source | states |
|---|---|---|
| `Damping.Min4` | needy_wave.py:146 | the result is at most each of the four arguments and equal to one of them (Python's `min`) |
| `Damping.BorderDist` | needy_wave.py:146 | the border distance is at most each of `x`, `w-1-x`, `y`, `h-1-y` and equals one of them |
| `Damping.DampProfile` | needy_wave.py:147-148 | definition: `SIDE_DAMP_MAX*(1 - d/BAND)^2` when `d < BAND = SIDE_DAMP_WIDTH/DX`, otherwise 0 (the zero fill is kept) |
| `Damping.SideDampAt` | needy_wave.py:143-150 | definition: the coefficient of the cell's border distance, scaled by `DT` |
| `Damping.SideDampGrid` | needy_wave.py:143-150 | definition: the h-by-w grid whose row y, cell x is `SideDampAt(w, h, x, y)`, the layout uploaded at line 178 |
| `Damping.ProfileRange` | needy_wave.py:147-148 | the pre-DT coefficient lies in [0, SIDE_DAMP_MAX]; it is positive exactly when `dist < SIDE_DAMP_WIDTH/DX`; it equals SIDE_DAMP_MAX at distance 0 |
| `Damping.ProfileMonotone` | needy_wave.py:147-148 | the coefficient never increases as the border distance grows |
| `Damping.SideDampZeroIff` | needy_wave.py:143-150 | a cell of the final map is 0 exactly when its border distance is at least the band width: interior cells keep the zero fill, band cells are all damped |
| `Damping.SideDampBounds` | needy_wave.py:143-150 | every damping value lies in [0, SIDE_DAMP_MAX*DT] and equals SIDE_DAMP_MAX*DT on the outermost ring |
| `Damping.SideDampMonotone` | needy_wave.py:146-150 | a cell at least as far from the border as another is damped no more than it |
| `Damping.SideDampSymmetric` | needy_wave.py:146-150 | `side_damp[y,x] = side_damp[y,w-1-x] = side_damp[h-1-y,x]` |
| `Damping.BuildSideDamp` | needy_wave.py:143-150 | the nested loop and the in-place `*= DT` leave a fresh h-by-w array whose every cell `[y,x]` is the specified damping of `(x, y)` |
| `Terrain.FlipY` | needy_wave.py:119 | definition: row y of the result is row h-1-y of the image; the row count is kept |
| `Terrain.ChannelOf` | needy_wave.py:120 | definition: the blue, green or red byte of a pixel, as `cv2.split` separates them |
| `Terrain.WaveSpeedMap` | needy_wave.py:119-137 | definition: the blue channel of the flipped image, each byte over 255 |
| `Terrain.SourceMaskMap` | needy_wave.py:119-140 | definition: the green channel of the flipped image, each byte over 255 |
| `Terrain.Normalize` | needy_wave.py:137-140 | byte/255 lies in [0,1], is 0 exactly for byte 0 and 1 exactly for byte 255 |
| `Terrain.NormalizeOrder` | needy_wave.py:137-140 | scaling by 1/255 keeps the order of the bytes and is injective |
| `Terrain.NormalizedChannel` | needy_wave.py:120-140 | a normalised channel of a w-by-h image is an h-row grid of w cells |
| `Terrain.FlipWellFormed` | needy_wave.py:119 | the y-flip keeps the image rectangular with the same width and height |
| `Terrain.FlipInvolution` | needy_wave.py:119 | flipping rows twice gives back the image |
| `Terrain.MediumMapsAt` | needy_wave.py:119-140 | row y of the speed and mask maps is row h-1-y of the image: blue/255 and green/255 respectively, both in [0,1], both maps h-by-w |
| `Terrain.ZeroGrid` | needy_wave.py:134 | the initial field data has the texture's shape |
| `Terrain.ZeroGridAt` | needy_wave.py:134 | every cell of the initial field data is exactly 0 |
| `Letterbox.ContentUv` | needy_wave.py:99-112 | the bounds are centred (`u_min+u_max = v_min+v_max = 1`) and inside [0,1]; u is full exactly when `screen_aspect <= tex_aspect`; v is full exactly when `screen_aspect >= tex_aspect`; `(u_max-u_min)*screen_aspect/(v_max-v_min) = tex_aspect` |
| `Letterbox.ContentUvUnique` | needy_wave.py:99-112 | any centred window inside the unit square that fills one axis and preserves the aspect is exactly `ContentUv` |
| `Stepper.TexPixelSize` | needy_wave.py:258 | definition: `(1/tex_width, 1/tex_height)` |
| `Stepper.SourceAmplitude` | needy_wave.py:262 | definition: `amp*sin(t*freq/(2π))` |
| `Stepper.Bindings` | needy_wave.py:264-281 | definition: currentWave is `textures[cur]`, previousWave is `textures[1-cur]`, then the speed, damping and mask maps, the amplitude at `t+DT`, the texel size, `C` and `COEFF` |
| `Stepper.Render` | needy_wave.py:264-283 | a pass into an h-by-w target yields an h-by-w grid whose texel (x, y) is the program's value at (x, y) |
| `Stepper.PassOutput` | needy_wave.py:264-283 | definition: the render of the pass's bindings into a target of the texture's size |
| `Stepper.Substep` | needy_wave.py:260-285 | a substep keeps two generations, each of the texture's h-by-w shape, and a current index in {0,1} |
| `Stepper.Substeps` | needy_wave.py:260-285 | the same holds after any number of substeps |
| `Stepper.SubstepOwnership` | needy_wave.py:261-285 | a substep binds `textures[cur]` as currentWave and `textures[1-cur]` as previousWave; it overwrites only `textures[1-cur]`, with the program's output; it leaves `textures[cur]` as it was; it sets `cur := 1-cur` and `t := t+DT` |
| `Stepper.SubstepsClock` | needy_wave.py:260-261 | after n substeps `t` has advanced by exactly `n*DT` |
| `Stepper.SubstepsParity` | needy_wave.py:260-285 | after n substeps the current index is the initial one for even n and the other one for odd n |
| `Stepper.SubstepAmplitude` | needy_wave.py:260-278 | the k-th substep binds the amplitude `amp*sin((t0+k*DT)*freq/(2π))`, so the first one uses `t0+DT` |
| `Stepper.FrameDisplaysNinthPass` | needy_wave.py:260-292 | after ten substeps the current index is back to its initial value; `textures[1-cur]`, the generation the visualiser binds, holds the 9th pass's output; the 10th pass's output is in `textures[cur]`, one substep ahead of what is shown |
| `Capture.Stops` | needy_wave.py:21-24 | definition: the loop leaves at `None`, or at a buffer whose length is not `height*width*3` (the reshape raises) |
| `Capture.Drain` | needy_wave.py:17-28 | definition: writes of the buffers before the first stopping item, then one release; the items after it stay queued; the exit is a return at `None` and a raise otherwise |
| `Capture.Produced` | needy_wave.py:316-320 | definition: one buffer per displayed frame, in order, then `None`; its length is one more than the frame count |
| `Capture.FirstStop` | needy_wave.py:19-24 | the position where the loop leaves is the first item that is the sentinel or a buffer that cannot be reshaped |
| `Capture.DrainReleasesOnce` | needy_wave.py:17-28 | on both ways out the encoder receives exactly one `release`, as its last call |
| `Capture.DrainWritesPrefix` | needy_wave.py:19-26 | the drain writes exactly the buffers before the first stopping item, in queue order, and leaves every item after it in the queue |
| `Capture.ProducedDrainsAll` | needy_wave.py:316-320 | when the render loop puts its frames and then `None`, every frame is written in order, `run` returns normally and the queue is left empty |
| `Capture.VideoWriter.constructor` | needy_wave.py:9-15 | a new writer has the given size, path and rate, an empty queue and no encoder calls |
| `Capture.VideoWriter.Put` | needy_wave.py:318-320 | an item is appended at the back of the queue |
| `Capture.VideoWriter.Run` | needy_wave.py:17-28 | the encoder calls, the remaining queue and the way out are those of `Drain` on the queue at entry |
| `Simulation.CflNumber` | needy_wave.py:76-78 | definition: `(DT/DX)^2 * C^2` |
| `Simulation.CflExceeded` | needy_wave.py:78 | definition: the CFL number is above 0.25 |
| `Simulation.ShippedParametersStable` | needy_wave.py:72-80 | with DT=0.01, DX=1, C=10 the CFL number `(DT/DX)^2*C^2` is 0.01, so no warning is issued |
| `Simulation.GridOf` | needy_wave.py:178 | the uploaded texture has the array's shape and cell values |
| `Simulation.InitTextures` | needy_wave.py:117-179 | the texture size, the aspect ratio, the speed and mask maps, the damping map and two fresh all-zero generations are as specified |
| `Simulation.WaveSimulation.Init` | needy_wave.py:31-115 | construction leaves both generations all zero, the index at 0 and the clock at 0; it derives the medium maps and the letterbox bounds; it opens a video writer exactly when recording |
| `Simulation.WaveSimulation.WavePass` | needy_wave.py:261-285 | one iteration of the substep loop changes the state exactly as `Stepper.Substep`, and both generations keep the texture's shape |
| `Simulation.WaveSimulation.Update` | needy_wave.py:257-301 | ten passes change the state as ten substeps; the index returns to its value at entry; `t` grows by `10*DT`; the visualiser is bound to `textures[1-cur]`, the speed map and the letterbox bounds; the bound generation has the texture's shape and is the 9th pass's output; both generations keep that shape |
| `Simulation.Create` | needy_wave.py:76-91 | the CFL check warns and never fails, and with the shipped parameters it issues no warning; recording without a path fails with `ValueError` exactly then; otherwise the result is a fresh, valid simulation with all-zero generations |

## Left out

- Window, context and GPU objects (GLFW, ModernGL textures, framebuffers, vertex arrays, viewports): the model keeps textures as grids of reals in a two-element array. A render pass is a single assignment to one element.
- The wave-update and visualisation programs (`wave.frag`, `visualize.frag`): they are not part of this model. The wave update is any function of its named bindings and the texel it writes, `WaveProgram`. Texture sampling, filtering and clamping at the edges belong to that program. The visualiser is represented by the bindings `Update` returns. Properties that depend on the leapfrog arithmetic are not modelled, for example "a zero field with a zero mask stays zero".
- `np.sin` is a parameter, and float32/float64 rounding is not modelled. `t` accumulates exactly, so `10*DT` per frame holds in reals and not in floats.
- Shader loading, jinja2 templating and the quad set-up (`init_shaders`, `init_quad`): file I/O and a foreign template engine.
- The consumer thread, `Queue(64)` blocking and backpressure: the model keeps only the order of the items the consumer sees. `Put` has no capacity bound.
- Colour conversion, the vertical flip and encoding of each frame (cv2): the log records the raw buffer handed to the encoder. A failure when opening the encoder or writing a frame is not modelled.
- Capture.VideoWriter.Run: requires a stopping item in the queue. Without one, the source blocks forever in `get`. The render loop always puts the sentinel last.
- Simulation.WaveSimulation.Init: requires a positive window size (window creation fails otherwise) and a video path when recording. `Simulation.Create` performs the path check and reports its failure.
- `cv2.imread` failure: the source does not check for it. The model requires a well-formed image.
- The main loop in `WaveSimulation.run`, the window-close signal, the framebuffer read-back, the click command line and the empty key callback. Only the loop's put-frames-then-sentinel protocol is modelled, as `Capture.Produced`.
- The CFL warning is returned as a value rather than emitted through the `warnings` module.
