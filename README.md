# Kullat frame exchange, modelled in Dafny

Kullat renders frames for a Stardust XR camera into GPU buffers (dmabufs) and
shows the same buffers in a preview window. Two execution contexts share a
two-slot buffer ring:

- the **display thread** (`src/winit_display.rs`) owns the window, the
  allocator and the ring. It announces itself to the consumer with
  `NewDisplay(proxy)`, sends slot 0 with `Render(buffer)`, and then reacts to
  window events: a user event ("the consumer finished the frame") moves the
  render slot to "pending present", advances the render slot round-robin and
  sends the next slot; `MainEventsCleared` blits the pending slot once;
  `Resized` drops the pending slot and reallocates both slots at the new size;
  `CloseRequested` exits;
- the **consumer task** (`src/kullat.rs`) reads those messages in order, keeps
  the latest display handle, skips frame requests that arrive before any
  handle, and otherwise renders the buffer through the camera and wakes the
  display;
- **`render`** (`src/render.rs`) turns a dmabuf's metadata into the wire
  descriptor `BufferInfo` (size, fourcc, a flag word and one record per plane)
  and one duplicated file descriptor per plane handle.

Files:

- `wrappers.dfy` — `Option` and `Result`.
- `dmabufs.dfy` — u32/u64, the `Abgr8888` fourcc and linear modifier, `Format`, `Fd`, `Dmabuf`.
- `render.dfy` — module `Render`: the descriptor builder as functions, with a
  consumer-side `Import` as its inverse and a round-trip lemma.
- `winit_display.dfy` — module `WinitDisplay`: class `Allocator`, class
  `Display` (one method per event kind, object invariant `Valid()`), the
  Vulkan device choice, and two client scenarios.
- `kullat.dfy` — module `Kullat`: the dispatch loop as a method proved against
  a reference function `Effects`, and lemmas about `Effects`.

The display's GPU work is replaced by logs: `sent` holds every channel message,
`presents` every bind–blit–swap–unbind. The ghost fields `renderSlots`,
`frames` and `presentedFrames` record which slot each `Render` named, how many
frames the consumer has finished and which finished frame each presentation
showed. `Display.Valid()` states the ring's invariants: both slots have the
window size and the selected format; the render slot is 0 or 1; a pending slot
is never the render slot and always holds the latest finished frame; the
`Render` slots run 0, 1, 0, 1, ...; `NewDisplay` is the first message; every
finished frame is presented at most once, in order; every blit copies the
whole buffer, from (0,0) to its size, onto the same rectangle of the window,
with linear filtering; every buffer the
allocator has ever produced has the selected format.

A resize reallocates both slots at once, including the slot the consumer is
rendering into. When that frame's wake arrives, the loop presents the
replacement buffer, not the one the consumer rendered into
(`WinitDisplay.ResizeWhileRendering`). The code has no format negotiation,
per-slot states, protocol-error detection or timeouts, and neither does the
model.

## Model

| member | source | states |
|---|---|---|
| `Render.Zip` | src/render.rs:14-16 | `strides.zip(offsets)` has min(#strides, #offsets) entries, and entry i pairs the i-th stride with the i-th offset |
| `Render.PlanesFrom` | src/render.rs:17-24 | `enumerate().map(...)` keeps one plane per pair, in order; plane i has index i (as u32), the pair's offset and stride, and the buffer modifier |
| `Render.AsU32` | src/render.rs:19 | the `idx as u32` cast keeps the low 32 bits: it is the identity below 2^32 and congruent to the index modulo 2^32 |
| `Render.Flags` | src/render.rs:26-29 | the flag word has the `Y_INVERT` bit set exactly when the buffer is y-inverted, and no other bit |
| `Render.Describe` | src/render.rs:13-37 | `BufferInfo` copies width, height and fourcc; its flags are as in `Flags`; its plane list has min(#strides, #offsets) entries; plane i has index i, the i-th stride and offset, and the format's modifier |
| `Render.Fds` | src/render.rs:39-42 | one owned duplicate per plane handle, in handle order |
| `Render.SubmitImportRoundTrip` | src/render.rs:13-42 | the descriptor plus fds lose nothing: a buffer with as many strides as offsets (at least one) is rebuilt exactly from what `render` submits |
| `Render.NoPlanesNotImportable` | src/render.rs:14-24 | a buffer with no strides or no offsets yields an empty plane list, which cannot be imported |
| `WinitDisplay.AsI32` | src/winit_display.rs:132-133 | the `as i32` cast of a window dimension lies in the i32 range and equals the u32 value modulo 2^32 |
| `WinitDisplay.Allocator.constructor` | src/winit_display.rs:71-76 | a new allocator has created nothing yet |
| `WinitDisplay.Allocator.CreateBuffer` | src/winit_display.rs:91-99 | `create_buffer` returns a buffer of the requested width, height, fourcc and modifier, the device's next allocation, and records it in the allocation history |
| `WinitDisplay.Display.constructor` | src/winit_display.rs:85-110 | set-up sends `NewDisplay(proxy)`, allocates both slots at the window size in `Abgr8888`/linear, starts with render slot 0 and nothing pending, and sends `Render` of slot 0; the ring invariant holds |
| `WinitDisplay.Display.UserEvent` | src/winit_display.rs:113-122 | the old render slot becomes the pending slot, the render slot advances by one modulo 2, and exactly one `Render` carrying the new render slot's buffer is sent; size, buffers and presentations are unchanged; the invariant (pending slot differs from render slot) is kept |
| `WinitDisplay.Display.MainEventsCleared` | src/winit_display.rs:123-139 | with nothing pending nothing changes; otherwise the pending slot's buffer is blitted once from (0,0)-size to (0,0)-size with linear filtering, and the pending slot is cleared; each finished frame is presented at most once, in order |
| `WinitDisplay.Display.Resized` | src/winit_display.rs:141-159 | clears the pending slot, sets the new size, and replaces both slots in place with new allocations of the new size in the selected format; the render slot and the message log are unchanged |
| `WinitDisplay.Display.CloseRequested` | src/winit_display.rs:160-162 | sets the exit flag and changes nothing else |
| `WinitDisplay.Display.Handle` | src/winit_display.rs:112-166 | per event kind, the new state of its handler: a user event makes the old render slot pending, advances the render slot modulo 2 and sends one `Render` of it; `MainEventsCleared` presents and clears the pending slot, or changes nothing; `Resized` clears the pending slot, sets the size and reallocates both slots; `CloseRequested` sets the exit flag; every other event leaves all state unchanged; only a user event sends, only `MainEventsCleared` presents, only `Resized` reallocates, only `CloseRequested` exits |
| `WinitDisplay.FrameCycle` | src/winit_display.rs:106-138 | from start-up, one finished frame and two idle iterations send slot 0 then slot 1 and present slot 0 exactly once |
| `WinitDisplay.ResizeWhileRendering` | src/winit_display.rs:113-158 | a resize while slot 0 is with the consumer replaces slot 0 immediately; the next presentation shows that replacement (the allocator's third buffer), while the consumer was sent only the first and the fourth |
| `WinitDisplay.FirstDrmDevice` | src/winit_display.rs:174-177 | picks a device with the DRM extension exactly when one exists, and it is the first such device |
| `WinitDisplay.SelectDevice` | src/winit_display.rs:169-180 | a failed instance, or no device with the DRM extension, gives `Setup`; otherwise the chosen device has the DRM extension and is one of the instance's devices |
| `Kullat.Dispatch` | src/kullat.rs:83-98 | the receive loop produces exactly the effects and the final display handle of the reference `Effects`/`Registered` over the messages in arrival order, with the optional handle as its only state |
| `Kullat.HandledInArrivalOrder` | src/kullat.rs:84-98 | handling `a` then `b` equals handling `a`, then `b` from the handle `a` left registered |
| `Kullat.UnregisteredRendersSkipped` | src/kullat.rs:89-92 | frame requests before any `NewDisplay` render nothing and wake nothing |
| `Kullat.RendersKeepDisplay` | src/kullat.rs:89-97 | frame requests never change the registered handle |
| `Kullat.LatestRegistrationWins` | src/kullat.rs:86-96 | after `NewDisplay(p)` the handle is `p` whatever came before, and a later frame request renders its buffer once and then wakes `p` |
| `Kullat.RenderThenWake` | src/kullat.rs:94-96 | the effects alternate render, wake, render, wake: every render is followed by exactly one wake (the render is taken to succeed; see the camera line under Left out) |
| `Kullat.RegisteredRendersAll` | src/kullat.rs:89-96 | with a handle registered, frame requests for buffers b0, b1, ... render each buffer in order, each followed by one wake of that handle |
| `Kullat.DisplayOutputServed` | src/kullat.rs:84-97 | the consumer serves all that a valid display has sent: `NewDisplay` comes first, so the k-th `Render` is rendered and followed by one wake of the display's proxy |

## Left out

- `src/egl.rs` is not part of this model: EGL/Wayland/X11 surface creation through foreign calls.
- `src/main.rs` is not part of this model: the async runtime, logging, thread spawn and ctrl-c handling.
- Window, EGL context and renderer set-up (`src/winit_display.rs:35-76`); the initial window size and the event-loop proxy are constructor parameters.
- GPU work: `bind`, `blit_from`, `swap_buffers` and `unbind` become one `Present` entry; `egl.resize` on a resize is not modelled.
- `WinitDisplay.Allocator.CreateBuffer`: the Vulkan allocator's choice of planes, strides, offsets, descriptors and row order is an abstract function; its failure (the `unwrap`) is not modelled, and only the one-modifier request the code makes is modelled.
- `WinitDisplay.SelectDevice`: errors of device enumeration and of `VulkanAllocator::new`, and the image usage flags, are not modelled.
- Channel semantics: capacity 2, `blocking_send` back-pressure, send failures (the `?` at set-up and the `unwrap` in the user-event handler) and the delivery of proxy wake events across threads. The channel is a sequence of messages; the consumer reads a finite sequence, and its end stands for the channel closing.
- The camera: `camera.render`, its await and its `unwrap`s, and `try_clone_to_owned` failing. Every render is taken to succeed; in the code a failure panics the consumer task before it sends the wake. `render`'s result is the `Submission` it hands over.
- Float geometry in `src/kullat.rs` (`rectangle`, `make_line_points`, `handle_head_pos`, `projection_mapped_perspective`) and the scene set-up in `Kullat::new`.
- Events after `ControlFlow::Exit`: winit stops delivering them; the model only sets the flag.
- Dmabuf width and height are u32 values; smithay stores them as i32 and casts.
