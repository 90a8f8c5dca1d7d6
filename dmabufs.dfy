/**
 * The buffer vocabulary shared by the display thread and the consumer task:
 * machine integer widths, DRM formats and the dmabuf metadata that smithay's
 * `Dmabuf` exposes (size, format, per-plane strides and offsets, the plane
 * file descriptors and the row order).
 */
module Dmabufs {

  type u32 = x: int | 0 <= x < 0x1_0000_0000
  type u64 = x: int | 0 <= x < 0x1_0000_0000_0000_0000

  /** DRM fourcc code of `Fourcc::Abgr8888`: the characters 'A', 'B', '2', '4' packed little-endian. */
  const ABGR8888: u32 := 0x3432_4241

  /** `Modifier::Linear` (DRM_FORMAT_MOD_LINEAR): rows stored one after another, no tiling. */
  const LINEAR: u64 := 0

  /** A pixel format: fourcc code plus memory-layout modifier. */
  datatype Format = Format(code: u32, modifier: u64)

  /** An operating-system file descriptor referring to one plane's GPU memory. */
  datatype Fd = Fd(raw: nat)

  /**
   * The metadata of a GPU buffer shareable as a dmabuf. `strides`, `offsets`
   * and `handles` are the three per-plane iterators of smithay's `Buffer`;
   * they are kept as separate sequences because that is how `render` reads them.
   */
  datatype Dmabuf = Dmabuf(
    width: u32,
    height: u32,
    format: Format,
    strides: seq<u32>,
    offsets: seq<u32>,
    handles: seq<Fd>,
    yInverted: bool)
}
