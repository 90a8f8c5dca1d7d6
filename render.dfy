/**
 * `render` (src/render.rs): turns a dmabuf's metadata into the wire
 * descriptor `BufferInfo` plus one owned file descriptor per plane handle,
 * the pair handed to the camera for one frame.
 */
module Render {
  import opened Wrappers
  import opened Dmabufs

  /** The `Y_INVERT` bit of `DmabufFlags`. */
  const Y_INVERT: bv32 := 1

  datatype BufferPlaneInfo = BufferPlaneInfo(idx: u32, offset: u32, stride: u32, modifier: u64)

  datatype BufferInfo = BufferInfo(width: u32, height: u32, fourcc: u32, flags: bv32, planes: seq<BufferPlaneInfo>)

  /** A descriptor obtained by `try_clone_to_owned` from a borrowed plane handle. */
  datatype OwnedFd = Dup(source: Fd)

  /** The arguments of one `camera.render(buffer_info, fds)` call. */
  datatype Submission = Submission(info: BufferInfo, fds: seq<OwnedFd>)

  function Min(a: nat, b: nat): nat
  {
    if a <= b then a else b
  }

  /** The `as u32` cast of an index: keeps the low 32 bits. */
  function AsU32(n: nat): (r: u32)
    ensures n < 0x1_0000_0000 ==> r == n
    ensures (n - r) % 0x1_0000_0000 == 0
  {
    n % 0x1_0000_0000
  }

  /** `Iterator::zip`: pairs up elements until either side runs out. */
  function Zip<A, B>(xs: seq<A>, ys: seq<B>): (pairs: seq<(A, B)>)
    ensures |pairs| == Min(|xs|, |ys|)
    ensures forall i :: 0 <= i < |pairs| ==> pairs[i] == (xs[i], ys[i])
  {
    if xs == [] || ys == [] then []
    else [(xs[0], ys[0])] + Zip(xs[1..], ys[1..])
  }

  /**
   * `enumerate().map(...)` over zipped (stride, offset) pairs, the enumeration
   * counting from `start`: each entry becomes a plane record carrying its
   * position, its offset, its stride and the buffer's modifier.
   */
  function PlanesFrom(pairs: seq<(u32, u32)>, start: nat, modifier: u64): (planes: seq<BufferPlaneInfo>)
    ensures |planes| == |pairs|
    ensures forall i :: 0 <= i < |planes| ==>
      planes[i] == BufferPlaneInfo(AsU32(start + i), pairs[i].1, pairs[i].0, modifier)
  {
    if pairs == [] then []
    else [BufferPlaneInfo(AsU32(start), pairs[0].1, pairs[0].0, modifier)] + PlanesFrom(pairs[1..], start + 1, modifier)
  }

  /** The flag word: start from `DmabufFlags::empty()` and toggle `Y_INVERT` when the buffer is y-inverted. */
  function Flags(yInverted: bool): (bits: bv32)
    ensures (bits & Y_INVERT != 0) == yInverted
    ensures bits & !Y_INVERT == 0
  {
    var empty: bv32 := 0;
    if yInverted then empty ^ Y_INVERT else empty
  }

  /** The `BufferInfo` that `render` builds for `buffer`. */
  function Describe(buffer: Dmabuf): (info: BufferInfo)
    ensures info.width == buffer.width && info.height == buffer.height
    ensures info.fourcc == buffer.format.code
    ensures (info.flags & Y_INVERT != 0) == buffer.yInverted && info.flags & !Y_INVERT == 0
    ensures |info.planes| == Min(|buffer.strides|, |buffer.offsets|)
    ensures forall i :: 0 <= i < |info.planes| ==>
      && info.planes[i].idx == AsU32(i)
      && info.planes[i].stride == buffer.strides[i]
      && info.planes[i].offset == buffer.offsets[i]
      && info.planes[i].modifier == buffer.format.modifier
  {
    var modifier := buffer.format.modifier;
    var planes := PlanesFrom(Zip(buffer.strides, buffer.offsets), 0, modifier);
    BufferInfo(buffer.width, buffer.height, buffer.format.code, Flags(buffer.yInverted), planes)
  }

  /** One owned duplicate per plane handle, in handle order. */
  function Fds(handles: seq<Fd>): (fds: seq<OwnedFd>)
    ensures |fds| == |handles|
    ensures forall i :: 0 <= i < |fds| ==> fds[i].source == handles[i]
  {
    seq(|handles|, i requires 0 <= i < |handles| => Dup(handles[i]))
  }

  /** What `render` passes to the camera for `buffer`. */
  function Submit(buffer: Dmabuf): Submission
  {
    Submission(Describe(buffer), Fds(buffer.handles))
  }

  /**
   * The receiving side of the wire format: the dmabuf a consumer rebuilds
   * from a submission. It refuses a descriptor without planes, with planes
   * not numbered 0, 1, 2, ..., with planes that disagree on the modifier, or
   * with a flag bit other than `Y_INVERT`.
   */
  function Import(s: Submission): Option<Dmabuf>
  {
    var planes := s.info.planes;
    if planes == [] then None
    else if exists i :: 0 <= i < |planes| && (planes[i].idx != i || planes[i].modifier != planes[0].modifier) then None
    else if s.info.flags & !Y_INVERT != 0 then None
    else
      Some(Dmabuf(
        s.info.width,
        s.info.height,
        Format(s.info.fourcc, planes[0].modifier),
        seq(|planes|, i requires 0 <= i < |planes| => planes[i].stride),
        seq(|planes|, i requires 0 <= i < |planes| => planes[i].offset),
        seq(|s.fds|, i requires 0 <= i < |s.fds| => s.fds[i].source),
        s.info.flags & Y_INVERT != 0))
  }

  /**
   * The descriptor loses nothing: a buffer with as many strides as offsets
   * (at least one plane) is rebuilt exactly from what `render` submits.
   */
  lemma SubmitImportRoundTrip(buffer: Dmabuf)
    requires 0 < |buffer.strides| == |buffer.offsets| < 0x1_0000_0000
    ensures Import(Submit(buffer)) == Some(buffer)
  {
    var s := Submit(buffer);
    var planes := s.info.planes;
    assert |planes| == |buffer.strides|;
    assert forall i :: 0 <= i < |planes| ==> planes[i].idx == i;
    assert seq(|planes|, i requires 0 <= i < |planes| => planes[i].stride) == buffer.strides;
    assert seq(|planes|, i requires 0 <= i < |planes| => planes[i].offset) == buffer.offsets;
    assert seq(|s.fds|, i requires 0 <= i < |s.fds| => s.fds[i].source) == buffer.handles;
  }

  /** A buffer without strides or without offsets yields an empty plane list, which no consumer can import. */
  lemma NoPlanesNotImportable(buffer: Dmabuf)
    requires buffer.strides == [] || buffer.offsets == []
    ensures Describe(buffer).planes == []
    ensures Import(Submit(buffer)).None?
  {
  }
}
