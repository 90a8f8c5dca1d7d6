/**
 * The display thread (src/winit_display.rs): a window whose event loop
 * cycles two dmabufs between the consumer, which renders into them, and the
 * window, which shows the latest finished one.
 */
module WinitDisplay {
  import opened Wrappers
  import opened Dmabufs

  /** The ring has two slots (`[Dmabuf; 2]`). */
  const SLOTS: nat := 2

  /** The one format every buffer is allocated with (no negotiation takes place). */
  const SELECTED_FORMAT: Format := Format(ABGR8888, LINEAR)

  /** An `EventLoopProxy<()>`: a handle through which another thread wakes this event loop. */
  datatype Proxy = Proxy(id: nat)

  /** What the display thread sends to the consumer over the channel. */
  datatype WinitDisplayMessage = NewDisplay(proxy: Proxy) | Render(buffer: Dmabuf)

  /** A window's inner size in physical pixels. */
  datatype Size = Size(width: u32, height: u32)

  /** `Rectangle::from_loc_and_size(loc, size)` in i32 coordinates. */
  datatype Rectangle = Rectangle(x: int, y: int, width: int, height: int)

  datatype TextureFilter = Linear | Nearest

  /** One presentation: bind the window surface, blit `buffer` onto it, swap, unbind. */
  datatype Present = Present(buffer: Dmabuf, src: Rectangle, dst: Rectangle, filter: TextureFilter)

  /** The events the loop reacts to; `OtherWindowEvent` and `Other` stand for every event it ignores. */
  datatype Event =
    | UserEvent
    | MainEventsCleared
    | Resized(newSize: Size)
    | CloseRequested
    | OtherWindowEvent
    | Other

  /** The per-plane part of a dmabuf, chosen by the allocating device. */
  datatype PlaneLayout = PlaneLayout(strides: seq<u32>, offsets: seq<u32>, handles: seq<Fd>, yInverted: bool)

  /** The `as i32` cast: the same 32 bits read as a two's-complement integer. */
  function AsI32(x: u32): (r: int)
    ensures -0x8000_0000 <= r < 0x8000_0000
    ensures (x - r) % 0x1_0000_0000 == 0
  {
    if x < 0x8000_0000 then x else x - 0x1_0000_0000
  }

  /** The blit rectangle: origin (0, 0), extent the window size cast to i32. */
  function FullRect(size: Size): Rectangle
  {
    Rectangle(0, 0, AsI32(size.width), AsI32(size.height))
  }

  /** Whether `b` is a buffer of the window size `size` in the selected format. */
  predicate Fits(b: Dmabuf, size: Size)
  {
    b.width == size.width && b.height == size.height && b.format == SELECTED_FORMAT
  }

  /** The buffer that a device with plane layout `layout` yields for its `n`-th creation with these arguments. */
  function Allocated(layout: (u32, u32, Format, nat) -> PlaneLayout, width: u32, height: u32, format: Format, n: nat): Dmabuf
  {
    var l := layout(width, height, format, n);
    Dmabuf(width, height, format, l.strides, l.offsets, l.handles, l.yInverted)
  }

  /**
   * The dmabuf allocator over a Vulkan device. Which planes, strides, offsets
   * and descriptors a buffer gets is the device's business: `layout` gives
   * them for the `n`-th buffer created with a given size and format.
   */
  class Allocator {
    const layout: (u32, u32, Format, nat) -> PlaneLayout
    var created: nat
    ghost var history: seq<Dmabuf>

    constructor (layout: (u32, u32, Format, nat) -> PlaneLayout)
      ensures this.layout == layout && created == 0 && history == []
    {
      this.layout := layout;
      created := 0;
      history := [];
    }

    /** `create_buffer(width, height, code, &[modifier])`; its `unwrap` is taken to succeed. */
    method CreateBuffer(width: u32, height: u32, code: u32, modifier: u64) returns (buffer: Dmabuf)
      modifies this
      ensures buffer == Allocated(layout, width, height, Format(code, modifier), old(created))
      ensures buffer.width == width && buffer.height == height && buffer.format == Format(code, modifier)
      ensures created == old(created) + 1
      ensures history == old(history) + [buffer]
    {
      buffer := Allocated(layout, width, height, Format(code, modifier), created);
      created := created + 1;
      history := history + [buffer];
    }
  }

  /**
   * The state captured by the event-loop closure of `start`: the ring of
   * buffers, the slot the consumer renders into, the slot waiting to be
   * presented, the window size, the allocator and the loop's exit request;
   * plus what the loop has emitted: the channel messages and the presentations.
   */
  class Display {
    const proxy: Proxy
    const allocator: Allocator
    const buffers: array<Dmabuf>
    var size: Size
    var bufferToRender: nat
    var bufferToPresent: Option<nat>
    var exit: bool
    var sent: seq<WinitDisplayMessage>
    var presents: seq<Present>

    /** The slot of every `Render` sent so far, in order. */
    ghost var renderSlots: seq<nat>
    /** How many frames the consumer has reported finished (`UserEvent`s). */
    ghost var frames: nat
    /** Which finished frame (counting from 0) each presentation showed. */
    ghost var presentedFrames: seq<nat>

    ghost predicate Valid()
      reads this, buffers, allocator
    {
      // the ring: two slots of the window size and the selected format
      && buffers.Length == SLOTS
      && (forall i :: 0 <= i < buffers.Length ==> Fits(buffers[i], size))
      && (forall b :: b in allocator.history ==> b.format == SELECTED_FORMAT)
      // the two indices
      && bufferToRender < SLOTS
      && (bufferToPresent.Some? ==> bufferToPresent.value < SLOTS && bufferToPresent.value != bufferToRender)
      // the Render messages go to slots 0, 1, 0, 1, ...: one at start, one per finished frame
      && |renderSlots| == frames + 1
      && (forall k :: 0 <= k < |renderSlots| ==> renderSlots[k] == k % SLOTS)
      && renderSlots[frames] == bufferToRender
      && |sent| == |renderSlots| + 1
      && sent[0] == NewDisplay(proxy)
      && (forall k :: 1 <= k < |sent| ==> sent[k].Render?)
      // the pending slot holds the latest finished frame
      && (bufferToPresent.Some? ==> frames > 0 && bufferToPresent.value == (frames - 1) % SLOTS)
      // every finished frame is shown at most once, in order, and a pending one has not been shown yet
      && |presentedFrames| == |presents|
      && (forall j, k :: 0 <= j < k < |presentedFrames| ==> presentedFrames[j] < presentedFrames[k])
      && (forall j :: 0 <= j < |presentedFrames| ==> presentedFrames[j] < frames)
      && (bufferToPresent.Some? ==> forall j :: 0 <= j < |presentedFrames| ==> presentedFrames[j] < frames - 1)
      // every blit copies a whole selected-format buffer onto the whole window
      && (forall j :: 0 <= j < |presents| ==>
            && presents[j].src == presents[j].dst
            && presents[j].src == FullRect(Size(presents[j].buffer.width, presents[j].buffer.height))
            && presents[j].filter == Linear
            && presents[j].buffer.format == SELECTED_FORMAT)
    }

    /**
     * The set-up part of `start`: announce the display, allocate both slots at
     * the window size, and hand slot 0 to the consumer.
     */
    constructor (windowSize: Size, proxy: Proxy, allocator: Allocator)
      requires allocator.history == []
      modifies allocator
      ensures Valid() && fresh(buffers)
      ensures this.proxy == proxy && this.allocator == allocator && size == windowSize
      ensures bufferToRender == 0 && bufferToPresent == None && !exit
      ensures allocator.created == old(allocator.created) + SLOTS
      ensures forall i :: 0 <= i < SLOTS ==>
        buffers[i] == Allocated(allocator.layout, windowSize.width, windowSize.height, SELECTED_FORMAT, old(allocator.created) + i)
      ensures sent == [NewDisplay(proxy), Render(buffers[0])]
      ensures presents == [] && renderSlots == [0] && frames == 0
    {
      var announced := [NewDisplay(proxy)];
      var first := allocator.CreateBuffer(windowSize.width, windowSize.height, SELECTED_FORMAT.code, SELECTED_FORMAT.modifier);
      var second := allocator.CreateBuffer(windowSize.width, windowSize.height, SELECTED_FORMAT.code, SELECTED_FORMAT.modifier);
      this.proxy := proxy;
      this.allocator := allocator;
      buffers := new Dmabuf[SLOTS][first, second];
      size := windowSize;
      bufferToPresent := None;
      bufferToRender := 0;
      exit := false;
      sent := announced + [Render(first)];
      presents := [];
      renderSlots := [0];
      frames := 0;
      presentedFrames := [];
    }

    /**
     * `Event::UserEvent`: the consumer finished the frame in the render slot.
     * That slot becomes the one to present, the next slot becomes the render
     * slot, and its buffer is sent to the consumer.
     */
    method UserEvent()
      requires Valid()
      modifies this
      ensures Valid()
      ensures bufferToPresent == Some(old(bufferToRender))
      ensures bufferToRender == (old(bufferToRender) + 1) % SLOTS
      ensures sent == old(sent) + [Render(buffers[bufferToRender])]
      ensures renderSlots == old(renderSlots) + [bufferToRender] && frames == old(frames) + 1
      ensures size == old(size) && exit == old(exit) && presents == old(presents)
      ensures presentedFrames == old(presentedFrames)
    {
      bufferToPresent := Some(bufferToRender);
      bufferToRender := (bufferToRender + 1) % buffers.Length;
      sent := sent + [Render(buffers[bufferToRender])];
      renderSlots := renderSlots + [bufferToRender];
      frames := frames + 1;
    }

    /**
     * `Event::MainEventsCleared`: if a slot is pending, blit it over the whole
     * window, swap, and clear the pending slot; otherwise do nothing.
     */
    method MainEventsCleared()
      requires Valid()
      modifies this
      ensures Valid()
      ensures old(bufferToPresent).None? ==> unchanged(this)
      ensures old(bufferToPresent).Some? ==>
        && bufferToPresent == None
        && presents == old(presents) + [Present(buffers[old(bufferToPresent).value], FullRect(size), FullRect(size), Linear)]
        && presentedFrames == old(presentedFrames) + [frames - 1]
      ensures bufferToRender == old(bufferToRender) && size == old(size) && exit == old(exit)
      ensures sent == old(sent) && renderSlots == old(renderSlots) && frames == old(frames)
    {
      match bufferToPresent
      case None =>
        return;
      case Some(slot) =>
        bufferToPresent := None;
        var rect := FullRect(size);
        presents := presents + [Present(buffers[slot], rect, rect, Linear)];
        presentedFrames := presentedFrames + [frames - 1];
    }

    /**
     * `WindowEvent::Resized`: forget the pending slot, record the new size and
     * replace every slot, in place, by a fresh buffer of the new size in the
     * selected format. The render slot is left as it is.
     */
    method Resized(newSize: Size)
      requires Valid()
      modifies this, buffers, allocator
      ensures Valid()
      ensures bufferToPresent == None && size == newSize
      ensures bufferToRender == old(bufferToRender) && exit == old(exit)
      ensures sent == old(sent) && presents == old(presents)
      ensures renderSlots == old(renderSlots) && frames == old(frames) && presentedFrames == old(presentedFrames)
      ensures allocator.created == old(allocator.created) + SLOTS
      ensures forall i :: 0 <= i < SLOTS ==>
        buffers[i] == Allocated(allocator.layout, newSize.width, newSize.height, SELECTED_FORMAT, old(allocator.created) + i)
    {
      bufferToPresent := None;
      size := newSize;
      for i := 0 to buffers.Length
        modifies buffers, allocator
        invariant allocator.created == old(allocator.created) + i
        invariant |allocator.history| == |old(allocator.history)| + i
        invariant forall b :: b in allocator.history ==> b.format == SELECTED_FORMAT
        invariant forall j :: 0 <= j < i ==>
          buffers[j] == Allocated(allocator.layout, newSize.width, newSize.height, SELECTED_FORMAT, old(allocator.created) + j)
        invariant forall j :: i <= j < buffers.Length ==> buffers[j] == old(buffers[j])
      {
        var buffer := allocator.CreateBuffer(newSize.width, newSize.height, SELECTED_FORMAT.code, SELECTED_FORMAT.modifier);
        buffers[i] := buffer;
      }
    }

    /** `WindowEvent::CloseRequested`: ask the loop to exit; nothing else changes. */
    method CloseRequested()
      requires Valid()
      modifies this
      ensures Valid() && exit
      ensures bufferToRender == old(bufferToRender) && bufferToPresent == old(bufferToPresent)
      ensures size == old(size) && sent == old(sent) && presents == old(presents)
      ensures renderSlots == old(renderSlots) && frames == old(frames) && presentedFrames == old(presentedFrames)
    {
      exit := true;
    }

    /** The event-loop closure: dispatch on the event kind; every other event is ignored. */
    method Handle(event: Event)
      requires Valid()
      modifies this, buffers, allocator
      ensures Valid()
      ensures event.UserEvent? ==>
        && bufferToPresent == Some(old(bufferToRender))
        && bufferToRender == (old(bufferToRender) + 1) % SLOTS
        && sent == old(sent) + [Render(buffers[bufferToRender])]
      ensures event.MainEventsCleared? && old(bufferToPresent).None? ==> unchanged(this)
      ensures event.MainEventsCleared? && old(bufferToPresent).Some? ==>
        && bufferToPresent == None
        && presents == old(presents) + [Present(buffers[old(bufferToPresent).value], FullRect(size), FullRect(size), Linear)]
      ensures event.Resized? ==>
        && bufferToPresent == None && size == event.newSize
        && allocator.created == old(allocator.created) + SLOTS
        && forall i :: 0 <= i < SLOTS ==>
             buffers[i] == Allocated(allocator.layout, size.width, size.height, SELECTED_FORMAT, old(allocator.created) + i)
      ensures event.CloseRequested? ==> exit && bufferToPresent == old(bufferToPresent)
      ensures (event.OtherWindowEvent? || event.Other?) ==>
        unchanged(this) && unchanged(buffers) && unchanged(allocator)
      ensures !event.CloseRequested? ==> exit == old(exit)
      ensures !event.UserEvent? ==> sent == old(sent) && bufferToRender == old(bufferToRender)
      ensures !event.MainEventsCleared? ==> presents == old(presents)
      ensures !event.Resized? ==> size == old(size) && unchanged(buffers) && unchanged(allocator)
    {
      match event
      case UserEvent => UserEvent();
      case MainEventsCleared => MainEventsCleared();
      case Resized(newSize) => Resized(newSize);
      case CloseRequested => CloseRequested();
      case OtherWindowEvent =>
      case Other =>
    }
  }

  /**
   * One cycle from start-up: the consumer finishes frame 0, the loop idles
   * twice. Slot 1 is sent as soon as slot 0 comes back, and slot 0 is shown
   * once, however often the loop idles.
   */
  method FrameCycle(windowSize: Size, proxy: Proxy, layout: (u32, u32, Format, nat) -> PlaneLayout)
    returns (sent: seq<WinitDisplayMessage>, presents: seq<Present>)
    ensures sent == [NewDisplay(proxy),
                     Render(Allocated(layout, windowSize.width, windowSize.height, SELECTED_FORMAT, 0)),
                     Render(Allocated(layout, windowSize.width, windowSize.height, SELECTED_FORMAT, 1))]
    ensures presents == [Present(Allocated(layout, windowSize.width, windowSize.height, SELECTED_FORMAT, 0), FullRect(windowSize), FullRect(windowSize), Linear)]
  {
    var allocator := new Allocator(layout);
    var display := new Display(windowSize, proxy, allocator);
    display.Handle(UserEvent);
    display.Handle(MainEventsCleared);
    display.Handle(MainEventsCleared);
    sent, presents := display.sent, display.presents;
  }

  /**
   * A resize while slot 0 is with the consumer: both slots are replaced at
   * once, so when the consumer reports frame 0 finished, the loop presents
   * the allocator's third buffer (slot 0's replacement), while the consumer
   * was only ever sent the first and the fourth.
   */
  method ResizeWhileRendering(windowSize: Size, newSize: Size, proxy: Proxy, layout: (u32, u32, Format, nat) -> PlaneLayout)
    returns (sent: seq<WinitDisplayMessage>, presents: seq<Present>)
    ensures sent == [NewDisplay(proxy),
                     Render(Allocated(layout, windowSize.width, windowSize.height, SELECTED_FORMAT, 0)),
                     Render(Allocated(layout, newSize.width, newSize.height, SELECTED_FORMAT, 3))]
    ensures presents == [Present(Allocated(layout, newSize.width, newSize.height, SELECTED_FORMAT, 2), FullRect(newSize), FullRect(newSize), Linear)]
  {
    var allocator := new Allocator(layout);
    var display := new Display(windowSize, proxy, allocator);
    display.Handle(Resized(newSize));
    display.Handle(UserEvent);
    display.Handle(MainEventsCleared);
    sent, presents := display.sent, display.presents;
  }

  /** A Vulkan physical device, as far as the allocator set-up looks at it. */
  datatype PhysicalDevice = PhysicalDevice(id: nat, hasDrmExtension: bool)

  datatype VulkanError = Setup

  /** `filter(has DRM extension).next()`: the first device with the DRM extension, if any. */
  function FirstDrmDevice(devices: seq<PhysicalDevice>): (r: Option<PhysicalDevice>)
    ensures r.Some? <==> exists i :: 0 <= i < |devices| && devices[i].hasDrmExtension
    ensures r.Some? ==> r.value.hasDrmExtension
    ensures r.Some? ==>
      exists k :: 0 <= k < |devices| && devices[k] == r.value && (forall j :: 0 <= j < k ==> !devices[j].hasDrmExtension)
  {
    if devices == [] then None
    else if devices[0].hasDrmExtension then Some(devices[0])
    else FirstDrmDevice(devices[1..])
  }

  /**
   * The device choice of `vulkan_allocator`: `instance` is the device list of
   * a created instance, or `None` when instance creation failed. Both a
   * failed instance and the absence of a device with the DRM extension give
   * `Setup`.
   */
  function SelectDevice(instance: Option<seq<PhysicalDevice>>): (r: Result<PhysicalDevice, VulkanError>)
    ensures r.Ok? <==> instance.Some? && exists i :: 0 <= i < |instance.value| && instance.value[i].hasDrmExtension
    ensures r.Ok? ==> r.value.hasDrmExtension && r.value in instance.value
    ensures r.Err? ==> r.error == Setup
  {
    match instance
    case None => Err(Setup)
    case Some(devices) =>
      match FirstDrmDevice(devices)
      case None => Err(Setup)
      case Some(device) => Ok(device)
  }
}
