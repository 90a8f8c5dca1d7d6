/**
 * The consumer task spawned by `Kullat::new` (src/kullat.rs): it receives the
 * display thread's messages in order, remembers the latest display handle,
 * and for every frame request renders the buffer through the camera and then
 * wakes the display.
 */
module Kullat {
  import opened Wrappers
  import opened Dmabufs
  import Render
  import opened WinitDisplay

  /** What handling a message does outside the task: a camera render, or a wake of a display's event loop. */
  datatype Effect = Rendered(submission: Render.Submission) | Woke(display: Proxy)

  /** The registered display after handling `message`. */
  function NextDisplay(display: Option<Proxy>, message: WinitDisplayMessage): Option<Proxy>
  {
    match message
    case NewDisplay(proxy) => Some(proxy)
    case Render(_) => display
  }

  /** What handling `message` does while `display` is registered. */
  function StepEffects(display: Option<Proxy>, message: WinitDisplayMessage): seq<Effect>
  {
    match message
    case NewDisplay(_) => []
    case Render(buffer) =>
      if display.None? then [] else [Rendered(Render.Submit(buffer)), Woke(display.value)]
  }

  /** The registered display after handling `messages` in order, starting from `display`. */
  function Registered(display: Option<Proxy>, messages: seq<WinitDisplayMessage>): Option<Proxy>
    decreases |messages|
  {
    if messages == [] then display
    else Registered(NextDisplay(display, messages[0]), messages[1..])
  }

  /** Everything handling `messages` in order does, starting with `display` registered. */
  function Effects(display: Option<Proxy>, messages: seq<WinitDisplayMessage>): seq<Effect>
    decreases |messages|
  {
    if messages == [] then []
    else StepEffects(display, messages[0]) + Effects(NextDisplay(display, messages[0]), messages[1..])
  }

  /**
   * Messages are handled one after another in arrival order: handling `a`
   * then `b` is handling `a`, then handling `b` from the display `a` left
   * registered.
   */
  lemma {:induction false} HandledInArrivalOrder(display: Option<Proxy>, a: seq<WinitDisplayMessage>, b: seq<WinitDisplayMessage>)
    ensures Effects(display, a + b) == Effects(display, a) + Effects(Registered(display, a), b)
    ensures Registered(display, a + b) == Registered(Registered(display, a), b)
    decreases |a|
  {
    if a != [] {
      assert (a + b)[0] == a[0];
      assert (a + b)[1..] == a[1..] + b;
      HandledInArrivalOrder(NextDisplay(display, a[0]), a[1..], b);
    } else {
      assert a + b == b;
    }
  }

  /** Frame requests that arrive while no display is registered are skipped: nothing is rendered or woken. */
  lemma {:induction false} UnregisteredRendersSkipped(messages: seq<WinitDisplayMessage>)
    requires forall k :: 0 <= k < |messages| ==> messages[k].Render?
    ensures Effects(None, messages) == []
    ensures Registered(None, messages) == None
  {
    if messages != [] {
      UnregisteredRendersSkipped(messages[1..]);
    }
  }

  /**
   * The latest registration wins: a frame request handled after `NewDisplay(p)`
   * and any number of further frame requests renders its buffer once and then
   * wakes `p`, whatever was registered before.
   */
  lemma LatestRegistrationWins(display: Option<Proxy>, before: seq<WinitDisplayMessage>, p: Proxy,
                               renders: seq<WinitDisplayMessage>, buffer: Dmabuf)
    requires forall k :: 0 <= k < |renders| ==> renders[k].Render?
    ensures Registered(display, before + [NewDisplay(p)] + renders) == Some(p)
    ensures Effects(display, before + [NewDisplay(p)] + renders + [Render(buffer)])
         == Effects(display, before + [NewDisplay(p)] + renders) + [Rendered(Render.Submit(buffer)), Woke(p)]
  {
    var prefix := before + [NewDisplay(p)];
    HandledInArrivalOrder(display, before, [NewDisplay(p)]);
    assert Registered(display, prefix) == Some(p);
    RendersKeepDisplay(Some(p), renders);
    HandledInArrivalOrder(display, prefix, renders);
    HandledInArrivalOrder(display, prefix + renders, [Render(buffer)]);
  }

  /** Frame requests do not change the registered display. */
  lemma {:induction false} RendersKeepDisplay(display: Option<Proxy>, renders: seq<WinitDisplayMessage>)
    requires forall k :: 0 <= k < |renders| ==> renders[k].Render?
    ensures Registered(display, renders) == display
  {
    if renders != [] {
      RendersKeepDisplay(display, renders[1..]);
    }
  }

  /**
   * Every wake follows exactly one render: the effects alternate render, wake,
   * render, wake, ...
   */
  lemma {:induction false} RenderThenWake(display: Option<Proxy>, messages: seq<WinitDisplayMessage>)
    ensures |Effects(display, messages)| % 2 == 0
    ensures forall k :: 0 <= k < |Effects(display, messages)| ==>
      (Effects(display, messages)[k].Rendered? <==> k % 2 == 0)
    decreases |messages|
  {
    if messages != [] {
      RenderThenWake(NextDisplay(display, messages[0]), messages[1..]);
    }
  }

  /** The messages `Render(bs[0]), Render(bs[1]), ...`. */
  function Renders(bs: seq<Dmabuf>): (ms: seq<WinitDisplayMessage>)
    ensures |ms| == |bs| && forall k :: 0 <= k < |ms| ==> ms[k] == Render(bs[k])
  {
    seq(|bs|, k requires 0 <= k < |bs| => Render(bs[k]))
  }

  /** With `p` registered, frame requests for `bs` render each buffer in order, each followed by one wake of `p`. */
  lemma {:induction false} RegisteredRendersAll(p: Proxy, bs: seq<Dmabuf>)
    ensures |Effects(Some(p), Renders(bs))| == 2 * |bs|
    ensures forall k :: 0 <= k < |bs| ==>
      Effects(Some(p), Renders(bs))[2 * k] == Rendered(Render.Submit(bs[k])) &&
      Effects(Some(p), Renders(bs))[2 * k + 1] == Woke(p)
  {
    if bs != [] {
      var ms, tail := Renders(bs), Renders(bs[1..]);
      RegisteredRendersAll(p, bs[1..]);
      assert ms[1..] == tail;
      assert StepEffects(Some(p), ms[0]) == [Rendered(Render.Submit(bs[0])), Woke(p)];
      assert NextDisplay(Some(p), ms[0]) == Some(p);
      var effects, rest := Effects(Some(p), ms), Effects(Some(p), tail);
      assert effects == [Rendered(Render.Submit(bs[0])), Woke(p)] + rest;
      forall k | 1 <= k < |bs|
        ensures effects[2 * k] == Rendered(Render.Submit(bs[k]))
        ensures effects[2 * k + 1] == Woke(p)
      {
        assert bs[1..][k - 1] == bs[k];
        assert effects[2 * k] == rest[2 * (k - 1)];
      }
    }
  }

  /**
   * The display announces itself before its first frame request, so the
   * consumer serves everything a display has sent: the `k`-th frame request
   * is rendered once and followed by one wake of that display.
   */
  lemma DisplayOutputServed(d: Display)
    requires d.Valid()
    ensures |Effects(None, d.sent)| == 2 * (|d.sent| - 1)
    ensures forall k :: 1 <= k < |d.sent| ==>
      Effects(None, d.sent)[2 * (k - 1)] == Rendered(Render.Submit(d.sent[k].buffer)) &&
      Effects(None, d.sent)[2 * (k - 1) + 1] == Woke(d.proxy)
  {
    var sent := d.sent;
    var bs := seq(|sent| - 1, k requires 0 <= k < |sent| - 1 => sent[k + 1].buffer);
    assert sent == [NewDisplay(d.proxy)] + Renders(bs);
    assert Effects(None, d.sent) == Effects(Some(d.proxy), Renders(bs));
    RegisteredRendersAll(d.proxy, bs);
  }

  /**
   * The loop of the spawned task: `while let Some(message) = recv()`, with the
   * only state being the optional display handle. A `NewDisplay` replaces the
   * handle; a `Render` without a handle is skipped; otherwise the buffer is
   * rendered and one wake event is sent, the results of both discarded.
   */
  method Dispatch(messages: seq<WinitDisplayMessage>) returns (effects: seq<Effect>, display: Option<Proxy>)
    ensures effects == Effects(None, messages)
    ensures display == Registered(None, messages)
  {
    display := None;
    effects := [];
    var i := 0;
    while i < |messages|
      invariant 0 <= i <= |messages|
      invariant effects == Effects(None, messages[..i])
      invariant display == Registered(None, messages[..i])
    {
      var message := messages[i];
      match message {
        case NewDisplay(newDisplay) =>
          display := Some(newDisplay);
        case Render(buffer) =>
          if display.Some? {
            effects := effects + [Rendered(Render.Submit(buffer))];
            effects := effects + [Woke(display.value)];
          }
      }
      HandledInArrivalOrder(None, messages[..i], [message]);
      assert messages[..i + 1] == messages[..i] + [message];
      i := i + 1;
    }
    assert messages[..i] == messages;
  }
}
