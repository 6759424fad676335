/**
 * src/bin/triangle.rs: the app that draws one triangle, with its own handler.
 * It clamps the initial size to at least one pixel each way, exits on Escape,
 * and, like examples/triangle, never applies a recorded resize.
 */
module TriangleBin {
  import opened Bytes
  import opened Platform
  import opened DeferredResize

  /** `size.width.max(1)`, `size.height.max(1)`: the surface can never be zero-sized. */
  function ClampSize(s: PhysicalSize): (r: PhysicalSize)
    ensures r.width >= 1 && r.width >= s.width && (r.width == 1 || r.width == s.width)
    ensures r.height >= 1 && r.height >= s.height && (r.height == 1 || r.height == s.height)
  {
    PhysicalSize(if s.width < 1 then 1 else s.width, if s.height < 1 then 1 else s.height)
  }

  /** Input hook arguments; their payloads are never read, so they are not modelled. */
  datatype ElementState = Pressed | Released
  datatype MouseButton = Left | Right | Middle | Back | Forward | OtherButton(id: nat)
  datatype MouseScrollDelta = LineDelta | PixelDelta
  datatype TouchPhase = Started | Moved | Ended | Cancelled
  datatype CursorPosition = CursorPosition
  datatype DeviceEvent = DeviceAdded | DeviceRemoved | MouseMotion | OtherDeviceEvent

  class WgpuApp {
    const window: Window
    const log: CallLog
    var config: SurfaceConfiguration
    var size: PhysicalSize
    var sizeChanged: bool
    /** Calls of `Surface::configure` so far. */
    var configures: nat

    ghost function State(): ResizeState
      reads this
    {
      ResizeState(size, sizeChanged, config, configures)
    }

    /**
     * `WgpuApp::new`: the window's inner size is clamped in place to at least
     * 1x1 and the surface is configured once at that size.
     */
    constructor(window: Window)
      modifies window.log
      ensures this.window == window && log == window.log
      ensures State() == Initial(ClampSize(window.innerSize))
      ensures config.width >= 1 && config.height >= 1
      ensures log.calls == old(window.log.calls) + [Call.NewApp]
    {
      this.window := window;
      log := window.log;
      var s := window.innerSize;
      if s.width < 1 {
        s := s.(width := 1);
      }
      if s.height < 1 {
        s := s.(height := 1);
      }
      size := s;
      config := SurfaceConfiguration(s.width, s.height);
      configures := 1;
      sizeChanged := false;
      new;
      log.calls := log.calls + [Call.NewApp];
    }

    /** Records a new size; an equal size changes nothing. */
    method SetWindowResized(newSize: PhysicalSize)
      modifies this, log
      ensures State() == Record(old(State()), newSize)
      ensures log.calls == old(log.calls) + [Call.SetWindowResized(newSize)]
    {
      log.calls := log.calls + [Call.SetWindowResized(newSize)];
      if newSize == size {
        return;
      }
      size := newSize;
      sizeChanged := true;
    }

    /** Applies a pending resize to the surface and clears the flag. */
    method ResizeSurfaceIfNeeded()
      modifies this, log
      ensures State() == Apply(old(State()))
      ensures log.calls == old(log.calls) + [Call.ResizeSurfaceIfNeeded]
    {
      log.calls := log.calls + [Call.ResizeSurfaceIfNeeded];
      if sizeChanged {
        config := config.(width := size.width, height := size.height);
        configures := configures + 1;
        sizeChanged := false;
      }
    }

    /**
     * `render`: with a frame, one draw of vertices `0..3` and instance `0..1`,
     * then present; without one, the acquisition error is returned at once.
     */
    method Render(acquired: SurfaceResult) returns (r: SurfaceResult)
      modifies log
      ensures r == acquired
      ensures log.calls == old(log.calls) + [Call.Render, Call.AcquireFrame]
        + (if acquired.Ok? then [Call.Draw(Range(0, 3), Range(0, 1)), Call.Present] else [])
    {
      log.calls := log.calls + [Call.Render, Call.AcquireFrame];
      if acquired.Err? {
        return acquired;
      }
      log.calls := log.calls + [Call.Draw(Range(0, 3), Range(0, 1))];
      log.calls := log.calls + [Call.Present];
      r := Ok;
    }

    method KeyboardInput(key: Key) returns (consumed: bool)
      ensures !consumed
    {
      consumed := false;
    }

    method MouseClick(state: ElementState, button: MouseButton) returns (consumed: bool)
      ensures !consumed
    {
      consumed := false;
    }

    method MouseWheel(delta: MouseScrollDelta, phase: TouchPhase) returns (consumed: bool)
      ensures !consumed
    {
      consumed := false;
    }

    method CursorMove(position: CursorPosition) returns (consumed: bool)
      ensures !consumed
    {
      consumed := false;
    }

    method DeviceInput(event: DeviceEvent) returns (consumed: bool)
      ensures !consumed
    {
      consumed := false;
    }

    method Update()
      modifies log
      ensures log.calls == old(log.calls) + [Call.Update]
    {
      log.calls := log.calls + [Call.Update];
    }
  }

  const Title: string := "triangle"

  class WgpuAppHandler {
    var app: WgpuApp?
    const log: CallLog

    ghost predicate Valid()
      reads this
    {
      app != null ==> app.log == log && app.window.log == log
    }

    /** `WgpuAppHandler::default()`. */
    constructor()
      ensures Valid() && app == null && fresh(log) && log.calls == []
    {
      app := null;
      log := new CallLog();
    }

    /** Creates the window and the app the first time; afterwards changes nothing. */
    method Resumed(eventLoop: EventLoop, innerSize: PhysicalSize)
      requires Valid()
      modifies this, log
      ensures Valid()
      ensures old(app) != null ==> app == old(app) && log.calls == old(log.calls)
      ensures old(app) == null ==>
        && app != null && fresh(app) && fresh(app.window)
        && app.window.title == Title
        && app.State() == Initial(ClampSize(innerSize))
        && log.calls == old(log.calls) + [Call.CreateWindow(Title), Call.NewApp]
    {
      if app != null {
        return;
      }
      var w := eventLoop.CreateWindow(Title, innerSize, log);
      var a := new WgpuApp(w);
      app := a;
    }

    method Suspended()
      ensures app == old(app)
    {
    }

    /**
     * `window_event`; the app must exist (the source asserts it). Close and
     * Escape end the loop; other keys do nothing; a zero-size `Resized` is only
     * logged; a redraw notifies, renders and re-requests whatever `render`
     * returns, and never calls `update`.
     */
    method WindowEvent(eventLoop: EventLoop, event: WindowEvent, acquired: SurfaceResult)
      requires Valid() && app != null
      modifies app, log, eventLoop
      ensures eventLoop.exiting ==
        (old(eventLoop.exiting) || event.CloseRequested? || event == Platform.WindowEvent.KeyboardInput(Escape))
      ensures app.config == old(app.config) && app.configures == old(app.configures)
      ensures event.Resized? && !IsZeroArea(event.size) ==>
        && app.State() == Record(old(app.State()), event.size)
        && log.calls == old(log.calls) + [Call.SetWindowResized(event.size)]
      ensures event.RedrawRequested? ==>
        log.calls == old(log.calls) + [Call.PrePresentNotify, Call.Render, Call.AcquireFrame]
          + (if acquired.Ok? then [Call.Draw(Range(0, 3), Range(0, 1)), Call.Present] else [])
          + [Call.RequestRedraw]
      ensures !(event.Resized? && !IsZeroArea(event.size)) ==> app.State() == old(app.State())
      ensures !(event.Resized? && !IsZeroArea(event.size)) && !event.RedrawRequested? ==>
        log.calls == old(log.calls)
    {
      var a := app;
      match event {
        case CloseRequested =>
          eventLoop.Exit();
        case Resized(size) =>
          if size.width == 0 || size.height == 0 {
            // logged: the window is minimised
          } else {
            a.SetWindowResized(size);
          }
        case KeyboardInput(key) =>
          match key {
            case Escape => eventLoop.Exit();
            case OtherKey(_) =>
          }
        case RedrawRequested =>
          a.window.PrePresentNotify();
          var r := a.Render(acquired);
          match r {
            case Ok =>
            case Err(Lost) =>      // logged: the surface is lost
            case Err(_) =>         // logged: expected to clear up by the next frame
          }
          a.window.RequestRedraw();
        case OtherEvent =>
      }
    }
  }
}
