/**
 * examples/triangle: an app that only clears the screen, with its own handler.
 * It records resizes but nothing in it ever calls `resize_surface_if_needed`,
 * so the surface keeps the size it was created with.
 */
module TriangleExample {
  import opened Platform
  import opened DeferredResize

  class WgpuApp {
    const window: Window
    const log: CallLog
    var surfaceConfig: SurfaceConfiguration
    var size: PhysicalSize
    var sizeChanged: bool
    /** Calls of `Surface::configure` so far. */
    var configures: nat

    ghost function State(): ResizeState
      reads this
    {
      ResizeState(size, sizeChanged, surfaceConfig, configures)
    }

    /** `WgpuApp::new`: the surface is configured once, at the window's inner size. */
    constructor(window: Window)
      modifies window.log
      ensures this.window == window && log == window.log
      ensures State() == Initial(window.innerSize)
      ensures log.calls == old(window.log.calls) + [Call.NewApp]
    {
      this.window := window;
      log := window.log;
      var inner := window.innerSize;
      size := inner;
      surfaceConfig := SurfaceConfiguration(inner.width, inner.height);
      configures := 1;
      sizeChanged := false;
      new;
      log.calls := log.calls + [Call.NewApp];
    }

    /** Records a new size; an equal size changes nothing. */
    method SetWindowResized(newSize: PhysicalSize)
      modifies this, log
      ensures State() == Record(old(State()), newSize)
      ensures log.calls == old(log.calls) + [Call.SetWindowResized(newSize)]
    {
      log.calls := log.calls + [Call.SetWindowResized(newSize)];
      if newSize == size {
        return;
      }
      size := newSize;
      sizeChanged := true;
    }

    /** Applies a pending resize to the surface and clears the flag. */
    method ResizeSurfaceIfNeeded()
      modifies this, log
      ensures State() == Apply(old(State()))
      ensures log.calls == old(log.calls) + [Call.ResizeSurfaceIfNeeded]
    {
      log.calls := log.calls + [Call.ResizeSurfaceIfNeeded];
      if sizeChanged {
        surfaceConfig := surfaceConfig.(width := size.width, height := size.height);
        configures := configures + 1;
        sizeChanged := false;
      }
    }

    /**
     * `render`. `acquired` is what `Surface::get_current_texture` answers; an
     * error is returned at once, otherwise the cleared frame is presented. The
     * app's fields are not touched.
     */
    method Render(acquired: SurfaceResult) returns (r: SurfaceResult)
      modifies log
      ensures r == acquired
      ensures log.calls == old(log.calls) + [Call.Render, Call.AcquireFrame]
        + (if acquired.Ok? then [Call.Present] else [])
    {
      log.calls := log.calls + [Call.Render, Call.AcquireFrame];
      if acquired.Err? {
        return acquired;
      }
      log.calls := log.calls + [Call.Present];
      r := Ok;
    }

    method Update()
      modifies log
      ensures log.calls == old(log.calls) + [Call.Update]
    {
      log.calls := log.calls + [Call.Update];
    }
  }

  const Title: string := "triangle"

  class WgpuAppHandler {
    var app: WgpuApp?
    const log: CallLog

    ghost predicate Valid()
      reads this
    {
      app != null ==> app.log == log && app.window.log == log
    }

    /** `WgpuAppHandler::default()`. */
    constructor()
      ensures Valid() && app == null && fresh(log) && log.calls == []
    {
      app := null;
      log := new CallLog();
    }

    /** Creates the window and the app the first time; afterwards changes nothing. */
    method Resumed(eventLoop: EventLoop, innerSize: PhysicalSize)
      requires Valid()
      modifies this, log
      ensures Valid()
      ensures old(app) != null ==> app == old(app) && log.calls == old(log.calls)
      ensures old(app) == null ==>
        && app != null && fresh(app) && fresh(app.window)
        && app.window.title == Title
        && app.State() == Initial(innerSize)
        && log.calls == old(log.calls) + [Call.CreateWindow(Title), Call.NewApp]
    {
      if app != null {
        return;
      }
      var w := eventLoop.CreateWindow(Title, innerSize, log);
      var a := new WgpuApp(w);
      app := a;
    }

    method Suspended()
      ensures app == old(app)
    {
    }

    /**
     * `window_event`; `acquired` is the surface's answer should the event be
     * a redraw. No branch calls `update` or `resize_surface_if_needed`, so the
     * surface configuration and the configure count never change here.
     */
    method WindowEvent(eventLoop: EventLoop, event: WindowEvent, acquired: SurfaceResult)
      requires Valid() && app != null
      modifies app, log, eventLoop
      ensures eventLoop.exiting == (old(eventLoop.exiting) || event.CloseRequested?)
      ensures app.surfaceConfig == old(app.surfaceConfig) && app.configures == old(app.configures)
      ensures event.Resized? && !IsZeroArea(event.size) ==>
        && app.State() == Record(old(app.State()), event.size)
        && log.calls == old(log.calls) + [Call.SetWindowResized(event.size)]
      ensures event.RedrawRequested? ==>
        log.calls == old(log.calls) + [Call.PrePresentNotify, Call.Render, Call.AcquireFrame]
          + (if acquired.Ok? then [Call.Present] else []) + [Call.RequestRedraw]
      ensures !(event.Resized? && !IsZeroArea(event.size)) ==> app.State() == old(app.State())
      ensures !(event.Resized? && !IsZeroArea(event.size)) && !event.RedrawRequested? ==>
        log.calls == old(log.calls)
    {
      var a := app;
      match event {
        case CloseRequested =>
          eventLoop.Exit();
        case Resized(size) =>
          if size.width == 0 || size.height == 0 {
            // a minimised window: nothing to do
          } else {
            a.SetWindowResized(size);
          }
        case KeyboardInput(_) =>
        case RedrawRequested =>
          a.window.PrePresentNotify();
          var r := a.Render(acquired);
          match r {
            case Ok =>
            case Err(Lost) =>      // logged: the surface is lost
            case Err(_) =>         // logged: expected to clear up by the next frame
          }
          a.window.RequestRedraw();
        case OtherEvent =>
      }
    }
  }
}
