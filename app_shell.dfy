/**
 * The generic window-application shell of the library: the `WgpuApp` capability
 * set and `WgpuAppHandler`, which creates the app once on `resumed`, filters
 * minimise events, and drives the redraw loop.
 */
module AppShell {
  import opened Platform

  /**
   * Any type implementing `WgpuApp`. The handler knows an app only through
   * these contracts: each method records its own call in the trace, and
   * `keyboard_input` and `render` may answer anything.
   */
  class App {
    const window: Window
    const log: CallLog

    /** `WgpuApp::new(window)`, run to completion by the handler. */
    constructor(window: Window)
      modifies window.log
      ensures this.window == window && log == window.log
      ensures log.calls == old(window.log.calls) + [Call.NewApp]
    {
      this.window := window;
      this.log := window.log;
      new;
      log.calls := log.calls + [Call.NewApp];
    }

    method SetWindowResized(newSize: PhysicalSize)
      modifies log
      ensures log.calls == old(log.calls) + [Call.SetWindowResized(newSize)]
    {
      log.calls := log.calls + [Call.SetWindowResized(newSize)];
    }

    method ResizeSurfaceIfNeeded()
      modifies log
      ensures log.calls == old(log.calls) + [Call.ResizeSurfaceIfNeeded]
    {
      log.calls := log.calls + [Call.ResizeSurfaceIfNeeded];
    }

    method KeyboardInput(key: Key) returns (consumed: bool)
      modifies log
      ensures log.calls == old(log.calls) + [Call.KeyboardInput(key)]
    {
      log.calls := log.calls + [Call.KeyboardInput(key)];
      consumed := *;
    }

    method Render() returns (r: SurfaceResult)
      modifies log
      ensures log.calls == old(log.calls) + [Call.Render]
    {
      log.calls := log.calls + [Call.Render];
      r := *;
    }

    method Update()
      modifies log
      ensures log.calls == old(log.calls) + [Call.Update]
    {
      log.calls := log.calls + [Call.Update];
    }
  }

  /** The calls a `RedrawRequested` event makes, in order. */
  function RedrawCalls(): seq<Call> {
    [Call.Update, Call.PrePresentNotify, Call.Render, Call.RequestRedraw]
  }

  /**
   * `WgpuAppHandler<A>`. The `Arc<Mutex<Option<A>>>` around the app is a plain
   * optional field here: events are dispatched one at a time.
   */
  class WgpuAppHandler {
    var app: App?
    var window: Window?
    const title: string
    const log: CallLog

    /** The app and the window are created together and share the handler's trace. */
    ghost predicate Valid()
      reads this
    {
      && (app == null <==> window == null)
      && (app != null ==> app.window == window && app.log == log)
      && (window != null ==> window.log == log)
    }

    /** `WgpuAppHandler::new(title)`: no app and no window yet. */
    constructor(title: string)
      ensures Valid()
      ensures app == null && window == null && this.title == title
      ensures fresh(log) && log.calls == []
    {
      app := null;
      window := null;
      this.title := title;
      log := new CallLog();
    }

    /** Notifies the window, if there is one. */
    method PrePresentNotify()
      requires Valid()
      modifies log
      ensures log.calls == old(log.calls) + (if window != null then [Call.PrePresentNotify] else [])
    {
      if window != null {
        window.PrePresentNotify();
      }
    }

    /** Asks the window for another redraw, if there is one. */
    method RequestRedraw()
      requires Valid()
      modifies log
      ensures log.calls == old(log.calls) + (if window != null then [Call.RequestRedraw] else [])
    {
      if window != null {
        window.RequestRedraw();
      }
    }

    /**
     * `resumed`: the first call creates a window titled `title` and the app on
     * it, and fills both slots; any later call changes nothing and creates nothing.
     * `innerSize` is the size the windowing system gives the new window.
     */
    method Resumed(eventLoop: EventLoop, innerSize: PhysicalSize)
      requires Valid()
      modifies this, log
      ensures Valid()
      ensures old(app) != null ==> app == old(app) && window == old(window) && log.calls == old(log.calls)
      ensures old(app) == null ==>
        && app != null && fresh(app) && fresh(window)
        && window.title == title && window.innerSize == innerSize
        && log.calls == old(log.calls) + [Call.CreateWindow(title), Call.NewApp]
    {
      if app != null {
        return;
      }
      var w := eventLoop.CreateWindow(title, innerSize, log);
      var a := new App(w);
      app := a;
      window := w;
    }

    /** `suspended`: nothing happens; the app is kept. */
    method Suspended()
      ensures app == old(app) && window == old(window)
    {
    }

    /**
     * `window_event`. The app must exist (the source unwraps the slot). Only
     * `CloseRequested` ends the loop; a zero-size `Resized` is dropped and any
     * other one forwarded once; a redraw makes the same four calls whatever
     * `render` returns; every other event is ignored. The handler's own slots
     * never change.
     */
    method WindowEvent(eventLoop: EventLoop, event: WindowEvent)
      requires Valid() && app != null
      modifies eventLoop, log
      ensures eventLoop.exiting == (old(eventLoop.exiting) || event.CloseRequested?)
      ensures event.Resized? && IsZeroArea(event.size) ==> log.calls == old(log.calls)
      ensures event.Resized? && !IsZeroArea(event.size) ==>
        log.calls == old(log.calls) + [Call.SetWindowResized(event.size)]
      ensures event.KeyboardInput? ==> log.calls == old(log.calls) + [Call.KeyboardInput(event.key)]
      ensures event.RedrawRequested? ==> log.calls == old(log.calls) + RedrawCalls()
      ensures event.CloseRequested? || event.OtherEvent? ==> log.calls == old(log.calls)
    {
      var a := app;
      match event {
        case CloseRequested =>
          eventLoop.Exit();
        case Resized(size) =>
          if size.width == 0 || size.height == 0 {
            // a minimised window: nothing to do
          } else {
            a.SetWindowResized(size);
          }
        case KeyboardInput(key) =>
          var _ := a.KeyboardInput(key);
        case RedrawRequested =>
          a.Update();
          PrePresentNotify();
          var r := a.Render();
          match r {
            case Ok =>
            case Err(Lost) =>      // logged: the surface is lost
            case Err(_) =>         // logged: expected to clear up by the next frame
          }
          RequestRedraw();
        case OtherEvent =>
      }
    }
  }

  /** Two `resumed` signals in a row build one window and one app. */
  method ResumeTwice(h: WgpuAppHandler, eventLoop: EventLoop, size1: PhysicalSize, size2: PhysicalSize)
    requires h.Valid() && h.app == null
    modifies h, h.log
    ensures h.Valid() && h.app != null && h.window.innerSize == size1
    ensures h.log.calls == old(h.log.calls) + [Call.CreateWindow(h.title), Call.NewApp]
  {
    h.Resumed(eventLoop, size1);
    h.Resumed(eventLoop, size2);
  }
}
