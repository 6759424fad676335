/**
 * What the apps see of the windowing library and the GPU surface, reduced to
 * values: sizes, events, surface errors, and a trace of the calls that cross
 * between the handler, the app, the window and the surface.
 */
module Platform {
  import opened Bytes

  /** `winit::dpi::PhysicalSize<u32>`; equality compares both dimensions. */
  datatype PhysicalSize = PhysicalSize(width: u32, height: u32)

  /** A minimised window reports a zero width or height. */
  predicate IsZeroArea(s: PhysicalSize) {
    s.width == 0 || s.height == 0
  }

  /**
   * The width and height of a `wgpu::SurfaceConfiguration`; its format, present
   * mode and alpha mode are fixed at creation and not modelled.
   */
  datatype SurfaceConfiguration = SurfaceConfiguration(width: u32, height: u32)

  datatype SurfaceError = Timeout | Outdated | Lost | OutOfMemory

  /** `Result<(), wgpu::SurfaceError>`, returned by frame acquisition and by `render`. */
  datatype SurfaceResult = Ok | Err(error: SurfaceError)

  /** The physical key of a keyboard event. */
  datatype Key = Escape | OtherKey(code: nat)

  /** The window events the handlers distinguish; `OtherEvent` stands for all the rest. */
  datatype WindowEvent =
    | CloseRequested
    | Resized(size: PhysicalSize)
    | KeyboardInput(key: Key)
    | RedrawRequested
    | OtherEvent

  /** A half-open range `start..end`, as passed to draw calls. */
  datatype Range = Range(start: nat, end: nat)

  /** One call in the trace. */
  datatype Call =
    | CreateWindow(title: string)           // ActiveEventLoop::create_window
    | NewApp                                // WgpuApp::new
    | SetWindowResized(size: PhysicalSize)
    | ResizeSurfaceIfNeeded
    | KeyboardInput(key: Key)               // WgpuApp::keyboard_input
    | Update
    | Render
    | PrePresentNotify                      // Window::pre_present_notify
    | RequestRedraw                         // Window::request_redraw
    | AcquireFrame                          // Surface::get_current_texture
    | Draw(vertices: Range, instances: Range)
    | DrawModelInstanced(instances: Range)
    | Present                               // SurfaceTexture::present

  /** The trace, shared by everything that takes part in one run. */
  class CallLog {
    ghost var calls: seq<Call>

    constructor()
      ensures calls == []
    {
      calls := [];
    }
  }

  class Window {
    const title: string
    /** `Window::inner_size` at creation, chosen by the windowing system. */
    const innerSize: PhysicalSize
    const log: CallLog

    constructor(title: string, innerSize: PhysicalSize, log: CallLog)
      ensures this.title == title && this.innerSize == innerSize && this.log == log
    {
      this.title := title;
      this.innerSize := innerSize;
      this.log := log;
    }

    method PrePresentNotify()
      modifies log
      ensures log.calls == old(log.calls) + [Call.PrePresentNotify]
    {
      log.calls := log.calls + [Call.PrePresentNotify];
    }

    method RequestRedraw()
      modifies log
      ensures log.calls == old(log.calls) + [Call.RequestRedraw]
    {
      log.calls := log.calls + [Call.RequestRedraw];
    }
  }

  /** `ActiveEventLoop`: creates windows and can be told to exit. */
  class EventLoop {
    var exiting: bool

    constructor()
      ensures !exiting
    {
      exiting := false;
    }

    method CreateWindow(title: string, innerSize: PhysicalSize, log: CallLog) returns (w: Window)
      modifies log
      ensures fresh(w) && w.title == title && w.innerSize == innerSize && w.log == log
      ensures log.calls == old(log.calls) + [Call.CreateWindow(title)]
    {
      log.calls := log.calls + [Call.CreateWindow(title)];
      w := new Window(title, innerSize, log);
    }

    method Exit()
      modifies this
      ensures exiting
    {
      exiting := true;
    }
  }
}
