/**
 * examples/load_model: an app that draws a 10x10 grid of instances of one
 * mesh. Unlike the triangle programs it applies recorded resizes, at the
 * start of every `render`, and keeps a depth texture sized like the surface.
 */
module LoadModel {
  import opened Bytes
  import opened Platform
  import opened DeferredResize
  import opened BufferLayout
  import LoadModelVertex
  import LoadModelInstance

  const NumInstancesPerRow: nat := 10

  /**
   * The grid coordinates an instance is built from; the position and rotation
   * computed from them are floating point and not modelled.
   */
  datatype GridCell = GridCell(x: nat, z: nat)

  /** `(0..n).map(move |x| ...)` for one `z`. */
  function Row(z: nat, n: nat): (r: seq<GridCell>)
    ensures |r| == n
    ensures forall x :: 0 <= x < n ==> r[x] == GridCell(x, z)
  {
    if n == 0 then [] else Row(z, n - 1) + [GridCell(n - 1, z)]
  }

  /**
   * `(0..rows).flat_map(|z| Row(z, NumInstancesPerRow))`: z is the outer loop,
   * x the inner one. There are `10 * rows` cells, each inside the grid.
   */
  function Grid(rows: nat): (g: seq<GridCell>)
    ensures |g| == NumInstancesPerRow * rows
    ensures forall k :: 0 <= k < |g| ==> g[k].x < NumInstancesPerRow && g[k].z < rows
  {
    if rows == 0 then [] else Grid(rows - 1) + Row(rows - 1, NumInstancesPerRow)
  }

  /** Cell `(x, z)` is entry `10 * z + x`: z is the outer loop, x the inner one. */
  lemma {:induction false} GridShape(rows: nat)
    ensures forall z, x :: 0 <= z < rows && 0 <= x < 10 ==> Grid(rows)[10 * z + x] == GridCell(x, z)
  {
    if rows > 0 {
      GridShape(rows - 1);
      var prev := Grid(rows - 1);
      var row := Row(rows - 1, NumInstancesPerRow);
      assert Grid(rows) == prev + row;
      forall z, x | 0 <= z < rows && 0 <= x < 10
        ensures Grid(rows)[10 * z + x] == GridCell(x, z)
      {
        if z < rows - 1 {
          assert Grid(rows)[10 * z + x] == prev[10 * z + x];
        } else {
          assert Grid(rows)[10 * z + x] == row[x];
        }
      }
    }
  }

  /** The instance list built in `new`: 100 cells, each in the 10x10 grid. */
  function InstanceGrid(): (g: seq<GridCell>)
    ensures |g| == 100
    ensures forall k :: 0 <= k < |g| ==> g[k].x < NumInstancesPerRow && g[k].z < NumInstancesPerRow
  {
    Grid(NumInstancesPerRow)
  }

  /**
   * There are `NumInstancesPerRow`² = 100 instances, row by row: the one
   * built from `(x, z)` is entry `10 * z + x`.
   */
  lemma InstanceGridShape()
    ensures |InstanceGrid()| == NumInstancesPerRow * NumInstancesPerRow == 100
    ensures forall z, x :: 0 <= z < NumInstancesPerRow && 0 <= x < NumInstancesPerRow ==>
      InstanceGrid()[NumInstancesPerRow * z + x] == GridCell(x, z)
  {
    GridShape(NumInstancesPerRow);
  }

  /** Rust's `n as u32`: keeps the low 32 bits. */
  function TruncateU32(n: nat): (r: u32)
    ensures r as int <= n
    ensures n < 0x1_0000_0000 ==> r as int == n
    ensures (n - r as int) % 0x1_0000_0000 == 0
  {
    n % 0x1_0000_0000
  }

  /** `Texture::create_depth_texture`, reduced to the configuration it is made from. */
  datatype DepthTexture = DepthTexture(config: SurfaceConfiguration)

  class App {
    const window: Window
    const log: CallLog
    var surfaceConfig: SurfaceConfiguration
    var size: PhysicalSize
    var sizeChanged: bool
    /** Calls of `Surface::configure` so far. */
    var configures: nat
    var depthTexture: DepthTexture
    const instances: seq<GridCell> := InstanceGrid()

    ghost function State(): ResizeState
      reads this
    {
      ResizeState(size, sizeChanged, surfaceConfig, configures)
    }

    /** The depth texture always has the surface's dimensions. */
    ghost predicate Valid()
      reads this
    {
      depthTexture.config == surfaceConfig
    }

    /**
     * `App::new`, reduced to the surface configuration, the depth texture, the
     * resize fields and the instance grid.
     */
    constructor(window: Window)
      modifies window.log
      ensures Valid()
      ensures this.window == window && log == window.log
      ensures State() == Initial(window.innerSize)
      ensures log.calls == old(window.log.calls) + [Call.NewApp]
    {
      this.window := window;
      log := window.log;
      var inner := window.innerSize;
      var config := SurfaceConfiguration(inner.width, inner.height);
      size := inner;
      surfaceConfig := config;
      configures := 1;
      depthTexture := DepthTexture(config);
      sizeChanged := false;
      new;
      log.calls := log.calls + [Call.NewApp];
    }

    /** Records a new size; an equal size changes nothing. */
    method SetWindowResized(newSize: PhysicalSize)
      requires Valid()
      modifies this, log
      ensures Valid()
      ensures State() == Record(old(State()), newSize)
      ensures depthTexture == old(depthTexture)
      ensures log.calls == old(log.calls) + [Call.SetWindowResized(newSize)]
    {
      log.calls := log.calls + [Call.SetWindowResized(newSize)];
      if newSize == size {
        return;
      }
      size := newSize;
      sizeChanged := true;
    }

    /**
     * Applies a pending resize: the surface is reconfigured at the logical
     * size and the depth texture recreated from the new configuration.
     */
    method ResizeSurfaceIfNeeded()
      requires Valid()
      modifies this, log
      ensures Valid()
      ensures State() == Apply(old(State()))
      ensures !old(sizeChanged) ==> depthTexture == old(depthTexture)
      ensures log.calls == old(log.calls) + [Call.ResizeSurfaceIfNeeded]
    {
      log.calls := log.calls + [Call.ResizeSurfaceIfNeeded];
      if sizeChanged {
        surfaceConfig := surfaceConfig.(width := size.width, height := size.height);
        configures := configures + 1;
        depthTexture := DepthTexture(surfaceConfig);
        sizeChanged := false;
      }
    }

    /**
     * `render`: any pending resize is applied before the frame is acquired, so
     * the flag is clear afterwards even when acquisition fails. With a frame it
     * draws the model once for instances `0..instances.len() as u32`.
     */
    method Render(acquired: SurfaceResult) returns (r: SurfaceResult)
      requires Valid()
      modifies this, log
      ensures Valid()
      ensures r == acquired
      ensures State() == Apply(old(State())) && !sizeChanged
      ensures log.calls == old(log.calls) + [Call.Render, Call.ResizeSurfaceIfNeeded, Call.AcquireFrame]
        + (if acquired.Ok? then [Call.DrawModelInstanced(Range(0, TruncateU32(|instances|))), Call.Present] else [])
    {
      log.calls := log.calls + [Call.Render];
      ResizeSurfaceIfNeeded();
      log.calls := log.calls + [Call.AcquireFrame];
      if acquired.Err? {
        return acquired;
      }
      log.calls := log.calls + [Call.DrawModelInstanced(Range(0, TruncateU32(|instances|)))];
      log.calls := log.calls + [Call.Present];
      r := Ok;
    }

    method Update()
      modifies log
      ensures log.calls == old(log.calls) + [Call.Update]
    {
      log.calls := log.calls + [Call.Update];
    }
  }

  /** Every frame draws all hundred instances. */
  lemma DrawsWholeGrid()
    ensures TruncateU32(|InstanceGrid()|) == 100
  {
    InstanceGridShape();
  }

  /** The two vertex buffers of the render pipeline, in slot order. */
  function PipelineBuffers(): (bs: seq<VertexBufferLayout>)
    ensures |bs| == 2
    ensures bs[0].stepMode == PerInstance && bs[1].stepMode == PerVertex
  {
    [LoadModelInstance.BufferLayoutDesc(), LoadModelVertex.BufferLayoutDesc()]
  }

  /** Some attribute of `l` is read at shader location `loc`. */
  predicate DeclaresLocation(l: VertexBufferLayout, loc: nat) {
    exists i :: 0 <= i < |l.attributes| && l.attributes[i].shaderLocation == loc
  }

  /**
   * Shader locations 5 and 6 are each declared by both buffers of the
   * pipeline: by the instance matrix's first two columns and by the vertex's
   * texture coordinates and normal. The pipeline's attributes taken together
   * therefore do not have distinct locations.
   */
  lemma PipelineLocationsShared()
    ensures DeclaresLocation(PipelineBuffers()[0], 5) && DeclaresLocation(PipelineBuffers()[1], 5)
    ensures DeclaresLocation(PipelineBuffers()[0], 6) && DeclaresLocation(PipelineBuffers()[1], 6)
    ensures !DistinctLocations(PipelineBuffers()[0].attributes + PipelineBuffers()[1].attributes)
  {
    var inst := PipelineBuffers()[0].attributes;
    var vert := PipelineBuffers()[1].attributes;
    assert inst[0].shaderLocation == 5 && inst[1].shaderLocation == 6;
    assert vert[1].shaderLocation == 5 && vert[2].shaderLocation == 6;
    var all := inst + vert;
    assert all[0] == inst[0] && all[|inst| + 1] == vert[1];
  }
}
