/** DirectXRenderer: Direct3D 11 device pointers, the texture and shader
    tables keyed by size+1 ids, and the state bound on the device context.
    Every native creation call is an oracle: the handle it returns, NULL for
    failure. Released COM objects are recorded in order. */
module DirectX {
  import opened Common

  datatype TextureData = TextureData(id: nat, filename: string, texture: Handle, resourceView: Handle)

  datatype ShaderData = ShaderData(id: nat, vertexShaderFile: string, fragmentShaderFile: string,
                                   vertexShader: Handle, pixelShader: Handle, inputLayout: Handle)

  /** What UseShader leaves bound: vertex shader, pixel shader, input layout. */
  datatype ShaderBinding = ShaderBinding(vertexShader: Handle, pixelShader: Handle, inputLayout: Handle)

  const NoShaders := ShaderBinding(NULL, NULL, NULL)

  /** Keys are exactly 1..|m|, each record carries its own key and holds live objects. */
  ghost predicate TextureTable(m: map<nat, TextureData>) {
    (forall id :: id in m <==> 1 <= id <= |m|) &&
    (forall id :: id in m ==> m[id].id == id && m[id].texture != NULL && m[id].resourceView != NULL)
  }

  ghost predicate ShaderTable(m: map<nat, ShaderData>) {
    (forall id :: id in m <==> 1 <= id <= |m|) &&
    (forall id :: id in m ==>
       m[id].id == id && m[id].vertexShader != NULL && m[id].pixelShader != NULL && m[id].inputLayout != NULL)
  }

  /** The candidate id of both loaders: one more than the table size. */
  function NextId<T>(m: map<nat, T>): (id: nat)
    ensures id >= 1
  {
    |m| + 1
  }

  /** In a dense table the candidate id is never a key and extends the key range. */
  lemma NextIdFresh(m: map<nat, TextureData>, d: TextureData)
    requires TextureTable(m) && d.id == NextId(m) && d.texture != NULL && d.resourceView != NULL
    ensures NextId(m) !in m
    ensures TextureTable(m[NextId(m) := d])
  {
    var id := NextId(m);
    var m' := m[id := d];
    assert |m'| == |m| + 1;
  }

  lemma NextShaderIdFresh(m: map<nat, ShaderData>, d: ShaderData)
    requires ShaderTable(m) && d.id == NextId(m)
    requires d.vertexShader != NULL && d.pixelShader != NULL && d.inputLayout != NULL
    ensures NextId(m) !in m
    ensures ShaderTable(m[NextId(m) := d])
  {
    var id := NextId(m);
    var m' := m[id := d];
    assert |m'| == |m| + 1;
  }

  /** The view UseTexture binds: the stored one for a key with a view, else null. */
  function TextureViewFor(textures: map<nat, TextureData>, id: nat): (v: Handle)
    ensures v != NULL ==> id in textures && v == textures[id].resourceView
  {
    if id in textures && textures[id].resourceView != NULL then textures[id].resourceView else NULL
  }

  /** Id 0, which LoadTexture returns on failure, binds null exactly as an
      unknown id does; every stored texture binds its own view. */
  lemma UseTextureZeroIsUnknown(textures: map<nat, TextureData>)
    requires TextureTable(textures)
    ensures 0 !in textures && TextureViewFor(textures, 0) == NULL
    ensures forall id :: id !in textures ==> TextureViewFor(textures, id) == NULL
    ensures forall id :: id in textures ==> TextureViewFor(textures, id) == textures[id].resourceView
  {
  }

  /** What UseShader binds: a stored record whose two shaders are non-null, else all null. */
  function ShaderBindingFor(shaders: map<nat, ShaderData>, id: nat): (b: ShaderBinding)
    ensures b.vertexShader != NULL ==> id in shaders
  {
    if id in shaders && shaders[id].vertexShader != NULL && shaders[id].pixelShader != NULL then
      ShaderBinding(shaders[id].vertexShader, shaders[id].pixelShader, shaders[id].inputLayout)
    else
      NoShaders
  }

  /** UseShader never binds a mixture: either all three objects of one stored
      record, or nothing at all; the latter exactly for ids not in the table. */
  lemma ShaderBindingAllOrNothing(shaders: map<nat, ShaderData>, id: nat)
    requires ShaderTable(shaders)
    ensures var b := ShaderBindingFor(shaders, id);
      (id in shaders ==> b == ShaderBinding(shaders[id].vertexShader, shaders[id].pixelShader, shaders[id].inputLayout) &&
                         b.vertexShader != NULL && b.pixelShader != NULL && b.inputLayout != NULL) &&
      (id !in shaders ==> b == NoShaders)
  {
  }

  /** The six indices of DrawQuad: triangles (0, 1, 2) and (1, 3, 2). */
  const QuadIndices: seq<nat> := [0, 1, 2, 1, 3, 2]

  /** DrawIndexed(6) consumes exactly the index list, whose entries name only
      the four corners, every corner at least once, as two triangles sharing
      the diagonal 1-2. */
  lemma QuadIndicesWellFormed()
    ensures |QuadIndices| == 6
    ensures forall k :: 0 <= k < |QuadIndices| ==> QuadIndices[k] < 4
    ensures forall v :: 0 <= v < 4 ==> v in QuadIndices
    ensures QuadIndices[1] == QuadIndices[3] && QuadIndices[2] == QuadIndices[5]
  {
    assert QuadIndices[0] == 0 && QuadIndices[4] == 3;
  }

  /** A vertex of DrawCircle's fan: the centre, or rim point i at angle 2*pi*i/segments. */
  datatype FanVertex = Centre | Rim(i: int)

  /** The vertex list DrawCircle builds: the centre, then rim points 0..segments. */
  method CircleVertices(segments: int) returns (vertices: seq<FanVertex>)
    ensures |vertices| == if segments >= 0 then segments + 2 else 1
    ensures vertices[0] == Centre
    ensures forall k :: 1 <= k < |vertices| ==> vertices[k] == Rim(k - 1)
  {
    vertices := [Centre];
    var i := 0;
    while i <= segments
      invariant segments >= 0 ==> 0 <= i <= segments + 1
      invariant segments < 0 ==> i == 0
      invariant |vertices| == i + 1 && vertices[0] == Centre
      invariant forall k :: 1 <= k < |vertices| ==> vertices[k] == Rim(k - 1)
    {
      vertices := vertices + [Rim(i)];
      i := i + 1;
    }
  }

  /** Draw(size - 1, 1) covers every rim vertex and skips only the centre. */
  method CircleDrawRange(segments: int) returns (count: int, start: int)
    ensures segments >= 0 ==> count == segments + 1 && start == 1
    ensures segments < 0 ==> count == 0
  {
    var vertices := CircleVertices(segments);
    count := |vertices| - 1;
    start := 1;
  }

  class DirectXRenderer {
    var device: Handle
    var context: Handle
    var swapChain: Handle
    var renderTargetView: Handle
    var textures: map<nat, TextureData>
    var shaders: map<nat, ShaderData>
    /** State bound on the device context. */
    var boundTarget: Handle
    var boundView: Handle
    var boundShaders: ShaderBinding
    var viewportWidth: nat
    var viewportHeight: nat
    /** Every Release() issued, in order. */
    var released: seq<Handle>

    ghost predicate Valid()
      reads this
    {
      TextureTable(textures) && ShaderTable(shaders)
    }

    constructor ()
      ensures Valid()
      ensures device == NULL && context == NULL && swapChain == NULL && renderTargetView == NULL
      ensures textures == map[] && shaders == map[] && released == []
      ensures boundTarget == NULL && boundView == NULL && boundShaders == NoShaders
    {
      device, context, swapChain, renderTargetView := NULL, NULL, NULL, NULL;
      textures, shaders := map[], map[];
      boundTarget, boundView, boundShaders := NULL, NULL, NoShaders;
      viewportWidth, viewportHeight := 0, 0;
      released := [];
    }

    /** Creates device, context and swap chain (all or none), takes the back
        buffer, creates the render-target view and releases the back buffer,
        then binds the target and sets a width x height viewport. Each step
        returns false on failure without running the later ones. */
    method Initialize(width: nat, height: nat, newSwapChain: Handle, newDevice: Handle, newContext: Handle,
                      backBuffer: Handle, view: Handle) returns (ok: bool)
      requires Valid()
      modifies this
      ensures Valid()
      ensures textures == old(textures) && shaders == old(shaders) && boundView == old(boundView)
      ensures boundShaders == old(boundShaders)
      ensures ok <==> newSwapChain != NULL && newDevice != NULL && newContext != NULL && backBuffer != NULL && view != NULL
      ensures !(newSwapChain != NULL && newDevice != NULL && newContext != NULL) ==>
        swapChain == old(swapChain) && device == old(device) && context == old(context) &&
        renderTargetView == old(renderTargetView) && released == old(released) && boundTarget == old(boundTarget)
      ensures newSwapChain != NULL && newDevice != NULL && newContext != NULL ==>
        swapChain == newSwapChain && device == newDevice && context == newContext
      ensures newSwapChain != NULL && newDevice != NULL && newContext != NULL && backBuffer == NULL ==>
        renderTargetView == old(renderTargetView) && released == old(released) && boundTarget == old(boundTarget)
      ensures newSwapChain != NULL && newDevice != NULL && newContext != NULL && backBuffer != NULL ==>
        renderTargetView == view && released == old(released) + [backBuffer]
      ensures ok ==> boundTarget == view && viewportWidth == width && viewportHeight == height
      ensures !ok ==> boundTarget == old(boundTarget) && viewportWidth == old(viewportWidth) && viewportHeight == old(viewportHeight)
    {
      if newSwapChain == NULL || newDevice == NULL || newContext == NULL {
        return false;
      }
      swapChain, device, context := newSwapChain, newDevice, newContext;
      if backBuffer == NULL {
        return false;
      }
      renderTargetView := view;
      released := released + [backBuffer];
      if view == NULL {
        return false;
      }
      boundTarget := view;
      viewportWidth, viewportHeight := width, height;
      return true;
    }

    /** Releases each non-null pointer (view, swap chain, context, device) and
        nulls all four; the tables are untouched. */
    method Cleanup()
      requires Valid()
      modifies this`released, this`renderTargetView, this`swapChain, this`context, this`device
      ensures Valid()
      ensures released == old(released) + IfLive(old(renderTargetView)) + IfLive(old(swapChain)) + IfLive(old(context)) + IfLive(old(device))
      ensures renderTargetView == NULL && swapChain == NULL && context == NULL && device == NULL
    {
      // Each pointer is released only when non-null (IfLive), in this order.
      released := released + IfLive(renderTargetView) + IfLive(swapChain) + IfLive(context) + IfLive(device);
      renderTargetView, swapChain, context, device := NULL, NULL, NULL, NULL;
    }

    /** Stores a texture under id |textures|+1 when both the texture and its
        view are created; returns 0 otherwise, releasing a texture whose view
        failed. */
    method LoadTexture(filename: string, texture: Handle, view: Handle) returns (id: nat)
      requires Valid() && device != NULL
      modifies this`textures, this`released
      ensures Valid()
      ensures id != 0 <==> texture != NULL && view != NULL
      ensures id != 0 ==> id == old(NextId(textures)) && id !in old(textures)
      ensures id != 0 ==> textures == old(textures)[id := TextureData(id, filename, texture, view)]
      ensures id != 0 ==> released == old(released)
      ensures id == 0 ==> textures == old(textures)
      ensures texture == NULL ==> released == old(released)
      ensures texture != NULL && view == NULL ==> released == old(released) + [texture]
    {
      var textureId := NextId(textures);
      if texture == NULL {
        return 0;
      }
      if view == NULL {
        released := released + [texture];
        return 0;
      }
      NextIdFresh(textures, TextureData(textureId, filename, texture, view));
      textures := textures[textureId := TextureData(textureId, filename, texture, view)];
      return textureId;
    }

    /** Compiles both shaders (blobs), creates the two shader objects and the
        input layout; returns 0 at the first failure after releasing what was
        created so far, else stores the record under |shaders|+1 and releases
        the two blobs. */
    method LoadShader(vertexShaderFile: string, fragmentShaderFile: string,
                      vsBlob: Handle, psBlob: Handle, vs: Handle, ps: Handle, layout: Handle) returns (id: nat)
      requires Valid() && device != NULL
      modifies this`shaders, this`released
      ensures Valid()
      ensures id != 0 <==> vsBlob != NULL && psBlob != NULL && vs != NULL && ps != NULL && layout != NULL
      ensures id != 0 ==> id == old(NextId(shaders)) && id !in old(shaders)
      ensures id != 0 ==> shaders == old(shaders)[id := ShaderData(id, vertexShaderFile, fragmentShaderFile, vs, ps, layout)]
      ensures id == 0 ==> shaders == old(shaders)
      ensures released == old(released) +
        if vsBlob == NULL then []
        else if psBlob == NULL then [vsBlob]
        else if vs == NULL then [vsBlob, psBlob]
        else if ps == NULL then [vsBlob, psBlob, vs]
        else if layout == NULL then [vsBlob, psBlob, vs, ps]
        else [vsBlob, psBlob]
    {
      var shaderId := NextId(shaders);
      if vsBlob == NULL {
        return 0;
      }
      if psBlob == NULL {
        released := released + [vsBlob];
        return 0;
      }
      if vs == NULL {
        released := released + [vsBlob, psBlob];
        return 0;
      }
      if ps == NULL {
        released := released + [vsBlob, psBlob, vs];
        return 0;
      }
      if layout == NULL {
        released := released + [vsBlob, psBlob, vs, ps];
        return 0;
      }
      NextShaderIdFresh(shaders, ShaderData(shaderId, vertexShaderFile, fragmentShaderFile, vs, ps, layout));
      shaders := shaders[shaderId := ShaderData(shaderId, vertexShaderFile, fragmentShaderFile, vs, ps, layout)];
      released := released + [vsBlob, psBlob];
      return shaderId;
    }

    method UseTexture(id: nat)
      requires Valid() && context != NULL
      modifies this`boundView
      ensures boundView == TextureViewFor(textures, id)
    {
      if id in textures && textures[id].resourceView != NULL {
        boundView := textures[id].resourceView;
      } else {
        boundView := NULL;
      }
    }

    method UseShader(id: nat)
      requires Valid() && context != NULL
      modifies this`boundShaders
      ensures boundShaders == ShaderBindingFor(shaders, id)
    {
      if id in shaders && shaders[id].vertexShader != NULL && shaders[id].pixelShader != NULL {
        boundShaders := ShaderBinding(shaders[id].vertexShader, shaders[id].pixelShader, shaders[id].inputLayout);
      } else {
        boundShaders := NoShaders;
      }
    }

    /** Releases and nulls the render-target view first, then resizes the swap
        chain, takes the new back buffer, creates a new view (releasing the back
        buffer) and binds it with a width x height viewport. A failure at any
        step returns with the view left null. */
    method SetSurface(width: nat, height: nat, resizeOk: bool, backBuffer: Handle, view: Handle)
      requires Valid() && swapChain != NULL && device != NULL && context != NULL
      modifies this`renderTargetView, this`released, this`boundTarget, this`viewportWidth, this`viewportHeight
      ensures Valid()
      ensures var dropped := IfLive(old(renderTargetView));
        if !resizeOk || backBuffer == NULL then released == old(released) + dropped
        else released == old(released) + dropped + [backBuffer]
      ensures !resizeOk || backBuffer == NULL || view == NULL ==>
        renderTargetView == NULL && boundTarget == old(boundTarget) &&
        viewportWidth == old(viewportWidth) && viewportHeight == old(viewportHeight)
      ensures resizeOk && backBuffer != NULL && view != NULL ==>
        renderTargetView == view && boundTarget == view && viewportWidth == width && viewportHeight == height
    {
      if renderTargetView != NULL {
        released := released + [renderTargetView];
        renderTargetView := NULL;
      }
      if !resizeOk {
        return;
      }
      if backBuffer == NULL {
        return;
      }
      renderTargetView := view;
      released := released + [backBuffer];
      if view == NULL {
        return;
      }
      boundTarget := view;
      viewportWidth, viewportHeight := width, height;
    }
  }

  /** A second Cleanup releases nothing: after the first every pointer is null. */
  method CleanupTwiceScenario(swap: Handle, dev: Handle, ctx: Handle, backBuffer: Handle, view: Handle)
    returns (firstReleases: seq<Handle>, secondReleases: seq<Handle>)
    requires swap != NULL && dev != NULL && ctx != NULL && backBuffer != NULL && view != NULL
    ensures firstReleases == [view, swap, ctx, dev]
    ensures secondReleases == []
  {
    var dx := new DirectXRenderer();
    var ok := dx.Initialize(800, 600, swap, dev, ctx, backBuffer, view);
    var before := dx.released;
    dx.Cleanup();
    firstReleases := dx.released[|before|..];
    var middle := dx.released;
    dx.Cleanup();
    secondReleases := dx.released[|middle|..];
  }

  /** A failed load leaves the next candidate id where it was, so ids stay
      dense: a failure between two successes yields ids 1 and 2. */
  method TextureIdScenario(t1: Handle, v1: Handle, t2: Handle, t3: Handle, v3: Handle)
    returns (id1: nat, id2: nat, id3: nat)
    requires t1 != NULL && v1 != NULL && t2 != NULL && t3 != NULL && v3 != NULL
    ensures id1 == 1 && id2 == 0 && id3 == 2
  {
    var dx := new DirectXRenderer();
    var ok := dx.Initialize(800, 600, 1, 2, 3, 4, 5);
    id1 := dx.LoadTexture("a.png", t1, v1);
    id2 := dx.LoadTexture("b.png", t2, NULL);
    id3 := dx.LoadTexture("c.png", t3, v3);
  }
}
