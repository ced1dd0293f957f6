/** VulkanRenderer bookkeeping: the fixed order of Initialize's creation steps,
    the texture and shader id counters with the four shader maps, and the
    frame ring advanced by EndFrame. Native calls are oracles. */
module Vulkan {
  import opened Common

  datatype Step =
    | CreateInstance | CreateSurface | PickPhysicalDevice | CreateLogicalDevice
    | CreateSwapchain | CreateImageViews | CreateRenderPass | CreateGraphicsPipeline
    | CreateFramebuffers | CreateCommandPool | CreateCommandBuffers | CreateSyncObjects

  /** The order in which Initialize calls the steps. */
  const InitSteps: seq<Step> := [
    CreateInstance, CreateSurface, PickPhysicalDevice, CreateLogicalDevice,
    CreateSwapchain, CreateImageViews, CreateRenderPass, CreateGraphicsPipeline,
    CreateFramebuffers, CreateCommandPool, CreateCommandBuffers, CreateSyncObjects]

  /** Whether a step reports failure when the native calls in `failing` fail;
      CreateGraphicsPipeline creates nothing and always reports success. */
  predicate Fails(s: Step, failing: set<Step>)
    ensures Fails(s, failing) ==> s in failing
    ensures s == CreateGraphicsPipeline ==> !Fails(s, failing)
  {
    s != CreateGraphicsPipeline && s in failing
  }

  /** The position of the first failing step, |steps| when none fails. */
  function FailIndex(steps: seq<Step>, failing: set<Step>): (k: nat)
    ensures k <= |steps|
    ensures forall j :: 0 <= j < k ==> !Fails(steps[j], failing)
    ensures k < |steps| ==> Fails(steps[k], failing)
    decreases |steps|
  {
    if steps == [] then 0
    else if Fails(steps[0], failing) then 0
    else 1 + FailIndex(steps[1..], failing)
  }

  /** The steps a run executes: all of them up to and including the first failure. */
  function Executed(steps: seq<Step>, failing: set<Step>): (r: seq<Step>)
    ensures |r| <= |steps| && r == steps[..|r|]
    ensures |steps| > 0 ==> |r| > 0
  {
    steps[..Min(FailIndex(steps, failing) + 1, |steps|)]
  }

  /** The first failing step is unique: any k with only successes before it and a
      failure (or the end) at it is FailIndex. */
  lemma {:induction false} FailIndexUnique(steps: seq<Step>, failing: set<Step>, k: nat)
    requires k <= |steps|
    requires forall j :: 0 <= j < k ==> !Fails(steps[j], failing)
    requires k < |steps| ==> Fails(steps[k], failing)
    ensures FailIndex(steps, failing) == k
    decreases |steps|
  {
    if steps != [] && k > 0 {
      FailIndexUnique(steps[1..], failing, k - 1);
    }
  }

  /** A run stops at its first failure: later steps never run, every executed
      step but the last succeeded, and the run succeeds exactly when every step does. */
  lemma ExecutedStopsAtFirstFailure(steps: seq<Step>, failing: set<Step>)
    ensures var r := Executed(steps, failing);
      (forall j :: 0 <= j < |r| - 1 ==> !Fails(r[j], failing)) &&
      (|r| < |steps| ==> |r| > 0 && Fails(r[|r| - 1], failing)) &&
      (|r| == |steps| <==> forall j :: 0 <= j < |steps| - 1 ==> !Fails(steps[j], failing))
  {
  }

  /** Missing GPU plumbing never hides behind the pipeline step: a failure
      injected into CreateGraphicsPipeline alone is no failure at all. */
  lemma PipelineStepNeverFails(failing: set<Step>)
    requires failing == {CreateGraphicsPipeline}
    ensures FailIndex(InitSteps, failing) == |InitSteps|
  {
    FailIndexUnique(InitSteps, failing, |InitSteps|);
  }

  /** The steps a run of Initialize leaves in its trace are exactly Executed:
      n steps whose last is the first failure, or all of them. */
  lemma InitializeRunsExecuted(failing: set<Step>, n: nat)
    requires 1 <= n <= |InitSteps|
    requires forall j :: 0 <= j < n - 1 ==> !Fails(InitSteps[j], failing)
    requires Fails(InitSteps[n - 1], failing) || n == |InitSteps|
    ensures InitSteps[..n] == Executed(InitSteps, failing)
  {
    if Fails(InitSteps[n - 1], failing) {
      FailIndexUnique(InitSteps, failing, n - 1);
    } else {
      FailIndexUnique(InitSteps, failing, n);
    }
  }

  datatype PresentResult = Success | OutOfDate | Suboptimal | PresentError

  /** How EndFrame ends: normally, or with the runtime_error it throws. */
  datatype FrameStatus = Presented | RecordFailed | SubmitFailed | PresentFailed

  class VulkanRenderer {
    /** The steps Initialize has run, in order. */
    var trace: seq<Step>
    /** inFlightFences.size(). */
    var fenceCount: nat
    var currentFrame: nat
    var nextTextureId: nat
    var nextShaderId: nat
    var vertexShaders: map<nat, Handle>
    var fragmentShaders: map<nat, Handle>
    var shaderPipelines: map<nat, Handle>
    var shaderPipelineLayouts: map<nat, Handle>
    /** Every vkDestroy* call LoadShader issues, in order. */
    var destroyed: seq<Handle>

    ghost predicate Valid()
      reads this
    {
      nextTextureId >= 1 && nextShaderId >= 1 &&
      (fenceCount == 0 || fenceCount == 2) && (fenceCount == 0 ==> currentFrame == 0) && (fenceCount > 0 ==> currentFrame < fenceCount) &&
      vertexShaders.Keys == fragmentShaders.Keys == shaderPipelines.Keys == shaderPipelineLayouts.Keys &&
      (forall id :: id in vertexShaders ==> 1 <= id < nextShaderId)
    }

    constructor ()
      ensures Valid()
      ensures trace == [] && fenceCount == 0 && currentFrame == 0
      ensures nextTextureId == 1 && nextShaderId == 1
      ensures vertexShaders == map[] && fragmentShaders == map[] && shaderPipelines == map[] && shaderPipelineLayouts == map[]
      ensures destroyed == []
    {
      trace := [];
      fenceCount, currentFrame := 0, 0;
      nextTextureId, nextShaderId := 1, 1;
      vertexShaders, fragmentShaders, shaderPipelines, shaderPipelineLayouts := map[], map[], map[], map[];
      destroyed := [];
    }

    /** The twelve creation steps in order, returning false at the first
        failure. CreateSyncObjects sizes its vectors to two before creating
        anything, so fenceCount is 2 once that step runs, even if it fails. */
    method Initialize(failing: set<Step>) returns (ok: bool)
      requires Valid()
      modifies this`trace, this`fenceCount
      ensures Valid()
      ensures var n := |trace| - |old(trace)|;
        1 <= n <= |InitSteps| && trace == old(trace) + InitSteps[..n] &&
        (forall j :: 0 <= j < n - 1 ==> !Fails(InitSteps[j], failing)) &&
        (ok <==> !Fails(InitSteps[n - 1], failing)) &&
        (!ok || n == |InitSteps|) &&
        fenceCount == if n == |InitSteps| then 2 else old(fenceCount)
    {
      // How far the chain gets: each step runs only if every earlier one succeeded.
      var n := 1;
      ok := !Fails(CreateInstance, failing);
      if ok { n := 2; ok := !Fails(CreateSurface, failing); }
      if ok { n := 3; ok := !Fails(PickPhysicalDevice, failing); }
      if ok { n := 4; ok := !Fails(CreateLogicalDevice, failing); }
      if ok { n := 5; ok := !Fails(CreateSwapchain, failing); }
      if ok { n := 6; ok := !Fails(CreateImageViews, failing); }
      if ok { n := 7; ok := !Fails(CreateRenderPass, failing); }
      if ok { n := 8; ok := !Fails(CreateGraphicsPipeline, failing); }
      if ok { n := 9; ok := !Fails(CreateFramebuffers, failing); }
      if ok { n := 10; ok := !Fails(CreateCommandPool, failing); }
      if ok { n := 11; ok := !Fails(CreateCommandBuffers, failing); }
      if ok { n := 12; ok := !Fails(CreateSyncObjects, failing); }
      trace := trace + InitSteps[..n];
      if n == |InitSteps| { fenceCount := 2; }
    }

    /** Always issues the next texture id and advances the counter; no texture is created. */
    method LoadTexture(filename: string) returns (id: nat)
      requires Valid()
      modifies this`nextTextureId
      ensures Valid()
      ensures id == old(nextTextureId) && id != 0
      ensures nextTextureId == old(nextTextureId) + 1
    {
      id := nextTextureId;
      nextTextureId := nextTextureId + 1;
    }

    /** LoadShader as written: when one shader module is created and the other
        is not, the created module is neither stored nor destroyed. Every other
        path behaves as LoadShader does. */
    method LoadShaderAsWritten(vertCode: seq<char>, fragCode: seq<char>,
                               vertModule: Handle, fragModule: Handle, layout: Handle, pipeline: Handle)
      returns (id: nat)
      requires Valid()
      modifies this`nextShaderId, this`vertexShaders, this`fragmentShaders, this`shaderPipelines,
               this`shaderPipelineLayouts, this`destroyed
      ensures Valid()
      ensures (|vertCode| == 0 || |fragCode| == 0 || vertModule == NULL || fragModule == NULL) ==>
        id == 0 && destroyed == old(destroyed)
      ensures id != 0 <==> (|vertCode| > 0 && |fragCode| > 0 && vertModule != NULL && fragModule != NULL &&
                           layout != NULL && pipeline != NULL)
      ensures id == 0 ==> nextShaderId == old(nextShaderId) && vertexShaders == old(vertexShaders)
      ensures id == 0 ==> fragmentShaders == old(fragmentShaders) && shaderPipelines == old(shaderPipelines)
      ensures id == 0 ==> shaderPipelineLayouts == old(shaderPipelineLayouts)
      ensures id != 0 ==> id == old(nextShaderId) && nextShaderId == old(nextShaderId) + 1 && id !in old(vertexShaders)
      ensures id != 0 ==> vertexShaders == old(vertexShaders)[id := vertModule]
      ensures id != 0 ==> fragmentShaders == old(fragmentShaders)[id := fragModule]
      ensures id != 0 ==> shaderPipelines == old(shaderPipelines)[id := pipeline]
      ensures id != 0 ==> shaderPipelineLayouts == old(shaderPipelineLayouts)[id := layout]
      ensures |vertCode| > 0 && |fragCode| > 0 && vertModule != NULL && fragModule != NULL ==>
        destroyed == old(destroyed) +
          if layout == NULL then [vertModule, fragModule]
          else if pipeline == NULL then [vertModule, fragModule, layout]
          else []
    {
      if |vertCode| == 0 || |fragCode| == 0 {
        return 0;
      }
      if vertModule == NULL || fragModule == NULL {
        return 0;
      }
      id := LoadShader(vertCode, fragCode, vertModule, fragModule, layout, pipeline);
    }

    /** Reads both files (empty code means the read failed), creates the two
        shader modules, the pipeline layout and the pipeline. At a failure it
        destroys what it created and returns 0 with the counter and maps
        unchanged; on success the next shader id keys all four maps. */
    method LoadShader(vertCode: seq<char>, fragCode: seq<char>,
                      vertModule: Handle, fragModule: Handle, layout: Handle, pipeline: Handle)
      returns (id: nat)
      requires Valid()
      modifies this`nextShaderId, this`vertexShaders, this`fragmentShaders, this`shaderPipelines,
               this`shaderPipelineLayouts, this`destroyed
      ensures Valid()
      ensures id != 0 <==> (|vertCode| > 0 && |fragCode| > 0 && vertModule != NULL && fragModule != NULL &&
                           layout != NULL && pipeline != NULL)
      ensures id == 0 ==> nextShaderId == old(nextShaderId) && vertexShaders == old(vertexShaders)
      ensures id == 0 ==> fragmentShaders == old(fragmentShaders) && shaderPipelines == old(shaderPipelines)
      ensures id == 0 ==> shaderPipelineLayouts == old(shaderPipelineLayouts)
      ensures id != 0 ==> id == old(nextShaderId) && nextShaderId == old(nextShaderId) + 1 && id !in old(vertexShaders)
      ensures id != 0 ==> vertexShaders == old(vertexShaders)[id := vertModule]
      ensures id != 0 ==> fragmentShaders == old(fragmentShaders)[id := fragModule]
      ensures id != 0 ==> shaderPipelines == old(shaderPipelines)[id := pipeline]
      ensures id != 0 ==> shaderPipelineLayouts == old(shaderPipelineLayouts)[id := layout]
      ensures destroyed == old(destroyed) +
        if |vertCode| == 0 || |fragCode| == 0 then []
        else if vertModule == NULL || fragModule == NULL then IfLive(vertModule) + IfLive(fragModule)
        else if layout == NULL then [vertModule, fragModule]
        else if pipeline == NULL then [vertModule, fragModule, layout]
        else []
    {
      if |vertCode| == 0 || |fragCode| == 0 {
        return 0;
      }
      if vertModule == NULL || fragModule == NULL {
        destroyed := destroyed + IfLive(vertModule) + IfLive(fragModule);
        return 0;
      }
      if layout == NULL {
        destroyed := destroyed + [vertModule, fragModule];
        return 0;
      }
      if pipeline == NULL {
        destroyed := destroyed + [vertModule, fragModule, layout];
        return 0;
      }
      id := nextShaderId;
      nextShaderId := nextShaderId + 1;
      vertexShaders := vertexShaders[id := vertModule];
      fragmentShaders := fragmentShaders[id := fragModule];
      shaderPipelines := shaderPipelines[id := pipeline];
      shaderPipelineLayouts := shaderPipelineLayouts[id := layout];
    }

    /** Ends and submits the frame's command buffer and presents; each native
        failure throws (the status says which), an out-of-date or suboptimal
        swap chain is tolerated, and a completed frame advances the ring. */
    method EndFrame(endOk: bool, submitOk: bool, present: PresentResult) returns (status: FrameStatus)
      requires Valid() && fenceCount > 0
      modifies this`currentFrame
      ensures Valid()
      ensures status == (if !endOk then RecordFailed else if !submitOk then SubmitFailed
                         else if present == PresentError then PresentFailed else Presented)
      ensures status == Presented ==> currentFrame == (old(currentFrame) + 1) % fenceCount
      ensures status != Presented ==> currentFrame == old(currentFrame)
    {
      if !endOk {
        return RecordFailed;
      }
      if !submitOk {
        return SubmitFailed;
      }
      if present == PresentError {
        return PresentFailed;
      }
      currentFrame := (currentFrame + 1) % fenceCount;
      return Presented;
    }
  }

  /** With the two sync objects, presented frames alternate 0, 1, 0, 1. */
  method FrameRingScenario() returns (frames: seq<nat>)
    ensures frames == [0, 1, 0, 1]
  {
    var vk := new VulkanRenderer();
    var ok := vk.Initialize({});
    frames := [vk.currentFrame];
    var i := 0;
    while i < 3
      invariant 0 <= i <= 3
      invariant vk.Valid() && vk.fenceCount == 2
      invariant |frames| == i + 1 && frames[i] == vk.currentFrame
      invariant forall k :: 0 <= k <= i ==> frames[k] == k % 2
      modifies vk
    {
      var status := vk.EndFrame(true, true, Success);
      frames := frames + [vk.currentFrame];
      i := i + 1;
    }
  }

  /** A failing step stops Initialize there: a failed swap chain leaves the
      five steps up to it in the trace and no sync objects. */
  method SwapchainFailureScenario() returns (stepsRun: seq<Step>, ok: bool, fences: nat)
    ensures stepsRun == [CreateInstance, CreateSurface, PickPhysicalDevice, CreateLogicalDevice, CreateSwapchain]
    ensures !ok && fences == 0
  {
    var vk := new VulkanRenderer();
    ok := vk.Initialize({CreateSwapchain});
    ghost var n := |vk.trace|;
    assert n - 1 <= 4 by {
      assert Fails(InitSteps[4], {CreateSwapchain});
    }
    stepsRun := vk.trace;
    fences := vk.fenceCount;
  }

  /** As written, a failed fragment module leaks the vertex module built just
      before it; the corrected LoadShader destroys it. */
  method ShaderModuleLeakScenario(vertModule: Handle) returns (destroyedAsWritten: seq<Handle>, destroyedCorrected: seq<Handle>)
    requires vertModule != NULL
    ensures destroyedAsWritten == []
    ensures destroyedCorrected == [vertModule]
  {
    var a := new VulkanRenderer();
    var id1 := a.LoadShaderAsWritten("void main() {}", "void main() {}", vertModule, NULL, 7, 8);
    destroyedAsWritten := a.destroyed;
    var b := new VulkanRenderer();
    var id2 := b.LoadShader("void main() {}", "void main() {}", vertModule, NULL, 7, 8);
    destroyedCorrected := b.destroyed;
  }

  /** Shader ids count only successful loads: a failure between two successes
      yields ids 1, 0, 2. */
  method ShaderIdScenario() returns (id1: nat, id2: nat, id3: nat)
    ensures id1 == 1 && id2 == 0 && id3 == 2
  {
    var vk := new VulkanRenderer();
    id1 := vk.LoadShader("v", "f", 1, 2, 3, 4);
    id2 := vk.LoadShader("v", "", 5, 6, 7, 8);
    id3 := vk.LoadShader("v", "f", 9, 10, 11, 12);
  }
}
