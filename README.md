# NewGameMaker window manager and renderer bookkeeping, in Dafny

This project models the integer and bookkeeping core of NewGameMaker, a C++
engine that keeps a registry of Win32 windows and draws through one of
several renderer back ends. Native calls are not modelled. Each Win32, GDI,
Direct3D 11 or Vulkan call becomes an oracle: a parameter that gives the
handle or status the call returned, with 0 (`NULL`) for failure. The model
covers:

- `Rect`, the window manager's rectangle: its strict overlap test and its
  clipping intersection (`geometry.dfy`, module `Geometry`).
- `Win32Window`: the lifecycle over `valid_`, `visible_`, `hwnd_` and
  `title_`, and the process-wide window-class atom (`win32_window.dfy`,
  module `Win32`). The static atom is a `WindowClass` object that all windows
  share.
- `WindowManager`: the name-keyed registry of windows, its lookups and its
  loops over every window (`window_manager.dfy`, module `WindowManagement`).
- `SoftwareRenderer`: the framebuffer of `width*height` BGRA pixels, which is
  an `array<byte>` drawn on in place (`software_renderer.dfy`, module
  `Software`). It draws clears, pixels, Bresenham lines, clamped quads and
  filled discs, and sorts triangle vertices. It also has the texture-id
  counter and the surface resize. Two value-level modules specify it:
  - `framebuffer.dfy` (module `Framebuffer`): what a pixel write does to the
    byte sequence.
  - `bresenham.dfy` (module `Bresenham`): the exact point sequence of the
    line loop.
- `DirectXRenderer`: the texture and shader tables keyed by `size+1`, the
  lookup-or-null bindings, the release-and-null `Cleanup`, the
  release-first `SetSurface`, the `Initialize` failure chain, and the index
  and vertex counts of quads and circles (`directx_renderer.dfy`, module
  `DirectX`).
- `VulkanRenderer`: the order of the twelve `Initialize` steps, the texture
  and shader counters with the four shader maps, and the frame-in-flight
  ring (`vulkan_renderer.dfy`, module `Vulkan`).
- The Vulkan selection helpers ChooseSwapSurfaceFormat, ChooseSwapPresentMode,
  ChooseSwapExtent, the image-count clamp, FindMemoryType and
  FindQueueFamilies, written as pure functions (`vulkan_select.dfy`, module
  `VulkanSelect`).

`common.dfy` (module `Common`) holds the byte type, `Handle`, `Option`,
`Max`/`Min` and `IfLive`, the release log of a null-checked release that the
Direct3D and Vulkan renderers share.

## Model

| member | source | states |
|---|---|---|
| Common.IfLive | Renderer/DirectXRenderer.cpp:101-104 | A definition, not a property: a null pointer releases (or destroys) nothing and a non-null one releases itself. The DirectX Cleanup and SetSurface contracts and the Vulkan LoadShader contract state their release logs with it. |
| Geometry.DefaultRect | WindowManager/WindowManager.h:12-13 | The default-argument Rect is (0,0,0,0). |
| Geometry.Rect.GetIntersection | WindowManager/WindowManager.h:24-34 | The intersection is either the degenerate (0,0,0,0) rectangle or has positive width and height. |
| Geometry.TouchingEdgesDoNotIntersect | WindowManager/WindowManager.h:16-21 | (0,0,10,10) and (10,0,10,10) share only an edge and do not intersect, in either order. |
| Geometry.IntersectionExamples | WindowManager/WindowManager.h:16-34 | Worked cases: two overlapping rectangles clip to (5,5,5,5) and to (300,200,100,100); a disjoint pair does not intersect and yields (0,0,0,0). |
| Geometry.Rect.Intersects | WindowManager/WindowManager.h:16-21 | For rectangles of positive area, the strict overlap test holds exactly when the box from the larger left/top edges to the smaller right/bottom edges is non-empty on both axes. |
| Geometry.IntersectsSymmetric | WindowManager/WindowManager.h:16-21 | `a.Intersects(b)` holds exactly when `b.Intersects(a)` does. |
| Geometry.GetIntersectionSymmetric | WindowManager/WindowManager.h:24-34 | The intersection does not depend on the order of its arguments. |
| Geometry.GetIntersectionClip | WindowManager/WindowManager.h:24-32 | When left<right and top<bottom, the result is (max x, max y, min right − max left, min bottom − max top), has positive area and lies inside both inputs. |
| Geometry.GetIntersectionEmpty | WindowManager/WindowManager.h:30-33 | Otherwise the result is exactly (0,0,0,0). |
| Geometry.IntersectsIffIntersectionHasArea | WindowManager/WindowManager.h:16-32 | For rectangles of positive area, `Intersects` holds if and only if the intersection has positive area. |
| Geometry.GetIntersectionPoints | WindowManager/WindowManager.h:24-33 | A non-degenerate intersection contains exactly the integer points that lie in both rectangles. |
| Win32.WindowClass.constructor | WindowManager/Win32Window.cpp:6 | The shared class atom starts at 0. |
| Win32.RegisteredAtom | WindowManager/Win32Window.cpp:190-202 | A definition, not a property: registration keeps a non-zero atom and otherwise takes RegisterClassEx's result. The RegisterWindowClass and Create contracts state the new atom with it. |
| Win32.Win32Window.constructor | WindowManager/Win32Window.cpp:9-10 | A fresh window is not valid, not visible, has a null handle and an empty title. |
| Win32.Win32Window.RegisterWindowClass | WindowManager/Win32Window.cpp:190-203 | The atom is set only while it is 0. |
| Win32.Win32Window.UnregisterWindowClass | WindowManager/Win32Window.cpp:205-210 | The atom is 0 afterwards. |
| Win32.Win32Window.Create | WindowManager/Win32Window.cpp:18-56 | A valid window is refused with nothing changed. Otherwise the title is stored and the class registered before the native call. A failed native call leaves the window invalid with the new title. A successful one makes it valid with that handle. |
| Win32.Win32Window.Destroy | WindowManager/Win32Window.cpp:58-65 | Afterwards the handle is null and the window invalid. A live window resets the shared atom to 0. A window that was not live leaves the atom alone. Visibility and title are outside the frame. |
| Win32.Win32Window.Show | WindowManager/Win32Window.cpp:67-72 | Sets visible only when the window is valid; otherwise no effect. |
| Win32.Win32Window.Update | WindowManager/Win32Window.cpp:81-85 | UpdateWindow is issued exactly when the window is valid, and then on a non-null handle. |
| Win32.Win32Window.Hide | WindowManager/Win32Window.cpp:74-79 | Clears visible only when the window is valid; otherwise no effect. |
| Win32.Win32Window.IsVisible | WindowManager/Win32Window.cpp:87-89 | Returns the visible flag. |
| Win32.Win32Window.IsValid | WindowManager/Win32Window.cpp:91-93 | Returns `valid_`, which holds exactly when the handle is non-null. |
| Win32.Win32Window.SetTitle | WindowManager/Win32Window.cpp:95-100 | Stores the title whether or not the window is valid. |
| Win32.Win32Window.GetTitle | WindowManager/Win32Window.cpp:102-104 | Returns the last stored title. |
| Win32.SharedAtomScenario | WindowManager/Win32Window.cpp:58-65 | Two live windows, one destroyed: the shared atom is 0 while the other window is still valid. |
| Win32.FailedCreateScenario | WindowManager/Win32Window.cpp:18-65 | A failed Create keeps the new title and leaves the window invalid. Two Destroy calls on it change nothing. |
| WindowManagement.DestroyAll | WindowManager/WindowManager.cpp:116-118 | Every window destroyed is left invalid with a null handle, its title and visibility unchanged. The atom becomes 0 exactly when one of the windows was live. |
| WindowManagement.WindowManager.constructor | WindowManager/WindowManager.cpp:5-6 | An empty registry that is running. |
| WindowManagement.WindowManager.CreateWindow | WindowManager/WindowManager.cpp:13-29 | A taken name yields null with nothing changed. A failed Create yields null with the registry unchanged. On success the new window is stored under the name and returned, and every other entry is unchanged. |
| WindowManagement.WindowManager.DestroyWindow | WindowManager/WindowManager.cpp:31-39 | Returns true exactly when the name was present. The name is then absent, its window destroyed, and every other entry is unchanged. |
| WindowManagement.WindowManager.DestroyWindowRef | WindowManager/WindowManager.cpp:41-54 | Null or an unregistered window yields false with nothing changed. Otherwise the single entry holding it is removed and the window destroyed, with the others unchanged. |
| WindowManagement.WindowManager.GetWindow | WindowManager/WindowManager.cpp:56-62 | The stored window for a present name, else null. |
| WindowManagement.WindowManager.HasWindow | WindowManager/WindowManager.cpp:95-97 | True exactly when the name is a key. |
| WindowManagement.HasWindowMatchesGetWindow | WindowManager/WindowManager.cpp:56-62 | HasWindow holds exactly when GetWindow is non-null. |
| WindowManagement.WindowManager.GetWindowCount | WindowManager/WindowManager.cpp:82-84 | The number of entries. |
| WindowManagement.WindowManager.GetWindowNames | WindowManager/WindowManager.cpp:86-93 | Lists every key exactly once (no duplicates, same size, same members), in no particular order. |
| WindowManagement.WindowManager.ShowAllWindows | WindowManager/WindowManager.cpp:70-74 | Every valid window becomes visible and the others are unchanged. No other field changes. |
| WindowManagement.WindowManager.UpdateAllWindows | WindowManager/WindowManager.cpp:64-68 | UpdateWindow is issued for exactly the registered windows that are valid. |
| WindowManagement.WindowManager.HideAllWindows | WindowManager/WindowManager.cpp:76-80 | Every valid window becomes hidden and the others are unchanged. No other field changes. |
| WindowManagement.WindowManager.Exit | WindowManager/WindowManager.cpp:113-120 | `running` becomes false, every window is destroyed and the registry is empty. |
| WindowManagement.DuplicateNameScenario | WindowManager/WindowManager.cpp:13-18 | A second CreateWindow under a taken name returns null and the count stays 1. |
| Framebuffer.PixelIndexInjective | Renderer/SoftwareRenderer.cpp:316-317 | Two in-bounds coordinates share a pixel index if and only if they are equal. |
| Framebuffer.PixelInBuffer | Renderer/SoftwareRenderer.cpp:316-317 | An in-bounds coordinate has a pixel index below width*height. |
| Framebuffer.Written | Renderer/SoftwareRenderer.cpp:318-320 | Writing three colour bytes keeps the buffer length. |
| Framebuffer.WrittenPixel | Renderer/SoftwareRenderer.cpp:318-321 | The colour write repaints that pixel with its alpha kept, and leaves every other pixel as it was. |
| Framebuffer.Plotted | Renderer/SoftwareRenderer.cpp:314-323 | PutPixel's effect on the buffer keeps its length. |
| Framebuffer.PlottedBytes | Renderer/SoftwareRenderer.cpp:314-323 | In bounds, exactly bytes idx..idx+2 change, to b, g, r, where idx = (y*width+x)*4. Alpha and all other bytes stay. Out of bounds, nothing changes. |
| Framebuffer.PlottedPixel | Renderer/SoftwareRenderer.cpp:314-323 | In pixel terms, the pixel at (x,y) is painted when in bounds and every other pixel reads as before. |
| Framebuffer.PlottedPixels | Renderer/SoftwareRenderer.cpp:314-323 | The same for all in-bounds pixels at once. |
| Framebuffer.Filled | Renderer/SoftwareRenderer.cpp:305-309 | Setting the four bytes of one pixel keeps the buffer length. |
| Framebuffer.FilledPixel | Renderer/SoftwareRenderer.cpp:305-309 | Filling pixel p sets p to the colour and leaves every other pixel. |
| Framebuffer.PixelViewDeterminesBuffer | Renderer/SoftwareRenderer.cpp:304-310 | Two buffers of n pixels that agree pixel by pixel are equal byte for byte. |
| Framebuffer.PlotPath | Renderer/SoftwareRenderer.cpp:333-347 | Plotting a sequence of points keeps the buffer length. |
| Framebuffer.PlotPathCons | Renderer/SoftwareRenderer.cpp:333-347 | Plotting p then the rest is plotting the rest on the buffer with p plotted. |
| Framebuffer.PlotPathPixel | Renderer/SoftwareRenderer.cpp:333-347 | An in-bounds pixel is painted exactly when it lies on the path; otherwise it keeps its value. |
| Bresenham.StepArithmetic | Renderer/SoftwareRenderer.cpp:338-346 | Every iteration moves on some axis, and only on an axis with distance left. The new error term agrees with the remaining distances. |
| Bresenham.StepKeepsInv | Renderer/SoftwareRenderer.cpp:336-346 | One iteration keeps the loop invariant and shortens the remaining distance (the termination measure). |
| Bresenham.LineFromStep | Renderer/SoftwareRenderer.cpp:333-347 | The path from a loop state is that point followed by the path from the next state, or the point alone at the target. |
| Bresenham.InitialInv | Renderer/SoftwareRenderer.cpp:327-331 | The initial dx, dy, sx, sy and err satisfy the loop invariant. |
| Bresenham.LineFromEnds | Renderer/SoftwareRenderer.cpp:333-347 | The path from any loop state starts there, ends at the target, and reaches the target only at its end. |
| Bresenham.KingStepsCons | Renderer/SoftwareRenderer.cpp:339-346 | A path of steps of at most one pixel per axis stays so after one more such step is put in front. |
| Bresenham.LineFromSteps | Renderer/SoftwareRenderer.cpp:338-346 | Each step of the path changes x by sx or 0 and y by sy or 0, and moves. |
| Bresenham.LineFromReach | Renderer/SoftwareRenderer.cpp:333-347 | No point lies beyond the target or farther from it than the start, on either axis. |
| Bresenham.LineFromLength | Renderer/SoftwareRenderer.cpp:333-347 | The path has between max(a,b)+1 and a+b+1 points, for remaining distances a and b. |
| Bresenham.LineFrom | Renderer/SoftwareRenderer.cpp:333-347 | The points the loop plots from a given state form a non-empty path that starts at the current point. |
| Bresenham.Line | Renderer/SoftwareRenderer.cpp:325-348 | DrawLine's path is non-empty and starts at (x0,y0). |
| Bresenham.LineEnds | Renderer/SoftwareRenderer.cpp:325-348 | DrawLine's first point is (x0,y0). Its last is (x1,y1), and the loop stops right after plotting it. |
| Bresenham.LineSteps | Renderer/SoftwareRenderer.cpp:325-348 | Every step changes x by sx or 0 and y by sy or 0. |
| Bresenham.LineInBox | Renderer/SoftwareRenderer.cpp:325-348 | Every point lies in the bounding box of the endpoints. |
| Bresenham.LineLength | Renderer/SoftwareRenderer.cpp:325-348 | The line has between max(dx,dy)+1 and dx+dy+1 points. |
| Bresenham.DegenerateLine | Renderer/SoftwareRenderer.cpp:333-336 | A line from a point to itself plots that point once. |
| Bresenham.LineExamples | Renderer/SoftwareRenderer.cpp:325-348 | (0,0)-(3,0), (0,0)-(2,2) and (0,0)-(2,1) visit the listed points; the last is (0,0),(1,0),(2,1). |
| Software.Clamp | Renderer/SoftwareRenderer.cpp:126-129 | The clamp lies in [0,hi], keeps values already there, and sends values below to 0 and values above to hi. |
| Software.SquareBounds | Renderer/SoftwareRenderer.cpp:391-393 | d*d ≤ r*r implies −r ≤ d ≤ r, so the loops' square holds the whole disc. |
| Software.InDiscIffSquareSum | Renderer/SoftwareRenderer.cpp:391-393 | A negative radius admits no offset. Otherwise an offset passes the test exactly when dx²+dy² ≤ r². |
| Software.SortVerticesByY | Renderer/SoftwareRenderer.cpp:353-355 | After the three swaps y0 ≤ y1 ≤ y2, and the (x,y) pairs are a permutation of the input pairs. |
| Software.SoftwareRenderer.constructor | Renderer/SoftwareRenderer.cpp:6-13 | No buffer, 0×0, no textures, next texture id 1. |
| Software.SoftwareRenderer.ClearBuffer | Renderer/SoftwareRenderer.cpp:297-312 | With a buffer, every pixel i < width*height becomes (b,g,r,255). With none, nothing happens. |
| Software.SoftwareRenderer.PutPixel | Renderer/SoftwareRenderer.cpp:314-323 | The buffer becomes `Plotted` of the old buffer (see PlottedBytes and PlottedPixel). |
| Software.SoftwareRenderer.DrawLine | Renderer/SoftwareRenderer.cpp:325-348 | The loop terminates. The buffer becomes the old buffer with every point of `Bresenham.Line` plotted in order. |
| Software.SoftwareRenderer.DrawQuad | Renderer/SoftwareRenderer.cpp:118-146 | Both corners are clamped into [0,width]×[0,height]. Exactly the in-bounds pixels of the half-open box [x1,x2)×[y1,y2) are painted, and every other pixel keeps its value. |
| Software.SoftwareRenderer.DrawFilledCircle | Renderer/SoftwareRenderer.cpp:389-398 | Exactly the in-bounds pixels with dx²+dy² ≤ r² are painted; a negative radius paints nothing. |
| Software.SoftwareRenderer.LoadTexture | Renderer/SoftwareRenderer.cpp:185-225 | Returns `nextTextureId` and advances it on every call. A table entry is added only when the placeholder bitmap exists. |
| Software.SoftwareRenderer.LoadShader | Renderer/SoftwareRenderer.cpp:233-239 | Always returns the invalid id 0. |
| Software.SoftwareRenderer.Cleanup | Renderer/SoftwareRenderer.cpp:71-98 | No buffer, 0×0 and an empty texture table; the id counter is not reset. |
| Software.SoftwareRenderer.SetSurfaceAsWritten | Renderer/SoftwareRenderer.cpp:247-294 | As written, the dimensions change first. A failed CreateDIBSection keeps the old buffer pointer although its bitmap is deleted. A failed DC leaves a buffer whose bitmap is deleted. Full success clears the new buffer. |
| Software.SoftwareRenderer.SetSurface | Renderer/SoftwareRenderer.cpp:247-294 | On success the surface is w×h, fresh and cleared. On either failure the surface is disabled: no buffer, 0×0. |
| Software.PlotLineStep | Renderer/SoftwareRenderer.cpp:333-347 | One iteration plots the current point and leaves the rest of the path from the next state, which keeps the invariant and is strictly closer to the end point. At the end point only that point is plotted. |
| Software.NullBufferAfterFailedFirstSurface | Renderer/SoftwareRenderer.cpp:263-278 | On a renderer with no buffer, a failed first SetSurface(2, 2) leaves a null buffer with a 16-byte size. |
| Software.DrawLinePaintsEndpoints | Renderer/SoftwareRenderer.cpp:325-348 | Both endpoints, when on screen, are painted by DrawLine. |
| Software.TextureIdScenario | Renderer/SoftwareRenderer.cpp:189 | Ids 1 and 2 are issued whether or not the bitmaps exist; the table counts only the existing ones. |
| Software.StaleBufferAfterFailedResize | Renderer/SoftwareRenderer.cpp:276-278 | After a 1×1 surface and a failed resize to 2×2, the kept buffer belongs to a deleted bitmap and is smaller than 2×2×4 bytes. |
| Software.FailedResizeDisablesSurface | Renderer/SoftwareRenderer.cpp:276-278 | With the corrected SetSurface the same failure leaves no buffer and a 0×0 surface. |
| DirectX.NextId | Renderer/DirectXRenderer.cpp:306 | The candidate id is never 0. |
| DirectX.NextIdFresh | Renderer/DirectXRenderer.cpp:366-374 | In a dense texture table (keys exactly 1..n) the candidate id is no key, and storing under it keeps the table dense. |
| DirectX.NextShaderIdFresh | Renderer/DirectXRenderer.cpp:479-487 | The same for the shader table. |
| DirectX.TextureViewFor | Renderer/DirectXRenderer.cpp:380-387 | A non-null binding comes from a stored record. |
| DirectX.UseTextureZeroIsUnknown | Renderer/DirectXRenderer.cpp:380-387 | Id 0 is never a key and binds null like any unknown id; a stored id binds its own view. |
| DirectX.ShaderBindingFor | Renderer/DirectXRenderer.cpp:499-512 | A non-null vertex shader binding comes from a stored record. |
| DirectX.ShaderBindingAllOrNothing | Renderer/DirectXRenderer.cpp:499-512 | UseShader binds all three objects of one stored record, or all null when the id is unknown. |
| DirectX.QuadIndicesWellFormed | Renderer/DirectXRenderer.cpp:145-148 | The six indices name only vertices 0..3, all four of them, with the two triangles sharing an edge. |
| DirectX.CircleVertices | Renderer/DirectXRenderer.cpp:252-261 | The centre, then rim points 0..segments: segments+2 vertices for segments ≥ 0, and the centre alone otherwise. |
| DirectX.CircleDrawRange | Renderer/DirectXRenderer.cpp:288 | Draw covers the segments+1 rim vertices from vertex 1, or nothing for a negative count. |
| DirectX.DirectXRenderer.constructor | Renderer/DirectXRenderer.cpp:5-14 | All pointers null and the tables empty. |
| DirectX.DirectXRenderer.Initialize | Renderer/DirectXRenderer.cpp:21-97 | Succeeds exactly when the device, context, swap chain, back buffer and view are all created. Each failure returns with the state of its stage, and a failed view creation keeps the back buffer released. Success binds the view and sets the viewport. |
| DirectX.DirectXRenderer.Cleanup | Renderer/DirectXRenderer.cpp:99-110 | Releases each non-null pointer (view, swap chain, context, device, in that order) and nulls all four; the tables lie outside its frame. |
| DirectX.CleanupTwiceScenario | Renderer/DirectXRenderer.cpp:99-110 | The first Cleanup releases the four objects, and a second releases nothing. |
| DirectX.DirectXRenderer.LoadTexture | Renderer/DirectXRenderer.cpp:302-375 | Returns a non-zero id exactly when texture and view are created. That id is the fresh |textures|+1 and holds (id, filename, texture, view). A failure returns 0 with the table unchanged and releases a texture whose view failed. |
| DirectX.TextureIdScenario | Renderer/DirectXRenderer.cpp:306 | A failure between two successes gives ids 1, 0, 2. |
| DirectX.DirectXRenderer.LoadShader | Renderer/DirectXRenderer.cpp:390-494 | Returns a non-zero id exactly when both compiles and all three creations succeed. That id is the fresh |shaders|+1 and holds both file names and the three objects. Otherwise it returns 0 with the table unchanged, releasing what each failure stage holds. |
| DirectX.DirectXRenderer.UseTexture | Renderer/DirectXRenderer.cpp:377-388 | Binds `TextureViewFor(textures, id)`. |
| DirectX.DirectXRenderer.UseShader | Renderer/DirectXRenderer.cpp:496-513 | Binds `ShaderBindingFor(shaders, id)`. |
| DirectX.DirectXRenderer.SetSurface | Renderer/DirectXRenderer.cpp:515-559 | The view is released and nulled before the resize. Any later failure returns with the view still null; success rebinds the new view and sets the viewport. |
| Vulkan.FailIndex | Renderer/VulkanRenderer.cpp:30-90 | The position of the first failing step: every earlier step succeeds and the step there fails, or it is the end. |
| Vulkan.FailIndexUnique | Renderer/VulkanRenderer.cpp:30-90 | Any position with only successes before it and a failure (or the end) at it is FailIndex. |
| Vulkan.Fails | Renderer/VulkanRenderer.cpp:693-698 | A step fails only when its native call is in the failing set, and CreateGraphicsPipeline never fails. |
| Vulkan.Executed | Renderer/VulkanRenderer.cpp:30-90 | The executed steps are a prefix of the step list, and the first step always runs. |
| Vulkan.ExecutedStopsAtFirstFailure | Renderer/VulkanRenderer.cpp:30-90 | Every executed step but the last succeeds. A short run ends with a failure. The run is complete exactly when all steps before the last succeed. |
| Vulkan.PipelineStepNeverFails | Renderer/VulkanRenderer.cpp:693-698 | CreateGraphicsPipeline always reports success, so failures injected only there stop nothing. |
| Vulkan.InitializeRunsExecuted | Renderer/VulkanRenderer.cpp:30-90 | A run whose steps are all successes but the last, with the last failed or the end reached, is exactly the steps up to the first failure. |
| Vulkan.VulkanRenderer.constructor | Renderer/VulkanRenderer.cpp:9-19 | Counters at 1, frame 0, no sync objects, empty maps. |
| Vulkan.VulkanRenderer.Initialize | Renderer/VulkanRenderer.cpp:26-91 | Runs a prefix of the twelve steps in their fixed order. It stops at the first failure and runs no later step. It returns true only when all twelve ran and none failed. Two fences exist once CreateSyncObjects has run. |
| Vulkan.SwapchainFailureScenario | Renderer/VulkanRenderer.cpp:50-53 | A failed swap chain leaves exactly the five steps up to it in the trace, returns false and creates no fences. |
| Vulkan.VulkanRenderer.LoadTexture | Renderer/VulkanRenderer.cpp:273-279 | Always returns `nextTextureId`, never 0, and increments it. |
| Vulkan.VulkanRenderer.LoadShaderAsWritten | Renderer/VulkanRenderer.cpp:299-305 | As written, when code is missing or either shader module is not created, it returns 0 and leaves the counter, the four maps and the destroy log unchanged, so a created module leaks. Every other path behaves as LoadShader: the same success condition, the same stored entries and the same destroy log. |
| Vulkan.VulkanRenderer.LoadShader | Renderer/VulkanRenderer.cpp:287-458 | Returns 0, with counter and maps unchanged, on an empty file or any module, layout or pipeline failure. Each failure destroys its modules and layout. On success it returns `nextShaderId`, increments it once, and stores the id in all four maps. |
| Vulkan.ShaderModuleLeakScenario | Renderer/VulkanRenderer.cpp:299-305 | With a failed fragment module the as-written load destroys nothing; the corrected one destroys the vertex module. |
| Vulkan.ShaderIdScenario | Renderer/VulkanRenderer.cpp:450 | A failure between two successes gives ids 1, 0, 2. |
| Vulkan.VulkanRenderer.EndFrame | Renderer/VulkanRenderer.cpp:187-236 | Reports which of record, submit or present failed. Only a presented frame advances currentFrame to (currentFrame+1) mod the fence count, which keeps it below that count. |
| Vulkan.FrameRingScenario | Renderer/VulkanRenderer.cpp:235 | With the two sync objects, presented frames run 0, 1, 0, 1. |
| VulkanSelect.FirstPreferredFrom | Renderer/VulkanRenderer.cpp:775-779 | Finds the first B8G8R8A8_SRGB/SRGB_NONLINEAR format at or after i, or reports none. |
| VulkanSelect.ChooseSwapSurfaceFormat | Renderer/VulkanRenderer.cpp:773-783 | Given a non-empty list, returns the first preferred format when one exists, else element 0. |
| VulkanSelect.ChooseSwapPresentMode | Renderer/VulkanRenderer.cpp:785-794 | MAILBOX exactly when it is listed, FIFO otherwise. |
| VulkanSelect.ChooseSwapExtent | Renderer/VulkanRenderer.cpp:796-810 | currentExtent unless its width is UINT32_MAX. Then each side is at least its minimum; the exact clamped value per case is in ChooseSwapExtentCases. |
| VulkanSelect.ChooseSwapExtentBounds | Renderer/VulkanRenderer.cpp:796-810 | With min ≤ max, the chosen extent lies within the bounds, and is 800×600 when those fit. |
| VulkanSelect.ChooseSwapExtentCases | Renderer/VulkanRenderer.cpp:801-806 | Each side of max(min, min(max, 800 or 600)) case by case: crossed bounds give the minimum, a default below the minimum gives the minimum, a default above a consistent maximum gives the maximum, and a default within the bounds is kept. |
| VulkanSelect.ImageCount | Renderer/VulkanRenderer.cpp:575-579 | The count is a uint32 value. |
| VulkanSelect.ImageCountBounds | Renderer/VulkanRenderer.cpp:575-579 | Capped by a non-zero maximum, and equal to that maximum when it is non-zero and below min+1. Without a maximum, or with one above the minimum, it is min+1. |
| VulkanSelect.ImageCountWraps | Renderer/VulkanRenderer.cpp:575 | minImageCount = UINT32_MAX wraps min+1 to 0. |
| VulkanSelect.FindMemoryTypeFrom | Renderer/VulkanRenderer.cpp:891-895 | The first suitable index at or after i, or none. |
| VulkanSelect.FindMemoryType | Renderer/VulkanRenderer.cpp:886-898 | The smallest i with filter bit i set and all requested flags present; None, where the source throws, exactly when no index qualifies. |
| VulkanSelect.FindMemoryTypeEmptyFilter | Renderer/VulkanRenderer.cpp:886-898 | An empty filter finds no memory type. |
| VulkanSelect.FindQueueFamiliesFrom | Renderer/VulkanRenderer.cpp:823-841 | From index i on, found indices name families of that kind, and the result is complete exactly when both kinds occur. |
| VulkanSelect.FindQueueFamilies | Renderer/VulkanRenderer.cpp:813-844 | Every index found names a family with that capability. `IsComplete` holds exactly when some family has graphics and some family can present. |
| VulkanSelect.FindQueueFamiliesExamples | Renderer/VulkanRenderer.cpp:813-844 | [G, G, P] yields (1, 2): the loop keeps the later graphics family until it completes. |

## Left out

- Native calls: every Win32, GDI, Direct3D 11, D3DCompile and Vulkan call is an oracle parameter (a handle, 0 for failure, or a status). The objects themselves, their reference counts and their contents are not modelled.
- UpdateWindow's native effect is not modelled: Update and UpdateAllWindows only report which windows it is issued for. `WndProc`, `ProcessMessages` (the PeekMessage loop), and `SetPosition`, `GetPosition`, `SetSize`, `GetSize`: native window calls with no modelled state. `GetX`, `GetY`, `GetWidth` and `GetHeight` are declared but never defined.
- Win32.Win32Window.Create: x, y, width and height only reach the native call, so the model does not record them.
- `RenderAllWindows`, `IsWindowOverlapping` and `GetOverlappingAreas` are declared without a body anywhere, so there is nothing to model.
- Floating point: `TransformX`/`TransformY`, the clear colour and transform-derived colour bytes, the triangle scanline interpolation and the cos/sin circle positions. The drawing methods take integer corners and colour bytes instead. `DrawFilledTriangle` is modelled only up to its vertex sort.
- Software.SoftwareRenderer: Initialize, BeginFrame, EndFrame, UpdateWindow, UseTexture and UseShader are GDI plumbing or empty. The GDI bitmap and DC handles are folded into one `bitmapLive` flag. Cleanup does not null `bitmap`/`memoryDC`, so a second Cleanup is not a no-op in the source, and the model claims nothing about it.
- Software.SoftwareRenderer: the draw methods require Valid(), which excludes a null buffer with a non-zero size. The source reaches that state when SetSurface fails on a renderer with no buffer yet (Renderer/SoftwareRenderer.cpp:263-278), and when Initialize returns early after storing the client size (Renderer/SoftwareRenderer.cpp:27-57). PutPixel, DrawLine, DrawFilledCircle and DrawQuad then write through a null pointer, which the model does not represent. Software.NullBufferAfterFailedFirstSurface exhibits the SetSurface case.
- DirectX.DirectXRenderer.Initialize: when D3D11CreateDeviceAndSwapChain fails, the model keeps the old swap chain, device and context. The source passes them as out-parameters (Renderer/DirectXRenderer.cpp:56-59), which the call may overwrite. This matters only for a second Initialize.
- DirectX.DirectXRenderer: the gradient texture data, the error blobs, and the vertex and index buffers of DrawQuad/DrawTriangle/DrawCircle are not modelled; only the index list and vertex counts are. DirectX.DirectXRenderer.LoadTexture, LoadShader, UseTexture, UseShader and SetSurface require non-null device, context and swap chain where the source dereferences them unchecked.
- Vulkan.VulkanRenderer: Cleanup, BeginFrame, UseTexture, UseShader, SetSurface and the Draw* logging are not modelled. Cleanup never resets `logicalDevice`, and the model makes no idempotence claim for it. The steps' internal creations are folded into one success bit per step (the `failing` set).
- Vulkan.VulkanRenderer.EndFrame requires fenceCount > 0: before CreateSyncObjects runs, the source indexes empty vectors and takes `% 0` (Renderer/VulkanRenderer.cpp:189, 210, 235).
- VulkanSelect: QuerySwapChainSupport, IsDeviceSuitable, CreateBuffer, CopyBuffer and ReadShaderFile are native queries or file I/O. A file that cannot be read appears as empty code in LoadShader.
- Counters (`nextTextureId`, `nextShaderId`, table sizes) are unbounded naturals: the 32-bit `unsigned int` wrap-around after 2^32 loads is not modelled.
- C++ `int` overflow in `x + width`, `y*width + x`, `x*x + y*y` and similar expressions is not modelled: coordinates are unbounded integers.
- OpenGLRenderer, RendererFactory, RenderWindow, test_renderers.cpp and the example mains are not part of this model.
- Concurrency: every operation runs alone; the GPU's asynchronous frame work is reduced to EndFrame's reported status.

## Findings

| source | as written | input that shows it | evidently intended | confidence | as-written member | corrected member |
|---|---|---|---|---|---|---|
| Renderer/SoftwareRenderer.cpp:263-288 | The new width and height are stored before CreateDIBSection. When that or CreateCompatibleDC fails, `pixelBuffer` keeps pointing into a deleted bitmap. On a renderer with no buffer yet, it stays null while the new size is kept. | SetSurface(1, 1) succeeds, then SetSurface(2, 2) with CreateDIBSection failing. The kept buffer holds 4 bytes, but ClearBuffer and PutPixel now address 16. Or SetSurface(2, 2), with CreateDIBSection failing, on a fresh renderer: a null buffer for a 16-byte size. | A failed resize disables the surface: no buffer and 0×0, so drawing does nothing. | not executed | Software.SoftwareRenderer.SetSurfaceAsWritten, Software.StaleBufferAfterFailedResize, Software.NullBufferAfterFailedFirstSurface | Software.SoftwareRenderer.SetSurface, Software.FailedResizeDisablesSurface |
| Renderer/VulkanRenderer.cpp:299-305 | When exactly one of the two shader modules is created, LoadShader returns 0 without destroying the created one, which leaks. | Vertex module created, fragment module VK_NULL_HANDLE. | Destroy every created module on this failure, as the layout and pipeline failure paths already do. | not executed | Vulkan.VulkanRenderer.LoadShaderAsWritten, Vulkan.ShaderModuleLeakScenario | Vulkan.VulkanRenderer.LoadShader, Vulkan.ShaderModuleLeakScenario |
