/** The selection helpers VulkanRenderer uses while creating its swap chain
    and buffers: pure searches and clamps over what the device reports. */
module VulkanSelect {
  import opened Common

  const VK_FORMAT_B8G8R8A8_SRGB: nat := 50
  const VK_COLOR_SPACE_SRGB_NONLINEAR_KHR: nat := 0

  const VK_PRESENT_MODE_IMMEDIATE_KHR: nat := 0
  const VK_PRESENT_MODE_MAILBOX_KHR: nat := 1
  const VK_PRESENT_MODE_FIFO_KHR: nat := 2
  const VK_PRESENT_MODE_FIFO_RELAXED_KHR: nat := 3

  /** The extent used when the surface leaves the choice to the application. */
  const DEFAULT_WIDTH: nat := 800
  const DEFAULT_HEIGHT: nat := 600

  datatype SurfaceFormat = SurfaceFormat(format: nat, colorSpace: nat)

  predicate Preferred(f: SurfaceFormat) {
    f.format == VK_FORMAT_B8G8R8A8_SRGB && f.colorSpace == VK_COLOR_SPACE_SRGB_NONLINEAR_KHR
  }

  /** The index of the first preferred format at or after i. */
  function FirstPreferredFrom(formats: seq<SurfaceFormat>, i: nat): (r: Option<nat>)
    requires i <= |formats|
    ensures r.Some? ==> i <= r.value < |formats| && Preferred(formats[r.value]) &&
                        forall j :: i <= j < r.value ==> !Preferred(formats[j])
    ensures r.None? ==> forall j :: i <= j < |formats| ==> !Preferred(formats[j])
    decreases |formats| - i
  {
    if i == |formats| then None
    else if Preferred(formats[i]) then Some(i)
    else FirstPreferredFrom(formats, i + 1)
  }

  /** The first B8G8R8A8_SRGB / SRGB_NONLINEAR format, else the first format. */
  function ChooseSwapSurfaceFormat(formats: seq<SurfaceFormat>): (f: SurfaceFormat)
    requires |formats| > 0
    ensures f in formats
    ensures (exists k :: 0 <= k < |formats| && Preferred(formats[k])) ==>
      Preferred(f) && exists k :: 0 <= k < |formats| && f == formats[k] &&
                                  forall j :: 0 <= j < k ==> !Preferred(formats[j])
    ensures (forall k :: 0 <= k < |formats| ==> !Preferred(formats[k])) ==> f == formats[0]
  {
    match FirstPreferredFrom(formats, 0)
    case Some(k) => formats[k]
    case None => formats[0]
  }

  /** MAILBOX if the device lists it, else FIFO (which every device supports). */
  function ChooseSwapPresentMode(modes: seq<nat>): (m: nat)
    ensures m == VK_PRESENT_MODE_MAILBOX_KHR <==> VK_PRESENT_MODE_MAILBOX_KHR in modes
    ensures m != VK_PRESENT_MODE_MAILBOX_KHR ==> m == VK_PRESENT_MODE_FIFO_KHR
    decreases |modes|
  {
    if modes == [] then VK_PRESENT_MODE_FIFO_KHR
    else if modes[0] == VK_PRESENT_MODE_MAILBOX_KHR then modes[0]
    else ChooseSwapPresentMode(modes[1..])
  }

  datatype Extent = Extent(width: nat, height: nat)

  datatype Capabilities = Capabilities(minImageCount: nat, maxImageCount: nat, currentExtent: Extent,
                                       minImageExtent: Extent, maxImageExtent: Extent)

  /** The surface's current extent, unless its width is the special value
      UINT32_MAX; then 800x600 clamped into [minImageExtent, maxImageExtent],
      the minimum winning when the two bounds cross. */
  function ChooseSwapExtent(c: Capabilities): (e: Extent)
    ensures c.currentExtent.width != UINT32_MAX ==> e == c.currentExtent
    ensures c.currentExtent.width == UINT32_MAX ==>
      e.width >= c.minImageExtent.width && e.height >= c.minImageExtent.height
  {
    if c.currentExtent.width != UINT32_MAX then c.currentExtent
    else Extent(Max(c.minImageExtent.width, Min(c.maxImageExtent.width, DEFAULT_WIDTH)),
                Max(c.minImageExtent.height, Min(c.maxImageExtent.height, DEFAULT_HEIGHT)))
  }

  /** With consistent bounds the chosen extent lies within them, and it is
      exactly 800x600 when that size is allowed. */
  lemma ChooseSwapExtentBounds(c: Capabilities)
    requires c.currentExtent.width == UINT32_MAX
    requires c.minImageExtent.width <= c.maxImageExtent.width && c.minImageExtent.height <= c.maxImageExtent.height
    ensures var e := ChooseSwapExtent(c);
      c.minImageExtent.width <= e.width <= c.maxImageExtent.width &&
      c.minImageExtent.height <= e.height <= c.maxImageExtent.height
    ensures c.minImageExtent.width <= DEFAULT_WIDTH <= c.maxImageExtent.width ==>
      ChooseSwapExtent(c).width == DEFAULT_WIDTH
    ensures c.minImageExtent.height <= DEFAULT_HEIGHT <= c.maxImageExtent.height ==>
      ChooseSwapExtent(c).height == DEFAULT_HEIGHT
  {
  }

  /** The clamp side by side, with no assumption on the bounds: crossed bounds
      give the minimum, a default below the minimum gives the minimum, a default
      above a consistent maximum gives the maximum, and a default that fits is
      kept. */
  lemma ChooseSwapExtentCases(c: Capabilities)
    requires c.currentExtent.width == UINT32_MAX
    ensures var e, lo, hi := ChooseSwapExtent(c), c.minImageExtent, c.maxImageExtent;
      (lo.width > hi.width ==> e.width == lo.width) &&
      (DEFAULT_WIDTH < lo.width ==> e.width == lo.width) &&
      (lo.width <= hi.width < DEFAULT_WIDTH ==> e.width == hi.width) &&
      (lo.width <= DEFAULT_WIDTH <= hi.width ==> e.width == DEFAULT_WIDTH)
    ensures var e, lo, hi := ChooseSwapExtent(c), c.minImageExtent, c.maxImageExtent;
      (lo.height > hi.height ==> e.height == lo.height) &&
      (DEFAULT_HEIGHT < lo.height ==> e.height == lo.height) &&
      (lo.height <= hi.height < DEFAULT_HEIGHT ==> e.height == hi.height) &&
      (lo.height <= DEFAULT_HEIGHT <= hi.height ==> e.height == DEFAULT_HEIGHT)
  {
  }

  /** The swap chain image count: one more than the minimum (as a uint32_t),
      lowered to maxImageCount when that is non-zero and smaller. */
  function ImageCount(c: Capabilities): (n: nat)
    requires c.minImageCount < TWO_TO_32 && c.maxImageCount < TWO_TO_32
    ensures n < TWO_TO_32
  {
    var count := (c.minImageCount + 1) % TWO_TO_32;
    if c.maxImageCount > 0 && count > c.maxImageCount then c.maxImageCount else count
  }

  /** The image count never exceeds a non-zero maximum, is min+1 when there is
      no maximum or the maximum is above the minimum, is the maximum when that
      is non-zero and below min+1, and never drops below the minimum when the
      maximum is at least the minimum and min+1 does not wrap. */
  lemma ImageCountBounds(c: Capabilities)
    requires c.minImageCount < UINT32_MAX && c.maxImageCount < TWO_TO_32
    ensures c.maxImageCount > 0 ==> ImageCount(c) <= c.maxImageCount
    ensures c.maxImageCount == 0 ==> ImageCount(c) == c.minImageCount + 1
    ensures c.maxImageCount == 0 || c.maxImageCount >= c.minImageCount ==> ImageCount(c) >= c.minImageCount
    ensures c.maxImageCount == 0 || c.maxImageCount > c.minImageCount ==> ImageCount(c) == c.minImageCount + 1
    ensures 0 < c.maxImageCount < c.minImageCount + 1 ==> ImageCount(c) == c.maxImageCount
  {
  }

  /** minImageCount == UINT32_MAX wraps min+1 to 0, which no maximum raises. */
  lemma ImageCountWraps(c: Capabilities)
    requires c.minImageCount == UINT32_MAX && c.maxImageCount < TWO_TO_32
    ensures ImageCount(c) == 0
  {
  }

  /** Memory type i passes the filter bit and has every requested property. */
  predicate Suitable(typeFilter: bv32, propertyFlags: seq<bv32>, properties: bv32, i: nat)
    requires i < |propertyFlags| <= 32
  {
    typeFilter & (1 as bv32 << i) != 0 && propertyFlags[i] & properties == properties
  }

  function FindMemoryTypeFrom(typeFilter: bv32, propertyFlags: seq<bv32>, properties: bv32, i: nat): (r: Option<nat>)
    requires i <= |propertyFlags| <= 32
    ensures r.Some? ==> i <= r.value < |propertyFlags| && Suitable(typeFilter, propertyFlags, properties, r.value) &&
                        forall j :: i <= j < r.value ==> !Suitable(typeFilter, propertyFlags, properties, j)
    ensures r.None? ==> forall j :: i <= j < |propertyFlags| ==> !Suitable(typeFilter, propertyFlags, properties, j)
    decreases |propertyFlags| - i
  {
    if i == |propertyFlags| then None
    else if Suitable(typeFilter, propertyFlags, properties, i) then Some(i)
    else FindMemoryTypeFrom(typeFilter, propertyFlags, properties, i + 1)
  }

  /** The smallest suitable memory type index; None where the source throws.
      propertyFlags holds the flags of the device's memoryTypeCount (at most
      VK_MAX_MEMORY_TYPES = 32) memory types. */
  function FindMemoryType(typeFilter: bv32, propertyFlags: seq<bv32>, properties: bv32): (r: Option<nat>)
    requires |propertyFlags| <= 32
    ensures r.Some? ==> r.value < |propertyFlags| && Suitable(typeFilter, propertyFlags, properties, r.value) &&
                        forall j :: 0 <= j < r.value ==> !Suitable(typeFilter, propertyFlags, properties, j)
    ensures r.None? <==> forall j :: 0 <= j < |propertyFlags| ==> !Suitable(typeFilter, propertyFlags, properties, j)
  {
    FindMemoryTypeFrom(typeFilter, propertyFlags, properties, 0)
  }

  /** No filter bit set means no memory type qualifies, whatever the flags. */
  lemma FindMemoryTypeEmptyFilter(propertyFlags: seq<bv32>, properties: bv32)
    requires |propertyFlags| <= 32
    ensures FindMemoryType(0, propertyFlags, properties) == None
  {
  }

  /** What the device reports about queue family i. */
  datatype QueueFamily = QueueFamily(graphics: bool, present: bool)

  datatype QueueFamilyIndices = QueueFamilyIndices(graphicsFamily: Option<nat>, presentFamily: Option<nat>)

  predicate IsComplete(q: QueueFamilyIndices) {
    q.graphicsFamily.Some? && q.presentFamily.Some?
  }

  /** The loop of FindQueueFamilies from family i on, with the indices seen so far. */
  function FindQueueFamiliesFrom(families: seq<QueueFamily>, i: nat, acc: QueueFamilyIndices): (q: QueueFamilyIndices)
    requires i <= |families|
    requires acc.graphicsFamily.Some? ==> acc.graphicsFamily.value < i && families[acc.graphicsFamily.value].graphics
    requires acc.presentFamily.Some? ==> acc.presentFamily.value < i && families[acc.presentFamily.value].present
    requires !IsComplete(acc)
    ensures q.graphicsFamily.Some? ==> q.graphicsFamily.value < |families| && families[q.graphicsFamily.value].graphics
    ensures q.presentFamily.Some? ==> q.presentFamily.value < |families| && families[q.presentFamily.value].present
    ensures IsComplete(q) <==>
      (acc.graphicsFamily.Some? || exists j :: i <= j < |families| && families[j].graphics) &&
      (acc.presentFamily.Some? || exists j :: i <= j < |families| && families[j].present)
    decreases |families| - i
  {
    if i == |families| then acc
    else
      var g := if families[i].graphics then Some(i) else acc.graphicsFamily;
      var p := if families[i].present then Some(i) else acc.presentFamily;
      var next := QueueFamilyIndices(g, p);
      if IsComplete(next) then next else FindQueueFamiliesFrom(families, i + 1, next)
  }

  /** Each index found names a family with that capability, and the result is
      complete exactly when some family supports graphics and some supports
      presentation. The indices are the last of each kind seen up to the
      family that completed the pair, not necessarily the first. */
  function FindQueueFamilies(families: seq<QueueFamily>): (q: QueueFamilyIndices)
    ensures q.graphicsFamily.Some? ==> q.graphicsFamily.value < |families| && families[q.graphicsFamily.value].graphics
    ensures q.presentFamily.Some? ==> q.presentFamily.value < |families| && families[q.presentFamily.value].present
    ensures IsComplete(q) <==>
      (exists j :: 0 <= j < |families| && families[j].graphics) &&
      (exists j :: 0 <= j < |families| && families[j].present)
  {
    FindQueueFamiliesFrom(families, 0, QueueFamilyIndices(None, None))
  }

  /** Two graphics families before a present-only one: the later graphics
      family is chosen; a family with both capabilities first yields (0, 0). */
  lemma FindQueueFamiliesExamples()
    ensures FindQueueFamilies([QueueFamily(true, false), QueueFamily(true, false), QueueFamily(false, true)]) ==
            QueueFamilyIndices(Some(1), Some(2))
    ensures FindQueueFamilies([QueueFamily(true, true), QueueFamily(true, true)]) ==
            QueueFamilyIndices(Some(0), Some(0))
    ensures FindQueueFamilies([QueueFamily(false, true)]) == QueueFamilyIndices(None, Some(0))
  {
  }
}
