/** Helpers shared by the renderer: queue-family bookkeeping, the memory-type search,
    buffer creation, one-shot transfer command buffers and the image-layout barrier policy.
    Driver calls are not executed; what the driver answers is passed in, and what is
    recorded into a command buffer is returned as a sequence of driver calls. */
module Utilities {
  import opened Wrappers

  /** An opaque driver handle (VkBuffer, VkDeviceMemory, VkImage, VkQueue, VkCommandPool, ...). */
  type Handle = nat

  /** A VkResult code; only VK_SUCCESS is ever tested. */
  type VkResult = int
  const VK_SUCCESS: VkResult := 0

  // ---------------------------------------------------------------------------
  // Queue families
  // ---------------------------------------------------------------------------

  /** Locations of the queue families a device offers; -1 means "not found". */
  datatype QueueFamilyIndices = QueueFamilyIndices(graphicsFamily: int, presentationFamily: int)
  {
    /** Both families have been found. */
    predicate IsValid() {
      graphicsFamily >= 0 && presentationFamily >= 0
    }
  }

  /** The value of a freshly declared QueueFamilyIndices: both members default to -1. */
  const DefaultQueueFamilyIndices: QueueFamilyIndices := QueueFamilyIndices(-1, -1)

  /** A freshly declared QueueFamilyIndices is not valid. */
  lemma DefaultIndicesInvalid()
    ensures DefaultQueueFamilyIndices.graphicsFamily == -1
    ensures DefaultQueueFamilyIndices.presentationFamily == -1
    ensures !DefaultQueueFamilyIndices.IsValid()
  {
  }

  /** IsValid fails as soon as one of the two families is missing, whatever the other is. */
  lemma InvalidWhenEitherMissing(q: QueueFamilyIndices)
    ensures q.graphicsFamily < 0 ==> !q.IsValid()
    ensures q.presentationFamily < 0 ==> !q.IsValid()
    ensures q.graphicsFamily >= 0 && q.presentationFamily >= 0 ==> q.IsValid()
  {
  }

  // ---------------------------------------------------------------------------
  // Memory-type search
  // ---------------------------------------------------------------------------

  /** VK_MAX_MEMORY_TYPES: the size of the memoryTypes array in VkPhysicalDeviceMemoryProperties. */
  const MAX_MEMORY_TYPES: nat := 32

  /** One entry of VkPhysicalDeviceMemoryProperties::memoryTypes. */
  datatype MemoryType = MemoryType(propertyFlags: bv32, heapIndex: nat)

  /** Bit `i` of the allowed-types mask is set. */
  predicate TypeAllowed(allowedTypes: bv32, i: nat)
    requires i < MAX_MEMORY_TYPES
  {
    allowedTypes & ((1 as bv32) << i) != 0
  }

  /** Memory type `i` is allowed by the mask and offers every requested property. */
  predicate Qualifies(memoryTypes: seq<MemoryType>, allowedTypes: bv32, properties: bv32, i: nat)
    requires i < |memoryTypes| <= MAX_MEMORY_TYPES
  {
    TypeAllowed(allowedTypes, i) && memoryTypes[i].propertyFlags & properties == properties
  }

  /** The first qualifying memory type at or after `from`, if any. */
  function FirstMatch(memoryTypes: seq<MemoryType>, allowedTypes: bv32, properties: bv32, from: nat): (r: Option<nat>)
    requires from <= |memoryTypes| <= MAX_MEMORY_TYPES
    ensures r.Some? ==> from <= r.value < |memoryTypes|
    ensures r.Some? ==> Qualifies(memoryTypes, allowedTypes, properties, r.value)
    ensures r.Some? ==> forall j :: from <= j < r.value ==> !Qualifies(memoryTypes, allowedTypes, properties, j)
    ensures r.None? <==> forall j :: from <= j < |memoryTypes| ==> !Qualifies(memoryTypes, allowedTypes, properties, j)
    decreases |memoryTypes| - from
  {
    if from == |memoryTypes| then None
    else if Qualifies(memoryTypes, allowedTypes, properties, from) then Some(from)
    else FirstMatch(memoryTypes, allowedTypes, properties, from + 1)
  }

  /** The index findMemoryTypeIndex returns: the first match, or 0 when nothing matches. */
  function MemoryTypeIndex(memoryTypes: seq<MemoryType>, allowedTypes: bv32, properties: bv32): (r: nat)
    requires |memoryTypes| <= MAX_MEMORY_TYPES
    ensures (exists i :: 0 <= i < |memoryTypes| && Qualifies(memoryTypes, allowedTypes, properties, i)) ==>
              && r < |memoryTypes| && Qualifies(memoryTypes, allowedTypes, properties, r)
              && forall j :: 0 <= j < r ==> !Qualifies(memoryTypes, allowedTypes, properties, j)
    ensures (forall i :: 0 <= i < |memoryTypes| ==> !Qualifies(memoryTypes, allowedTypes, properties, i)) ==> r == 0
  {
    match FirstMatch(memoryTypes, allowedTypes, properties, 0)
    case Some(i) => i
    case None => 0
  }

  /** The search over the device's memory types, with its early return. */
  method FindMemoryTypeIndex(memoryTypes: seq<MemoryType>, allowedTypes: bv32, properties: bv32) returns (index: nat)
    requires |memoryTypes| <= MAX_MEMORY_TYPES
    ensures (exists i :: 0 <= i < |memoryTypes| && Qualifies(memoryTypes, allowedTypes, properties, i)) ==>
              index < |memoryTypes| && Qualifies(memoryTypes, allowedTypes, properties, index)
    ensures forall j :: 0 <= j < index && j < |memoryTypes| ==> !Qualifies(memoryTypes, allowedTypes, properties, j)
    ensures (forall i :: 0 <= i < |memoryTypes| ==> !Qualifies(memoryTypes, allowedTypes, properties, i)) ==> index == 0
    ensures index == MemoryTypeIndex(memoryTypes, allowedTypes, properties)
  {
    var i := 0;
    while i < |memoryTypes|
      invariant 0 <= i <= |memoryTypes|
      invariant forall j :: 0 <= j < i ==> !Qualifies(memoryTypes, allowedTypes, properties, j)
      invariant FirstMatch(memoryTypes, allowedTypes, properties, 0) == FirstMatch(memoryTypes, allowedTypes, properties, i)
    {
      if TypeAllowed(allowedTypes, i) && memoryTypes[i].propertyFlags & properties == properties {
        assert FirstMatch(memoryTypes, allowedTypes, properties, i) == Some(i);
        return i;
      }
      assert FirstMatch(memoryTypes, allowedTypes, properties, i) == FirstMatch(memoryTypes, allowedTypes, properties, i + 1);
      i := i + 1;
    }
    return 0;
  }

  /** A result of 0 is returned both when type 0 matches and when nothing matches,
      so a caller cannot tell a match from a failed search by the index alone. */
  lemma ZeroDoesNotProveMatch()
    ensures MemoryTypeIndex([MemoryType(1, 0)], 1, 1) == 0
    ensures Qualifies([MemoryType(1, 0)], 1, 1, 0)
    ensures MemoryTypeIndex([MemoryType(0, 0)], 1, 1) == 0
    ensures forall i :: 0 <= i < 1 ==> !Qualifies([MemoryType(0, 0)], 1, 1, i)
  {
    assert FirstMatch([MemoryType(1, 0)], 1, 1, 0) == Some(0);
    assert FirstMatch([MemoryType(0, 0)], 1, 1, 1) == None;
  }

  /** Requesting no properties with a full mask always selects type 0 when there is one. */
  lemma NoPropertiesSelectsFirst(memoryTypes: seq<MemoryType>)
    requires 0 < |memoryTypes| <= MAX_MEMORY_TYPES
    ensures MemoryTypeIndex(memoryTypes, 0xFFFF_FFFF, 0) == 0
    ensures Qualifies(memoryTypes, 0xFFFF_FFFF, 0, 0)
  {
    assert TypeAllowed(0xFFFF_FFFF, 0);
  }

  // ---------------------------------------------------------------------------
  // Buffer creation
  // ---------------------------------------------------------------------------

  /** VK_SHARING_MODE_EXCLUSIVE */
  const SHARING_MODE_EXCLUSIVE: nat := 0

  datatype BufferCreateInfo = BufferCreateInfo(size: nat, usage: bv32, sharingMode: nat)
  datatype MemoryRequirements = MemoryRequirements(size: nat, alignment: nat, memoryTypeBits: bv32)
  datatype MemoryAllocateInfo = MemoryAllocateInfo(allocationSize: nat, memoryTypeIndex: nat)

  /** What the driver answers to the calls createBuffer makes: the vkCreateBuffer result and
      the buffer it writes, the buffer's memory requirements, and the vkAllocateMemory result
      and the memory it writes. */
  datatype BufferDriver = BufferDriver(
    createResult: VkResult,
    buffer: Handle,
    requirements: MemoryRequirements,
    allocateResult: VkResult,
    memory: Handle)

  /** A created buffer with its memory, the parameters passed to the driver, and the
      offset at which the memory was bound. */
  datatype BoundBuffer = BoundBuffer(
    buffer: Handle,
    memory: Handle,
    createInfo: BufferCreateInfo,
    allocateInfo: MemoryAllocateInfo,
    bindOffset: nat)

  const CREATE_BUFFER_FAILED := "Failed to create a vertex buffer"
  const ALLOCATE_MEMORY_FAILED := "Failed to allocate vertex buffer memory"

  /** createBuffer: create the buffer, size an allocation from its requirements, pick the
      memory type, allocate and bind at offset 0; throw on a failed create or allocate. */
  method CreateBuffer(memoryTypes: seq<MemoryType>, driver: BufferDriver, bufferSize: nat,
                      bufferUsageFlags: bv32, bufferProperties: bv32) returns (r: Result<BoundBuffer>)
    requires |memoryTypes| <= MAX_MEMORY_TYPES
    ensures driver.createResult != VK_SUCCESS ==> r == Failure(RuntimeError(CREATE_BUFFER_FAILED))
    ensures driver.createResult == VK_SUCCESS && driver.allocateResult != VK_SUCCESS ==>
              r == Failure(RuntimeError(ALLOCATE_MEMORY_FAILED))
    ensures r.Success? <==> driver.createResult == VK_SUCCESS && driver.allocateResult == VK_SUCCESS
    ensures r.Success? ==>
              && r.value.buffer == driver.buffer
              && r.value.memory == driver.memory
              && r.value.createInfo == BufferCreateInfo(bufferSize, bufferUsageFlags, SHARING_MODE_EXCLUSIVE)
              && r.value.allocateInfo.allocationSize == driver.requirements.size
              && r.value.allocateInfo.memoryTypeIndex
                 == MemoryTypeIndex(memoryTypes, driver.requirements.memoryTypeBits, bufferProperties)
              && r.value.bindOffset == 0
  {
    var bufferInfo := BufferCreateInfo(bufferSize, bufferUsageFlags, SHARING_MODE_EXCLUSIVE);
    if driver.createResult != VK_SUCCESS {
      return Failure(RuntimeError(CREATE_BUFFER_FAILED));
    }
    var typeIndex := FindMemoryTypeIndex(memoryTypes, driver.requirements.memoryTypeBits, bufferProperties);
    var allocateInfo := MemoryAllocateInfo(driver.requirements.size, typeIndex);
    if driver.allocateResult != VK_SUCCESS {
      return Failure(RuntimeError(ALLOCATE_MEMORY_FAILED));
    }
    r := Success(BoundBuffer(driver.buffer, driver.memory, bufferInfo, allocateInfo, 0));
  }

  // ---------------------------------------------------------------------------
  // One-shot command buffers
  // ---------------------------------------------------------------------------

  /** VK_COMMAND_BUFFER_LEVEL_PRIMARY and VK_COMMAND_BUFFER_USAGE_ONE_TIME_SUBMIT_BIT */
  const COMMAND_BUFFER_LEVEL_PRIMARY: nat := 0
  const COMMAND_BUFFER_USAGE_ONE_TIME_SUBMIT: bv32 := 0x1

  /** VkBufferCopy */
  datatype BufferCopy = BufferCopy(srcOffset: nat, dstOffset: nat, size: nat)

  /** VkImageSubresourceLayers */
  datatype SubresourceLayers = SubresourceLayers(aspectMask: bv32, mipLevel: nat, baseArrayLayer: nat, layerCount: nat)

  /** VkBufferImageCopy; the image offset and extent as (x, y, z) triples. */
  datatype BufferImageCopy = BufferImageCopy(
    bufferOffset: nat,
    bufferRowLength: nat,
    bufferImageHeight: nat,
    imageSubresource: SubresourceLayers,
    imageOffset: (int, int, int),
    imageExtent: (nat, nat, nat))

  /** VkImageSubresourceRange */
  datatype SubresourceRange = SubresourceRange(
    aspectMask: bv32, baseMipLevel: nat, levelCount: nat, baseArrayLayer: nat, layerCount: nat)

  /** VkImageMemoryBarrier */
  datatype ImageMemoryBarrier = ImageMemoryBarrier(
    srcAccessMask: bv32,
    dstAccessMask: bv32,
    oldLayout: ImageLayout,
    newLayout: ImageLayout,
    srcQueueFamilyIndex: bv32,
    dstQueueFamilyIndex: bv32,
    image: Handle,
    subresourceRange: SubresourceRange)

  /** The driver calls the transfer helpers make, in order. Every recorded command goes
      into the single command buffer the helper allocated. */
  datatype DriverCall =
    | AllocateCommandBuffers(commandPool: Handle, level: nat, commandBufferCount: nat)
    | BeginCommandBuffer(flags: bv32)
    | CmdCopyBuffer(srcBuffer: Handle, dstBuffer: Handle, regions: seq<BufferCopy>)
    | CmdCopyBufferToImage(srcBuffer: Handle, dstImage: Handle, dstImageLayout: ImageLayout,
                           imageRegions: seq<BufferImageCopy>)
    | CmdPipelineBarrier(srcStageMask: bv32, dstStageMask: bv32, dependencyFlags: bv32,
                         imageBarriers: seq<ImageMemoryBarrier>)
    | EndCommandBuffer
    | QueueSubmit(queue: Handle, submitCount: nat, commandBufferCount: nat)
    | QueueWaitIdle(queue: Handle)
    | FreeCommandBuffers(commandPool: Handle, commandBufferCount: nat)
  {
    /** A vkCmd* call: one that records into the command buffer. */
    predicate IsRecorded() {
      CmdCopyBuffer? || CmdCopyBufferToImage? || CmdPipelineBarrier?
    }
  }

  /** beginCommandBuffer: allocate one primary command buffer and begin it for one submission. */
  function BeginCommandBufferCalls(commandPool: Handle): (r: seq<DriverCall>)
    ensures forall k :: 0 <= k < |r| ==> !r[k].IsRecorded()
  {
    [AllocateCommandBuffers(commandPool, COMMAND_BUFFER_LEVEL_PRIMARY, 1),
     BeginCommandBuffer(COMMAND_BUFFER_USAGE_ONE_TIME_SUBMIT)]
  }

  /** endAndSubmitCommandBuffer: end it, submit it alone, wait for the queue to drain, free it. */
  function EndAndSubmitCalls(commandPool: Handle, queue: Handle): (r: seq<DriverCall>)
    ensures forall k :: 0 <= k < |r| ==> !r[k].IsRecorded()
  {
    [EndCommandBuffer, QueueSubmit(queue, 1, 1), QueueWaitIdle(queue), FreeCommandBuffers(commandPool, 1)]
  }

  /** The one-shot protocol: one primary buffer allocated from `commandPool` and begun for a
      single submission, then only recorded commands, then ended, submitted to `queue`,
      waited on until the queue is idle, and freed back to `commandPool`. */
  predicate IsOneShot(calls: seq<DriverCall>, commandPool: Handle, queue: Handle) {
    && |calls| >= 6
    && calls[0] == AllocateCommandBuffers(commandPool, COMMAND_BUFFER_LEVEL_PRIMARY, 1)
    && calls[1] == BeginCommandBuffer(COMMAND_BUFFER_USAGE_ONE_TIME_SUBMIT)
    && (forall k :: 2 <= k < |calls| - 4 ==> calls[k].IsRecorded())
    && calls[|calls| - 4] == EndCommandBuffer
    && calls[|calls| - 3] == QueueSubmit(queue, 1, 1)
    && calls[|calls| - 2] == QueueWaitIdle(queue)
    && calls[|calls| - 1] == FreeCommandBuffers(commandPool, 1)
  }

  /** The commands recorded between begin and end. */
  function Recorded(calls: seq<DriverCall>): seq<DriverCall>
    requires |calls| >= 6
  {
    calls[2..|calls| - 4]
  }

  /** Wrapping recorded commands in the two helpers gives a one-shot submission
      whose recorded part is exactly those commands. */
  lemma WrapIsOneShot(commandPool: Handle, queue: Handle, body: seq<DriverCall>)
    requires forall k :: 0 <= k < |body| ==> body[k].IsRecorded()
    ensures IsOneShot(BeginCommandBufferCalls(commandPool) + body + EndAndSubmitCalls(commandPool, queue), commandPool, queue)
    ensures Recorded(BeginCommandBufferCalls(commandPool) + body + EndAndSubmitCalls(commandPool, queue)) == body
  {
    var calls := BeginCommandBufferCalls(commandPool) + body + EndAndSubmitCalls(commandPool, queue);
    assert forall k :: 2 <= k < |calls| - 4 ==> calls[k] == body[k - 2];
    assert calls[2..|calls| - 4] == body;
  }

  /** Conversely, every one-shot submission is the two helpers wrapped around the
      commands it records. */
  lemma OneShotDecomposes(calls: seq<DriverCall>, commandPool: Handle, queue: Handle)
    requires IsOneShot(calls, commandPool, queue)
    ensures calls == BeginCommandBufferCalls(commandPool) + Recorded(calls) + EndAndSubmitCalls(commandPool, queue)
  {
  }

  /** copyBuffer: copy `bufferSize` bytes from the start of `srcBuffer` to the start of
      `dstBuffer` in a one-shot command buffer. */
  function CopyBufferCalls(transferQueue: Handle, transferCommandPool: Handle,
                           srcBuffer: Handle, dstBuffer: Handle, bufferSize: nat): (calls: seq<DriverCall>)
    ensures IsOneShot(calls, transferCommandPool, transferQueue)
    ensures Recorded(calls) == [CmdCopyBuffer(srcBuffer, dstBuffer, [BufferCopy(0, 0, bufferSize)])]
  {
    var body := [CmdCopyBuffer(srcBuffer, dstBuffer, [BufferCopy(0, 0, bufferSize)])];
    WrapIsOneShot(transferCommandPool, transferQueue, body);
    BeginCommandBufferCalls(transferCommandPool) + body + EndAndSubmitCalls(transferCommandPool, transferQueue)
  }

  /** copyImageBuffer: copy the whole buffer into the first layer and mip level of the colour
      aspect of `image`, which must already be in the transfer-destination layout; the buffer
      is read tightly packed from offset 0. */
  function CopyImageBufferCalls(transferQueue: Handle, transferCommandPool: Handle,
                                srcBuffer: Handle, image: Handle, width: nat, height: nat): (calls: seq<DriverCall>)
    ensures IsOneShot(calls, transferCommandPool, transferQueue)
    ensures |Recorded(calls)| == 1 && Recorded(calls)[0].CmdCopyBufferToImage?
    ensures var cmd := Recorded(calls)[0];
            && cmd.srcBuffer == srcBuffer && cmd.dstImage == image
            && cmd.dstImageLayout == LAYOUT_TRANSFER_DST_OPTIMAL
            && |cmd.imageRegions| == 1
            && cmd.imageRegions[0].bufferOffset == 0
            && cmd.imageRegions[0].bufferRowLength == 0 && cmd.imageRegions[0].bufferImageHeight == 0
            && cmd.imageRegions[0].imageSubresource == SubresourceLayers(IMAGE_ASPECT_COLOR, 0, 0, 1)
            && cmd.imageRegions[0].imageOffset == (0, 0, 0)
            && cmd.imageRegions[0].imageExtent == (width, height, 1)
  {
    var region := BufferImageCopy(0, 0, 0, SubresourceLayers(IMAGE_ASPECT_COLOR, 0, 0, 1), (0, 0, 0), (width, height, 1));
    var body := [CmdCopyBufferToImage(srcBuffer, image, LAYOUT_TRANSFER_DST_OPTIMAL, [region])];
    WrapIsOneShot(transferCommandPool, transferQueue, body);
    BeginCommandBufferCalls(transferCommandPool) + body + EndAndSubmitCalls(transferCommandPool, transferQueue)
  }

  // ---------------------------------------------------------------------------
  // Image-layout transitions
  // ---------------------------------------------------------------------------

  /** VkImageLayout codes. */
  type ImageLayout = nat
  const LAYOUT_UNDEFINED: ImageLayout := 0
  const LAYOUT_SHADER_READ_ONLY_OPTIMAL: ImageLayout := 5
  const LAYOUT_TRANSFER_DST_OPTIMAL: ImageLayout := 7

  /** VkAccessFlagBits and VkPipelineStageFlagBits used by the policy. */
  const ACCESS_SHADER_READ: bv32 := 0x20
  const ACCESS_TRANSFER_WRITE: bv32 := 0x1000
  const STAGE_TOP_OF_PIPE: bv32 := 0x1
  const STAGE_FRAGMENT_SHADER: bv32 := 0x80
  const STAGE_TRANSFER: bv32 := 0x1000

  /** VK_QUEUE_FAMILY_IGNORED and VK_IMAGE_ASPECT_COLOR_BIT */
  const QUEUE_FAMILY_IGNORED: bv32 := 0xFFFF_FFFF
  const IMAGE_ASPECT_COLOR: bv32 := 0x1

  /** The access masks and pipeline stages a transition synchronises. */
  datatype BarrierPolicy = BarrierPolicy(srcAccess: bv32, dstAccess: bv32, srcStage: bv32, dstStage: bv32)

  /** The two supported transitions of an uploaded texture. */
  predicate SupportedTransition(oldLayout: ImageLayout, newLayout: ImageLayout) {
    || (oldLayout == LAYOUT_UNDEFINED && newLayout == LAYOUT_TRANSFER_DST_OPTIMAL)
    || (oldLayout == LAYOUT_TRANSFER_DST_OPTIMAL && newLayout == LAYOUT_SHADER_READ_ONLY_OPTIMAL)
  }

  /** The barrier policy of transitionImageLayout: a fixed two-row table; every other pair
      keeps the zero-initialised masks and stages. */
  function LayoutBarrierPolicy(oldLayout: ImageLayout, newLayout: ImageLayout): (p: BarrierPolicy)
    ensures oldLayout == LAYOUT_UNDEFINED && newLayout == LAYOUT_TRANSFER_DST_OPTIMAL ==>
              p == BarrierPolicy(0, ACCESS_TRANSFER_WRITE, STAGE_TOP_OF_PIPE, STAGE_TRANSFER)
    ensures oldLayout == LAYOUT_TRANSFER_DST_OPTIMAL && newLayout == LAYOUT_SHADER_READ_ONLY_OPTIMAL ==>
              p == BarrierPolicy(ACCESS_TRANSFER_WRITE, ACCESS_SHADER_READ, STAGE_TRANSFER, STAGE_FRAGMENT_SHADER)
    ensures !SupportedTransition(oldLayout, newLayout) ==> p == BarrierPolicy(0, 0, 0, 0)
  {
    if oldLayout == LAYOUT_UNDEFINED && newLayout == LAYOUT_TRANSFER_DST_OPTIMAL then
      BarrierPolicy(0, ACCESS_TRANSFER_WRITE, STAGE_TOP_OF_PIPE, STAGE_TRANSFER)
    else if oldLayout == LAYOUT_TRANSFER_DST_OPTIMAL && newLayout == LAYOUT_SHADER_READ_ONLY_OPTIMAL then
      BarrierPolicy(ACCESS_TRANSFER_WRITE, ACCESS_SHADER_READ, STAGE_TRANSFER, STAGE_FRAGMENT_SHADER)
    else
      BarrierPolicy(0, 0, 0, 0)
  }

  /** A transition synchronises pipeline stages exactly when it is one of the two supported ones. */
  lemma StagesSetIffSupported(oldLayout: ImageLayout, newLayout: ImageLayout)
    ensures LayoutBarrierPolicy(oldLayout, newLayout).srcStage != 0 <==> SupportedTransition(oldLayout, newLayout)
    ensures LayoutBarrierPolicy(oldLayout, newLayout).dstStage != 0 <==> SupportedTransition(oldLayout, newLayout)
    ensures LayoutBarrierPolicy(oldLayout, newLayout).dstAccess != 0 <==> SupportedTransition(oldLayout, newLayout)
  {
  }

  /** The texture upload path chains: what the first transition makes available (transfer
      writes at the transfer stage) is what the second one waits for. */
  lemma UploadTransitionsChain()
    ensures LayoutBarrierPolicy(LAYOUT_UNDEFINED, LAYOUT_TRANSFER_DST_OPTIMAL).dstAccess
            == LayoutBarrierPolicy(LAYOUT_TRANSFER_DST_OPTIMAL, LAYOUT_SHADER_READ_ONLY_OPTIMAL).srcAccess
    ensures LayoutBarrierPolicy(LAYOUT_UNDEFINED, LAYOUT_TRANSFER_DST_OPTIMAL).dstStage
            == LayoutBarrierPolicy(LAYOUT_TRANSFER_DST_OPTIMAL, LAYOUT_SHADER_READ_ONLY_OPTIMAL).srcStage
  {
  }

  /** The barrier covers the first mip level and array layer of the colour aspect only. */
  predicate CoversFirstColourLevel(r: SubresourceRange) {
    r.aspectMask == IMAGE_ASPECT_COLOR && r.baseMipLevel == 0 && r.levelCount == 1
    && r.baseArrayLayer == 0 && r.layerCount == 1
  }

  /** transitionImageLayout: record one pipeline barrier for `image` in a one-shot command
      buffer, with stages and access masks from the policy table. */
  function TransitionImageLayoutCalls(queue: Handle, commandPool: Handle, image: Handle,
                                      oldLayout: ImageLayout, newLayout: ImageLayout): (calls: seq<DriverCall>)
    ensures IsOneShot(calls, commandPool, queue)
    ensures |Recorded(calls)| == 1 && Recorded(calls)[0].CmdPipelineBarrier?
    ensures var cmd := Recorded(calls)[0];
            var p := LayoutBarrierPolicy(oldLayout, newLayout);
            && cmd.srcStageMask == p.srcStage && cmd.dstStageMask == p.dstStage
            && cmd.dependencyFlags == 0
            && |cmd.imageBarriers| == 1
            && cmd.imageBarriers[0].image == image
            && cmd.imageBarriers[0].oldLayout == oldLayout
            && cmd.imageBarriers[0].newLayout == newLayout
            && cmd.imageBarriers[0].srcAccessMask == p.srcAccess
            && cmd.imageBarriers[0].dstAccessMask == p.dstAccess
            && cmd.imageBarriers[0].srcQueueFamilyIndex == QUEUE_FAMILY_IGNORED
            && cmd.imageBarriers[0].dstQueueFamilyIndex == QUEUE_FAMILY_IGNORED
            && CoversFirstColourLevel(cmd.imageBarriers[0].subresourceRange)
  {
    var p := LayoutBarrierPolicy(oldLayout, newLayout);
    var barrier := ImageMemoryBarrier(
      p.srcAccess, p.dstAccess, oldLayout, newLayout,
      QUEUE_FAMILY_IGNORED, QUEUE_FAMILY_IGNORED, image,
      SubresourceRange(IMAGE_ASPECT_COLOR, 0, 1, 0, 1));
    var body := [CmdPipelineBarrier(p.srcStage, p.dstStage, 0, [barrier])];
    WrapIsOneShot(commandPool, queue, body);
    BeginCommandBufferCalls(commandPool) + body + EndAndSubmitCalls(commandPool, queue)
  }
}
