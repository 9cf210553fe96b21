# VulkanApp set-up and mesh loading, modelled in Dafny

This project models the sequential logic of a small Vulkan renderer, on the data the
Vulkan driver and the asset importer hand back:

- **Utilities** (`utilities.dfy`): the queue-family record and its validity test; the
  memory-type search (`findMemoryTypeIndex`), which returns the first allowed type that has
  every requested property, or 0; buffer creation with its two failure points; the one-shot
  transfer command buffer used by `copyBuffer`, `copyImageBuffer` and
  `transitionImageLayout`, as the sequence of driver calls it makes; and the two-row
  image-layout barrier policy.
- **Renderer** (`vulkan_renderer.dfy`): the queue-family scan, the device-suitability
  test, the instance-extension check, the physical-device choice, and what `init` returns
  or lets escape. The renderer object is a class whose fields the methods update. The scan
  never assigns `presentationFamily`, so as written no device is ever suitable and
  `getPysicalDevice` never stores one. The model proves that consequence
  (`NoDeviceIsSuitable`, and the last ensures of `Init`).
- **Meshes** (`mesh_model.dfy`): the `MeshModel` container (a mesh list plus a transform)
  and the loaders. `LoadMaterials` keeps the file name after the last backslash.
  `LoadMesh` builds the vertex array and the concatenated index list. `LoadNode` flattens
  the node tree depth-first, in pre-order.
- **Wrappers** (`wrappers.dfy`): `Option`, and `Result` / `Outcome` for operations that
  throw `std::runtime_error`.

Driver calls are not executed. Where a result depends on one, what the driver answers is
a parameter: a result code, a handle, an enumerated list, or memory requirements. Where
the code records commands, the model returns the list of calls it makes. Vulkan constants
(layouts, access and stage bits, `VK_QUEUE_FAMILY_IGNORED`) take their values from the
Vulkan API headers.

## Model

| member | source | states |
|---|---|---|
| `Utilities.DefaultIndicesInvalid` | VulkanApp/Utilities.h:25-32 | A default-initialised QueueFamilyIndices has both families at -1 and is not valid. |
| `Utilities.InvalidWhenEitherMissing` | VulkanApp/Utilities.h:29-32 | isValid holds exactly when both families are non-negative. |
| `Utilities.FirstMatch` | VulkanApp/Utilities.h:73-81 | The first qualifying memory type from a start index: it is allowed by the mask and has every requested property flag, and no earlier index qualifies. None exactly when no index qualifies. |
| `Utilities.MemoryTypeIndex` | VulkanApp/Utilities.h:73-83 | The index findMemoryTypeIndex returns: the lowest index that is allowed by the mask and offers every requested property when one exists, and 0 when none does. |
| `Utilities.FindMemoryTypeIndex` | VulkanApp/Utilities.h:67-84 | The loop with early return yields the lowest qualifying index when one exists. No smaller index qualifies. It yields 0 when none qualifies. |
| `Utilities.ZeroDoesNotProveMatch` | VulkanApp/Utilities.h:83 | 0 is returned both when type 0 matches and when nothing matches. |
| `Utilities.NoPropertiesSelectsFirst` | VulkanApp/Utilities.h:73-80 | With a full mask and no requested properties, type 0 is selected. |
| `Utilities.CreateBuffer` | VulkanApp/Utilities.h:87-123 | It throws the first message iff vkCreateBuffer fails, and the second iff allocation then fails. Otherwise it returns the driver's buffer and memory, an exclusive create-info of the requested size and usage, an allocation of the required size, the memory type `findMemoryTypeIndex(memoryTypeBits, properties)`, and binding offset 0. |
| `Utilities.BeginCommandBufferCalls` | VulkanApp/Utilities.h:126-153 | The calls beginCommandBuffer makes (allocate one primary buffer from the pool, begin it for one-time submit) record no command. |
| `Utilities.EndAndSubmitCalls` | VulkanApp/Utilities.h:155-169 | The calls endAndSubmitCommandBuffer makes (end, submit the one buffer, wait for the queue to be idle, free it back to the pool) record no command. |
| `Utilities.OneShotDecomposes` | VulkanApp/Utilities.h:126-169 | Every one-shot submission is exactly beginCommandBuffer's calls, then the commands it records, then endAndSubmitCommandBuffer's calls. This is the converse of WrapIsOneShot. |
| `Utilities.WrapIsOneShot` | VulkanApp/Utilities.h:126-169 | begin + recorded commands + endAndSubmit is a one-shot submission: one primary buffer begun for one-time submit, then ended, submitted alone, waited idle and freed. |
| `Utilities.CopyBufferCalls` | VulkanApp/Utilities.h:171-185 | copyBuffer is one-shot and records exactly one copy, region (srcOffset 0, dstOffset 0, size bufferSize). |
| `Utilities.CopyImageBufferCalls` | VulkanApp/Utilities.h:187-207 | copyImageBuffer is one-shot and records one buffer-to-image copy into a transfer-destination image. The region is at buffer offset 0, tightly packed, colour aspect, mip 0, layer 0, one layer, offset (0,0,0), extent (width, height, 1). |
| `Utilities.LayoutBarrierPolicy` | VulkanApp/Utilities.h:227-247 | UNDEFINED→TRANSFER_DST gives access 0→TRANSFER_WRITE and stages TOP_OF_PIPE→TRANSFER. TRANSFER_DST→SHADER_READ_ONLY gives TRANSFER_WRITE→SHADER_READ and TRANSFER→FRAGMENT_SHADER. Every other pair gives all zeros. |
| `Utilities.StagesSetIffSupported` | VulkanApp/Utilities.h:227-247 | Source stage, destination stage and destination access are non-zero exactly for the two supported transitions. |
| `Utilities.UploadTransitionsChain` | VulkanApp/Utilities.h:230-246 | The access and stage the first upload transition makes available are the ones the second waits on. |
| `Utilities.TransitionImageLayoutCalls` | VulkanApp/Utilities.h:210-258 | transitionImageLayout is one-shot and records one pipeline barrier. It carries the policy's stages and access masks and dependency flags 0. It has one image barrier for the given image and layouts, with both queue families ignored, covering one mip level and one layer from 0 of the colour aspect. |
| `Renderer.LastGraphicsFamily` | VulkanApp/VulkanRenderer.cpp:193-206 | The index of the last family with queueCount > 0 and the graphics bit, with no qualifying family after it. It is -1 exactly when no family qualifies. |
| `Renderer.GraphicsFamilyFoundIffPresent` | VulkanApp/VulkanRenderer.cpp:196-200 | The scan finds a graphics family iff the device has one. |
| `Renderer.GetQueueFamilies` | VulkanApp/VulkanRenderer.cpp:183-209 | presentationFamily stays -1, so the early break never fires. graphicsFamily ends as the last graphics family (or -1). The result is never valid. |
| `Renderer.NoDeviceIsSuitable` | VulkanApp/VulkanRenderer.cpp:178-180 | As written, no physical device is suitable, whatever queue families it reports. |
| `Renderer.CheckDeviceSuitable` | VulkanApp/VulkanRenderer.cpp:168-181 | checkDeviceSuitable equals getQueueFamiles(device).isValid(), which is false. |
| `Renderer.CheckInstanceExtensionSupport` | VulkanApp/VulkanRenderer.cpp:138-166 | True iff every required name has an available name that differs from it (the inverted strcmp test). True for an empty required list. |
| `Renderer.AsWrittenMatchesUnlessAllEqual` | VulkanApp/VulkanRenderer.cpp:150-157 | Under the inverted test, a name is "found" unless every available name equals it. So any two distinct available extensions satisfy every requirement. |
| `Renderer.InvertedTestCounterexample` | VulkanApp/VulkanRenderer.cpp:152 | A required extension that is offered is reported missing, and one that is not offered is reported present. |
| `Renderer.CheckInstanceExtensionSupportCorrected` | VulkanApp/VulkanRenderer.cpp:147-163 | With strcmp == 0: true iff every required name is among the available ones. |
| `Renderer.VulkanRenderer.constructor` | VulkanApp/VulkanRenderer.cpp:3-6 | A new renderer has no instance, no stored physical device and no logical device. |
| `Renderer.VulkanRenderer.CreateInstance` | VulkanApp/VulkanRenderer.cpp:34-79 | It throws on unsupported extensions (as checked by the inverted test) and then on a failed vkCreateInstance. It creates one instance otherwise. |
| `Renderer.VulkanRenderer.GetPhysicalDevice` | VulkanApp/VulkanRenderer.cpp:112-136 | It throws when there is no device, leaving the field unchanged. Otherwise it stores the first suitable device in enumeration order, or leaves the field unchanged when none is suitable. |
| `Renderer.VulkanRenderer.CreateLogicalDevice` | VulkanApp/VulkanRenderer.cpp:103-107 | It throws iff vkCreateDevice does not succeed. |
| `Renderer.VulkanRenderer.Init` | VulkanApp/VulkanRenderer.cpp:7-23 | A failure of the createInstance call outside the try escapes. Otherwise init returns EXIT_FAILURE if createInstance, getPysicalDevice or createLogicalDevice throws inside the try, and 0 otherwise. Success creates two instances and a logical device. An escaped failure creates no instance. EXIT_FAILURE leaves one instance behind when the second createInstance fails, and two when a later step fails. The logical device is unchanged on every failure path. The physical device is never changed. |
| `Renderer.VulkanRenderer.InitCorrected` | VulkanApp/VulkanRenderer.cpp:11-22 | With createInstance only inside the try, init always returns: EXIT_FAILURE on any set-up failure, 0 otherwise. Success creates one instance and a logical device. On EXIT_FAILURE the logical device is unchanged, and one instance was created exactly when createInstance succeeded. |
| `Renderer.InstanceFailureEscapes` | VulkanApp/VulkanRenderer.cpp:10 | With a failing vkCreateInstance, the code as written lets the exception escape init, while the corrected init returns EXIT_FAILURE. |
| `Meshes.LastBackslash` | VulkanApp/MeshModel.cpp:62 | The position of the last backslash, with none after it, or -1 when there is none (npos narrowed to int). |
| `Meshes.FileName` | VulkanApp/MeshModel.cpp:62-63 | The stored name is a suffix of the path with no backslash in it, preceded by a backslash unless it is the whole path. A path without a backslash is kept whole. |
| `Meshes.FileNameIdempotent` | VulkanApp/MeshModel.cpp:62-63 | Taking the file name twice gives the same result as once. |
| `Meshes.ForwardSlashIsNotSeparator` | VulkanApp/MeshModel.cpp:62 | A path with only forward slashes is kept whole. |
| `Meshes.TextureName` | VulkanApp/MeshModel.cpp:53-66 | A material's entry is "" unless it has a diffuse texture whose lookup succeeds, in which case it is that path's file name. |
| `Meshes.LoadMaterials` | VulkanApp/MeshModel.cpp:45-71 | One entry per material, entry i as above; no entry contains a backslash. |
| `Meshes.FlattenFacesAppend` | VulkanApp/MeshModel.cpp:117-124 | Concatenating face index lists distributes over joining face sequences. |
| `Meshes.FlattenFacesLength` | VulkanApp/MeshModel.cpp:117-124 | The index count is the sum of the faces' index counts. |
| `Meshes.ConvertMesh` | VulkanApp/MeshModel.cpp:96-125 | One vertex per position, with the position copied and colour (1,1,1). tex comes from UV channel 0 when present, else (0,0). Indices are the faces' lists in face order. The texture id is matToText[materialIndex]. |
| `Meshes.LoadMesh` | VulkanApp/MeshModel.cpp:91-128 | Filling the vertex array in place and pushing indices face by face yields exactly that mesh. |
| `Meshes.OwnMeshes` | VulkanApp/MeshModel.cpp:77-80 | One converted mesh per entry of the node's mMeshes. |
| `Meshes.FlattenNode` | VulkanApp/MeshModel.cpp:73-89 | Pre-order flattening: the node's own meshes in mMeshes order, then its children's flattened lists. The length is the number of mesh references in the subtree. |
| `Meshes.FlattenChildren` | VulkanApp/MeshModel.cpp:82-86 | The children's flattened lists concatenated in child order. The length is the sum of their mesh counts. |
| `Meshes.LoadNode` | VulkanApp/MeshModel.cpp:73-89 | The push_back loop and the recursive appends produce exactly the pre-order flattening. |
| `Meshes.LoadChildren` | VulkanApp/MeshModel.cpp:82-86 | The loop over mChildren appends each child's recursively loaded list, giving exactly the children's flattening in child order. |
| `Meshes.FlattenChildrenStep` | VulkanApp/MeshModel.cpp:82-86 | Taking one more child into account appends exactly that child's flattened list, which is the step each iteration of the children loop takes. |
| `Meshes.MeshModel.Empty` | VulkanApp/MeshModel.cpp:3-5 | The default constructor holds no meshes. |
| `Meshes.MeshModel.constructor` | VulkanApp/MeshModel.cpp:7-11 | Constructing from a list stores exactly that list, with the identity transform. |
| `Meshes.MeshModel.GetMeshCount` | VulkanApp/MeshModel.cpp:13-16 | The count is the length of the mesh list. |
| `Meshes.MeshModel.GetMesh` | VulkanApp/MeshModel.cpp:18-25 | It succeeds iff the index is below the count, returning that element. Otherwise it fails with the invalid-index error. |
| `Meshes.MeshModel.GetModel` | VulkanApp/MeshModel.cpp:27-30 | It returns the stored transform. |
| `Meshes.MeshModel.SetModel` | VulkanApp/MeshModel.cpp:32-35 | After setModel(m), getModel() returns m, and the mesh list is unchanged. |
| `Meshes.MeshModel.DestroyMesh` | VulkanApp/MeshModel.cpp:37-43 | destroyBuffers is called once on every mesh, in list order, and nothing else changes. |

## Findings

| source | as written | input that shows it | evidently intended | confidence | as-written member | corrected member |
|---|---|---|---|---|---|---|
| VulkanApp/VulkanRenderer.cpp:152 | the non-zero strcmp result (names differ) counts as "extension found" | required `VK_KHR_surface`, available `VK_KHR_surface`: reported unsupported; available `VK_EXT_debug_utils` only: reported supported | `strcmp(...) == 0` | high, not executed | `Renderer.CheckInstanceExtensionSupport` (shown by `Renderer.InvertedTestCounterexample`) | `Renderer.CheckInstanceExtensionSupportCorrected` |
| VulkanApp/VulkanRenderer.cpp:10 | an extra createInstance() before the try | vkCreateInstance fails: the exception escapes init instead of EXIT_FAILURE; on success a second instance overwrites the first | only the call inside the try | high, not executed | `Renderer.VulkanRenderer.Init` (shown by `Renderer.InstanceFailureEscapes`) | `Renderer.VulkanRenderer.InitCorrected` |

`CreateInstance` and `Init` keep the code as written, including the inverted extension
test. The corrected members are defined next to them. The third oddity, that
`presentationFamily` is never assigned, is modelled as written. It is not listed as a
finding, because the code never queries presentation support.

## Left out

- Renderer.VulkanRenderer.Init: the catch block's `printf("ERROR %s", e.what())` is not
  modelled, so the printed error message is not modelled. Only the EXIT_FAILURE return is.
- Driver calls (vkCreate*, vkAllocate*, vkCmd*, vkQueueSubmit, vkQueueWaitIdle, vkFree*,
  vkDestroy*): foreign code. Their results are parameters, and recorded commands are
  returned as call lists. What the GPU does with them is not modelled.
- `readFile`: file I/O.
- `cleanUp`: two destroy calls into the driver, with nothing to state.
- Renderer.VulkanRenderer.CreateInstance: the application-info and create-info struct
  filling, the GLFW extension query and the enabled-layer settings are not modelled. Only
  when the method throws, and the instance count, are modelled.
- Renderer.VulkanRenderer.CreateLogicalDevice: the queue and device create-info filling
  and the vkGetDeviceQueue call are not modelled. This includes the use of
  `graphicsFamily` (possibly -1) as a queue family index, and the read of a physical
  device that was never stored. Only the throw on failure is modelled.
- Renderer.VulkanRenderer.GetPhysicalDevice: the suitability test is passed in as a
  function. `Init` passes `DeviceSuitable`, which is what checkDeviceSuitable computes.
- Utilities.CreateBuffer: the writes through the out-pointers on the failure paths are
  not modelled. The buffer handle is written before allocation fails.
- `Mesh` and its GPU buffers (`Mesh.h` is not part of this model): a mesh is the record of
  its vertices, indices and texture id, and `destroyBuffers` is recorded as a call.
- Meshes.MeshModel.GetMesh: it returns the mesh value, not a pointer into the list, so
  aliasing through that pointer is not modelled.
- Meshes.MeshModel.Empty: the transform is left unspecified, as the default constructor
  does not set it.
- Floating point: vertex components and matrix entries are reals that are only copied.
  glm::mat4 is its sixteen entries, and no matrix arithmetic is modelled.
- Integer widths: `size_t`, `uint32_t` counts and indices are unbounded naturals. The
  narrowing of `rfind`'s result to `int` is modelled only for npos (→ -1), and paths longer
  than 2^31 are not considered.
- Meshes.LoadMesh and Meshes.LoadNode: they require what the importer guarantees. Mesh
  indices are within the scene, a UV channel covers every vertex, and the material index
  is within matToText, which the source reads unchecked.
- The window (`VulkanWindow.cpp`, `VulkanWindow.h`) and `main.cpp`: event polling and UI.
- Members declared in `VulkanRenderer.h` without an implementation in the source shown:
  `draw`, `updateModel`, `recordCommand`, the swapchain choices, the descriptor and
  uniform set-up, synchronisation and frame-in-flight rotation. There is no code to
  model them from.
