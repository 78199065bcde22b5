# InferusEngine core, modelled in Dafny

InferusEngine is a C++ Vulkan renderer with a terrain component. Below its
Vulkan, VMA and GLFW calls sits a fair amount of plain logic. This project
models that logic and proves what the code promises about it:

- **handle pools** for buffers and images: slot vectors with LIFO free lists, in four revisions that behave differently;
- **buffer allocation policy**: the memory-class plus usage table, and the older per-type switch;
- **device, queue-family and surface-format selection**, both the selector classes and the inlined loops of `InferusRenderer::Init`;
- **frame pacing and swapchain state**: two fenced frame slots, the frame ring, the clamped extent and the swapchain image table;
- **the queue-family ownership transfer** of the terrain upload, with its barrier records;
- **descriptor-set bookkeeping** in both builder revisions;
- **the integer terrain generators**: plane-mesh index buffers, the chunk grid and the "diamond" chunk-link fill;
- **the log formatters**.

Every native call is abstract:

- Creation results are parameters: an `Option` of opaque handles, where handle 0 plays the role of `VK_NULL_HANDLE`.
- Every other native call is an event appended to a trace.
- Memory written by `memcpy` is a ghost map from allocation to bytes.

Fixed-width arithmetic is written out where the code relies on it (`Common.Wrap32`, `Common.AsInt32`, `Common.TruncDiv`).

Modules follow the source files:

- common.dfy, vk.dfy: Common and Vk, the shared vocabulary and the Vulkan and VMA constants;
- buffer_system.dfy: BufferSystemPool, for src/Engine/Renderer/Buffer/BufferSystem.cpp;
- buffer_manager.dfy: BufferManagerPool, for src/RHI/Buffer/BufferManager.cpp;
- gpu_memory.dfy: GpuMemory, for the VMA side shared by the buffer revisions;
- buffer_options.dfy: BufferCreateOptions, for src/RHI/Buffer/BufferCreateOptions.hpp;
- legacy_buffer.dfy: LegacyBuffer, for src/RHI/Buffer.cpp;
- image_types.dfy, image_system.dfy: ImageTypes, ImagePool, for src/Engine/InferusRenderer/Image/ImageSystem.cpp;
- image_system_old.dfy: ImagePoolOld, for src_old/RHI/Image/ImageSystem.cpp;
- device_selector.dfy: DeviceSelection, for src/RHI/Intialization/DeviceSelector.hpp;
- queue_selector.dfy: QueueSelection, for src/RHI/Intialization/QueueSelector.hpp;
- swapchain_selector.dfy: SwapchainSelection, for src/RHI/Intialization/SwapchainSelector.hpp;
- vulkan_context.dfy: VulkanContextModel, for src/RHI/VulkanContext.cpp;
- renderer_selection.dfy: RendererSelection, for the selection loops of InferusRenderer::Init;
- renderer.dfy, renderer_trace.dfy: Renderer, RendererTrace, for the state and calls of InferusRenderer after Init;
- ownership_transfer.dfy: OwnershipTransfer, for InferusRenderer::FullFeedTerrainData;
- barrier_recipes.dfy: BarrierRecipes, for src/RHI/Recipes/BarrierRecipes.cpp;
- barrier_builder.dfy: BarrierBuilding, for src/Renderer/BarrierBuilder.hpp;
- descriptor_types.dfy, descriptor_set_builder.dfy: DescriptorTypes, DescriptorSetBuilding, for src/RHI/Pipeline/Descriptor/DescriptorSetBuilder.cpp;
- descriptor_set_builder_old.dfy: DescriptorSetBuildingOld, for src/RHI/Descriptor/DescriptorSetBuilder.cpp;
- terrain_mesh.dfy: TerrainMesh, for the index layout the three mesh generators share;
- plane_mesh.dfy: PlaneMeshIndicesGenerator, for src/Engine/Components/Terrain/PlaneMeshIndicesGenerator.hpp;
- chunk_indices.dfy: ChunkIndicesGenerator, for src/Apps/MeshApp/Components/ChunkIndicesGenerator.cpp;
- terrain_chunk_data.dfy: TerrainChunkData, for src/Apps/MeshApp/Components/TerrainChunkData.hpp;
- terrain_diamond.dfy: DiamondLayout, for the diamond fill shared by TerrainSystem and ChunkManager;
- terrain_system.dfy: TerrainSystemModel, for src/Engine/Components/Terrain/TerrainSystem.cpp;
- chunk_manager.dfy: ChunkManagerModel, for src/Apps/MeshApp/Components/ChunkManager.cpp;
- log_formatter.dfy: LogFormatting, for src/Utils/LogFormatter.hpp.

Classes stand for the objects whose fields the code updates in place:

- the four pools;
- `InferusRenderer`, `VulkanContext`, `SwapchainSelector` and `BarrierBuilder`;
- both `DescriptorSetBuilder`s, `TerrainSystem` and `ChunkManager`.

Each loop of the source is a method. Its `ensures` ties it to a specification function, and lemmas state what the source promises about that function.

Where the code has a defect, the model keeps the code's behaviour, and a lemma exhibits the defect. The pool defects are of this kind:

- `BufferManager::add` never stores the buffer it creates;
- `BufferSystem::del` never frees the slot;
- `ImageSystem::del` has no guard against a double delete;
- the old `ImageSystem` destroys freed slots a second time.

Other lemmas of this kind:

- the shader-read barrier after an upload's copy names `UNDEFINED` as its old layout;
- `RecreateSwapchain` leaks the image views of entries a shrink drops;
- a second `build` duplicates every binding.

## Model

| member | source | states |
|---|---|---|
| BufferSystemPool.BufferSystem.Init | src/Engine/Renderer/Buffer/BufferSystem.cpp:10-17 | init records the allocator and leaves both the slot vector and the free list empty |
| BufferSystemPool.BufferSystem.Add | src/Engine/Renderer/Buffer/BufferSystem.cpp:25-57 | add changes the table exactly as the add step of the table model does, returns its id or the creation error, records one vmaCreateBuffer call, and writes the new allocation's contents into that slot's memory only |
| BufferSystemPool.AddStoresIntoItsSlotOnly | src/Engine/Renderer/Buffer/BufferSystem.cpp:25-57 | a successful add returns the last free id when there is one and the size of Data otherwise, after which get returns the stored record with the described size; every other slot is unchanged and the table grows by one slot only when the free list was empty |
| BufferSystemPool.FailedAddStillReserves | src/Engine/Renderer/Buffer/BufferSystem.cpp:29-51 | a failed creation throws after the reservation: the free id is popped, or the appended default slot stays behind and get on it fails its assertion |
| BufferSystemPool.BufferSystem.Get | src/Engine/Renderer/Buffer/BufferSystem.cpp:59-67 | get succeeds exactly when the index is in bounds and the slot's buffer is not null, and then returns that slot |
| BufferSystemPool.BufferSystem.Del | src/Engine/Renderer/Buffer/BufferSystem.cpp:69-71 | del leaves the table and the memory unchanged and records one destroy of the slot's buffer when get succeeds |
| BufferSystemPool.DelKeepsSlotReadable | src/Engine/Renderer/Buffer/BufferSystem.cpp:69-71 | after del every get answers as before, and the next id handed out is unchanged |
| BufferSystemPool.FreeListStaysEmpty | src/Engine/Renderer/Buffer/BufferSystem.cpp:29-35 | nothing pushes onto the free list: from an empty free list, any sequence of adds and dels keeps it empty and never shrinks the table |
| BufferSystemPool.IssuedIdsIncrease | src/Engine/Renderer/Buffer/BufferSystem.cpp:29-35 | from an empty free list, the ids handed out by successful adds are fresh slots, strictly increasing, so no id is handed out twice |
| BufferSystemPool.BufferSystem.Destroy | src/Engine/Renderer/Buffer/BufferSystem.cpp:111-113 | destroy records vmaDestroyBuffer exactly when the buffer handle is not null |
| BufferSystemPool.BufferSystem.CopyRecorded | src/Engine/Renderer/Buffer/BufferSystem.cpp:73-79 | the recorded copy succeeds exactly when both gets do, and records one region of the given size at source and destination offset 0 |
| BufferSystemPool.BufferSystem.CopyHost | src/Engine/Renderer/Buffer/BufferSystem.cpp:81-83 | the host copy succeeds exactly when both gets do; then the destination memory takes the first size bytes of the source and the source is mapped; otherwise nothing changes |
| BufferSystemPool.BufferSystem.Upload | src/Engine/Renderer/Buffer/BufferSystem.cpp:95-99 | upload succeeds exactly when get does; then the first size bytes of the slot's memory equal the data, the rest is kept, and map then unmap are recorded; otherwise nothing changes |
| BufferSystemPool.BufferSystem.UploadWhole | src/Engine/Renderer/Buffer/BufferSystem.cpp:85-87 | the two-argument upload writes the slot's recorded size of bytes |
| BufferSystemPool.BufferSystem.StagedUpload | src/Engine/Renderer/Buffer/BufferSystem.cpp:89-93 | a staged upload is a host upload into the staging slot followed by one recorded copy of size bytes at offset 0 into the destination |
| BufferSystemPool.BufferSystem.Destruct | src/Engine/Renderer/Buffer/BufferSystem.cpp:19-23 | the destructor destroys a copy of every slot, in slot order (null slots record nothing) |
| BufferManagerPool.BufferManager.Init | src/RHI/Buffer/BufferManager.cpp:10-15 | init records the allocator and, unlike the newer pool, does not clear the vectors |
| BufferManagerPool.BufferManager.Add | src/RHI/Buffer/BufferManager.cpp:23-50 | add returns the next id (the last free one, else a new slot at the end) whether or not creation succeeds, changes the table only by that reservation, records one vmaCreateBuffer call and leaves every slot's memory as it was |
| BufferManagerPool.EveryGetFails | src/RHI/Buffer/BufferManager.cpp:47-60 | the created buffer is never stored: from a table with no live slot, every sequence of add and del leaves no live slot, so every get fails its assertion |
| BufferManagerPool.FreeListOnlyShrinks | src/RHI/Buffer/BufferManager.cpp:62-64 | nothing pushes onto freeIndices: any run of adds and dels only pops from its end |
| BufferManagerPool.BufferManager.Get | src/RHI/Buffer/BufferManager.cpp:52-60 | get returns the slot exactly when both assertions hold, and fails on a table with no live slot |
| BufferManagerPool.BufferManager.Del | src/RHI/Buffer/BufferManager.cpp:62-64 | del records one destroy of the slot when get succeeds and changes nothing else |
| BufferManagerPool.BufferManager.Destroy | src/RHI/Buffer/BufferManager.cpp:127-129 | destroy records vmaDestroyBuffer exactly when the handle is not null |
| BufferManagerPool.BufferManager.CopyRecorded | src/RHI/Buffer/BufferManager.cpp:66-73 | the recorded copy succeeds exactly when both gets do and records one region of size bytes at offsets 0 and 0 |
| BufferManagerPool.BufferManager.CopyHost | src/RHI/Buffer/BufferManager.cpp:75-78 | the host copy writes the first size bytes of the source into the destination memory when both gets succeed, and changes nothing otherwise |
| BufferManagerPool.BufferManager.Upload | src/RHI/Buffer/BufferManager.cpp:91-96 | upload copies size bytes into the slot's memory and records map then unmap; a failed get changes nothing |
| BufferManagerPool.BufferManager.UploadWhole | src/RHI/Buffer/BufferManager.cpp:80-82 | the two-argument upload writes the record's size of bytes |
| BufferManagerPool.BufferManager.StagedUpload | src/RHI/Buffer/BufferManager.cpp:84-89 | a staged upload is an upload into the staging slot followed by one recorded copy into the destination |
| BufferManagerPool.BufferManager.ImmediateCopy | src/RHI/Buffer/BufferManager.cpp:98-102 | immediateCopy brackets exactly one recorded copy of size bytes between a single-time begin and a submit on the transfer queue; a failed get ends it before the submit |
| BufferManagerPool.BufferManager.ImmediateUpload | src/RHI/Buffer/BufferManager.cpp:104-115 | immediateUpload adds one STAGING_UPLOAD/STAGING buffer of size bytes that is never deleted; on a manager with no live slot the staged upload fails get's assertion and no slot becomes live |
| BufferManagerPool.BufferManager.Destruct | src/RHI/Buffer/BufferManager.cpp:17-21 | the destructor destroys a copy of every slot, in order |
| BufferManagerPool.NothingToDestroy | src/RHI/Buffer/BufferManager.cpp:127-129 | with no live slot the destructor issues no vmaDestroyBuffer at all |
| BufferCreateOptions.CombineKeepsExactlyBothSides | src/RHI/Buffer/BufferCreateOptions.hpp:17-24 | the sum of two options has every vkUsage, vmaFlags and requiredFlags bit of either side and no other, and its vmaUsage is the left side's unless that is UNKNOWN, in which case it is the right side's |
| BufferCreateOptions.CombineUnit | src/RHI/Buffer/BufferCreateOptions.hpp:11-24 | the value-initialised options are a left and right unit of the sum |
| BufferCreateOptions.CombineAssociative | src/RHI/Buffer/BufferCreateOptions.hpp:17-24 | the sum is associative |
| BufferCreateOptions.CombineIsIdempotent | src/RHI/Buffer/BufferCreateOptions.hpp:17-24 | adding the same options twice changes nothing |
| BufferCreateOptions.AllocationComesFromMemoryClass | src/RHI/Buffer/BufferCreateOptions.hpp:101-103 | getBufferOptions(m, u) has the memory-class row's vmaUsage, vmaFlags and requiredFlags, and its vkUsage is that row's plus the usage's own bit |
| BufferCreateOptions.UsageRowsAddOneBit | src/RHI/Buffer/BufferCreateOptions.hpp:61-99 | each usage row carries only its vk usage bit with UNKNOWN memory usage and no flags; that bit is exactly one flag for VERTEX, INDEX, SSBO and UBO and none for STAGING |
| BufferCreateOptions.GpuStaticIsDeviceLocal | src/RHI/Buffer/BufferCreateOptions.hpp:29-35 | every GPU_STATIC option is a transfer destination that requires DEVICE_LOCAL memory, with UNKNOWN memory usage and no VMA flags |
| BufferCreateOptions.HostVisibleRows | src/RHI/Buffer/BufferCreateOptions.hpp:43-57 | STAGING_UPLOAD options are TRANSFER_SRC, AUTO_PREFER_HOST, SEQUENTIAL_WRITE and MAPPED; READBACK options are TRANSFER_DST, AUTO_PREFER_HOST, RANDOM and MAPPED; neither requires memory flags |
| BufferCreateOptions.MappedIffHostClass | src/RHI/Buffer/BufferCreateOptions.hpp:27-59 | exactly the classes other than GPU_STATIC are persistently mapped, each with exactly one host access pattern, and exactly GPU_STATIC requires DEVICE_LOCAL |
| BufferCreateOptions.MemoryTypeOrdinal | src/RHI/Buffer/Buffer.hpp:8-17 | the memory class ordinal indexes the four-row memory table |
| BufferCreateOptions.UsageOrdinal | src/RHI/Buffer/Buffer.hpp:19-25 | the usage ordinal indexes the five-row usage table |
| LegacyBuffer.SwitchAgreesWithTableExceptCpuToGpu | src/RHI/Buffer.cpp:17-34 | the per-type switch gives the same allocation settings as the later options table for every type except CPU_TO_GPU, which prefers device memory in the switch and host memory in the table; the host access flags agree on every type |
| LegacyBuffer.OnlyGpuStaticIsRequiredDeviceLocal | src/RHI/Buffer.cpp:17-34 | only GPU_STATIC requires DEVICE_LOCAL memory and leaves the memory usage UNKNOWN, and every other type is persistently mapped |
| LegacyBuffer.Buffer.Create | src/RHI/Buffer.cpp:5-39 | the constructor fails exactly when VMA fails; otherwise it records size, type and allocator, keeps the created handles and issues one creation with usage 0 and the switch's allocation settings |
| LegacyBuffer.Buffer.Destroy | src/RHI/Buffer.cpp:41-43 | the destructor destroys the buffer only when its handle is not null |
| LegacyBuffer.Buffer.Upload | src/RHI/Buffer.cpp:45-59 | upload makes the first size bytes of the memory equal to the data, keeps the rest, and records map then unmap |
| GpuMemory.Memcpy | src/RHI/Buffer.cpp:47 | memcpy keeps the destination's length, takes the first size bytes from the source and keeps the rest |
| GpuMemory.MemcpyIdempotent | src/RHI/Buffer.cpp:47 | copying the same bytes twice is the same as copying them once |
| GpuMemory.MemcpyWhole | src/RHI/Buffer.cpp:47 | a memcpy over the whole buffer replaces its contents |
| GpuMemory.Reserve | src/RHI/Buffer/BufferManager.cpp:27-33 | the reservation step of add pops the last free id when there is one and appends a default slot otherwise |
| GpuMemory.CheckedGet | src/RHI/Buffer/BufferManager.cpp:52-60 | get succeeds exactly when the index is in range and the slot's buffer is not null, and returns that slot; otherwise it fails its assertion |
| GpuMemory.DestroyCallsSkipNull | src/RHI/Buffer/BufferManager.cpp:127-129 | the destructor's calls destroy only non-null buffers, each with the pool's allocator |
| GpuMemory.DestroyCallsCoverLive | src/RHI/Buffer/BufferManager.cpp:17-21 | every slot with a non-null buffer is destroyed by the destructor |
| GpuMemory.DestroyCallsCount | src/RHI/Buffer/BufferManager.cpp:17-21 | the destructor issues one destroy per live slot, no more than there are slots |
| ImageTypes.RequestFor | src/Engine/InferusRenderer/Image/ImageSystem.cpp:35-51 | the image request is 2D, one deep with one mip level, undefined initial layout, VMA auto memory and usage TRANSFER_DST or SAMPLED, taking only extent, layer count and format from the description |
| ImageTypes.UsageIsIgnored | src/Engine/InferusRenderer/Image/ImageSystem.cpp:45 | two descriptions that differ only in usage ask for the same image |
| ImageTypes.ViewRequestFor | src/Engine/InferusRenderer/Image/ImageSystem.cpp:55-70 | the view is over the created image in the description's format, for the colour aspect, mip 0 only and every array layer |
| ImagePool.ImageSystem.Create | src/Engine/InferusRenderer/Image/ImageSystem.cpp:7-15 | create records the device and allocator and clears both vectors |
| ImagePool.ImageSystem.Destroy | src/Engine/InferusRenderer/Image/ImageSystem.cpp:17-21 | destroy() destroys a copy of every slot in order, so the slots keep their handles |
| ImagePool.DestroyAllCallsPerSlot | src/Engine/InferusRenderer/Image/ImageSystem.cpp:17-21 | destroy() issues two calls per slot, the view destroy then the image destroy of slot k at positions 2k and 2k+1, whatever the slot holds |
| ImagePool.ImageSystem.Add | src/Engine/InferusRenderer/Image/ImageSystem.cpp:23-83 | add returns the next id (a new slot at the end when the free list is empty, else the last free id), stores the record there and records the image and view creation calls |
| ImagePool.AddToTable | src/Engine/InferusRenderer/Image/ImageSystem.cpp:27-33 | the slot handed out holds the stored record, and the table grows by one slot exactly when the free list was empty |
| ImagePool.AddStoresIntoItsSlotOnly | src/Engine/InferusRenderer/Image/ImageSystem.cpp:72-81 | the record in the handed-out slot has the created image and view and an undefined layout, no other slot changes, a new slot is at index equal to the size of Data and a reused id is popped from the end of the free list |
| ImagePool.ImageSystem.Get | src/Engine/InferusRenderer/Image/ImageSystem.cpp:85-87 | get returns the slot with no liveness check |
| ImagePool.ImageSystem.DestroyAt | src/Engine/InferusRenderer/Image/ImageSystem.cpp:101-106 | destroy(Image&) destroys the view and the image and nulls both handles in the slot itself, leaving the rest of the table |
| ImagePool.ImageSystem.Del | src/Engine/InferusRenderer/Image/ImageSystem.cpp:89-92 | del destroys the slot in place and pushes the id, whether or not it was already free |
| ImagePool.DelNullsHandlesAndFrees | src/Engine/InferusRenderer/Image/ImageSystem.cpp:89-92 | after del the slot's image and view are null, its allocation and fields are kept, other slots are unchanged and the next add returns that id |
| ImagePool.DoubleDelAliasesTwoAdds | src/Engine/InferusRenderer/Image/ImageSystem.cpp:27-33 | deleting an id twice makes the next two adds both return it, and the second record replaces the first |
| ImagePoolOld.ImageSystem.Init | src_old/RHI/Image/ImageSystem.cpp:6-14 | init records the device and allocator and clears both vectors |
| ImagePoolOld.ImageSystem.Destruct | src_old/RHI/Image/ImageSystem.cpp:16-20 | the destructor destroys every slot in order, freed ones included |
| ImagePoolOld.ImageSystem.Add | src_old/RHI/Image/ImageSystem.cpp:22-82 | add returns the next id (a new slot at the end when the free list is empty, else the last free index), stores the record there and records the image and view creation calls |
| ImagePoolOld.AddToTable | src_old/RHI/Image/ImageSystem.cpp:26-32 | the slot handed out holds the stored record, and the table grows by one slot exactly when the free list was empty |
| ImagePoolOld.AddStoresIntoItsSlotOnly | src_old/RHI/Image/ImageSystem.cpp:71-80 | the handed-out slot holds the created image and view and the description's layers and format, no other slot changes, and a new slot is at index equal to the size of data |
| ImagePoolOld.ImageSystem.Get | src_old/RHI/Image/ImageSystem.cpp:84-86 | get returns the slot, unchecked |
| ImagePoolOld.ImageSystem.Destroy | src_old/RHI/Image/ImageSystem.cpp:100-103 | destroy(Image) destroys the view and the image of a copy |
| ImagePoolOld.ImageSystem.Del | src_old/RHI/Image/ImageSystem.cpp:88-91 | del destroys a copy of the slot and pushes its index |
| ImagePoolOld.DelKeepsHandles | src_old/RHI/Image/ImageSystem.cpp:88-91 | after del the slots are exactly as before, so the freed slot still holds its non-null handles, and the next add returns that index |
| ImagePoolOld.FreedSlotDestroyedTwice | src_old/RHI/Image/ImageSystem.cpp:16-20 | a slot freed by del and never reused is destroyed again by the destructor: its vmaDestroyImage occurs twice in del's and the destructor's calls together |
| ImagePoolOld.DestroyAllOccurrences | src_old/RHI/Image/ImageSystem.cpp:16-20 | the destructor destroys each slot's image exactly once when no other slot shares it |
| DeviceSelection.ContainsName | src/RHI/Intialization/DeviceSelector.hpp:66-71 | the inner search loop finds a name exactly when it is among the available extension names |
| DeviceSelection.AllFound | src/RHI/Intialization/DeviceSelector.hpp:64-76 | the outer loop passes exactly when every required name is available |
| DeviceSelection.TypeBonus | src/RHI/Intialization/DeviceSelector.hpp:86-90 | the type bonus is 1000 exactly for a discrete GPU and otherwise 100 or 0 |
| DeviceSelection.EvaluateDevice | src/RHI/Intialization/DeviceSelector.hpp:54-95 | the score always fits the int32 it is stored in |
| DeviceSelection.EvaluateDeviceMeaning | src/RHI/Intialization/DeviceSelector.hpp:63-94 | below the wrap-around range, the score is -1 exactly when some required extension is missing, and otherwise it is the type bonus plus maxImageDimension2D, which is non-negative |
| DeviceSelection.HugeLimitWrapsNegative | src/RHI/Intialization/DeviceSelector.hpp:92 | a maxImageDimension2D of 2^31 or more wraps a fully capable device's int32 score below zero |
| DeviceSelection.PickListExact | src/RHI/Intialization/DeviceSelector.hpp:21-28 | the pick list holds exactly the enumerated devices scoring at least 0, each paired with its score |
| DeviceSelection.PickListSound | src/RHI/Intialization/DeviceSelector.hpp:23-28 | every pick is an enumerated device paired with its own non-negative score |
| DeviceSelection.PickListComplete | src/RHI/Intialization/DeviceSelector.hpp:23-28 | every device scoring at least 0 is in the pick list |
| DeviceSelection.CollectPicks | src/RHI/Intialization/DeviceSelector.hpp:21-28 | the collection loop builds exactly the pick list |
| DeviceSelection.HighestPick | src/RHI/Intialization/DeviceSelector.hpp:34-40 | the front after the descending sort is a pick whose score no other pick exceeds |
| DeviceSelection.SelectPhysicalDevice | src/RHI/Intialization/DeviceSelector.hpp:15-51 | selection fails exactly when no device scores at least 0, and otherwise returns a device with a maximal score, the tie winner left open |
| DeviceSelection.MissingExtensionNeverChosen | src/RHI/Intialization/DeviceSelector.hpp:73-75 | a device missing a required extension is never the chosen device |
| DeviceSelection.DiscreteBeatsNearIntegrated | src/RHI/Intialization/DeviceSelector.hpp:86-92 | a capable discrete GPU outscores a capable integrated one whose 2D limit is less than 900 above its own |
| QueueSelection.StartCriteria | src/RHI/Intialization/QueueSelector.hpp:61-66 | startCriteria(ctx, families) gives default criteria (no flags, no uniqueness contexts, no surface requirement, null device and surface) aimed at ctx over the given families |
| QueueSelection.StartFrom | src/RHI/Intialization/QueueSelector.hpp:68-72 | startCriteria(base, ctx) copies base with only the target replaced |
| QueueSelection.DesireExclusivenessAgainst | src/RHI/Intialization/QueueSelector.hpp:96-99 | desireExclusivenessAgainst appends one context after those already listed and changes nothing else |
| QueueSelection.ClearExclusiveness | src/RHI/Intialization/QueueSelector.hpp:101-104 | clearExclusiveness empties the uniqueness list and keeps every other criterion |
| QueueSelection.ClearForgetsDesired | src/RHI/Intialization/QueueSelector.hpp:96-104 | clearing after a desired context gives the same criteria as clearing before it |
| QueueSelection.FlagsAccumulate | src/RHI/Intialization/QueueSelector.hpp:79-87 | required and avoided flags accumulate by OR: adding in two steps is adding the union |
| QueueSelection.SurfaceQueryUsesMembers | src/RHI/Intialization/QueueSelector.hpp:89-94 | requireSurfaceSupport only sets the boolean: its assignments are self-assignments of the parameters, so the member device and surface stay as they were |
| QueueSelection.IndicesOf | src/RHI/Intialization/QueueSelector.hpp:129-136 | the indices the uniqueness loop reads are the listed contexts' current indices, in order |
| QueueSelection.DistinctFrom | src/RHI/Intialization/QueueSelector.hpp:129-136 | the number of listed contexts counted by the uniqueness loop is at most their number |
| QueueSelection.DistinctFromCounts | src/RHI/Intialization/QueueSelector.hpp:129-136 | every listed context is counted exactly when all of them are elsewhere and not -1, and none is counted exactly when each one is the candidate or -1 |
| QueueSelection.AvoidanceBonus | src/RHI/Intialization/QueueSelector.hpp:124-127 | the avoidance bonus is 100 or 0 |
| QueueSelection.Score | src/RHI/Intialization/QueueSelector.hpp:113-139 | evaluateQueue is -1 exactly when the family lacks required surface support or a required flag, and otherwise the avoidance bonus plus 10 per listed context whose index is neither the candidate nor -1 |
| QueueSelection.ScoreBounds | src/RHI/Intialization/QueueSelector.hpp:113-139 | a score lies between -1 and 100 plus ten per listed context, and an accepted family scores at least its avoidance bonus |
| QueueSelection.ClearedScoreIsAvoidanceOnly | src/RHI/Intialization/QueueSelector.hpp:101-104 | with the uniqueness list cleared, a family scores -1 when rejected and otherwise only its avoidance bonus |
| QueueSelection.AvoidanceDominates | src/RHI/Intialization/QueueSelector.hpp:124-136 | with fewer than ten listed contexts, when some accepted family has none of the avoided flags, the best family has none of them either |
| QueueSelection.ChooseFamily | src/RHI/Intialization/QueueSelector.hpp:38-56 | the scoring part of select fails exactly when every family scores below 0, and otherwise picks a family with a maximal score, the tie winner left open |
| QueueSelection.Select | src/RHI/Intialization/QueueSelector.hpp:37-59 | select throws exactly when every family scores below 0 (each is rejected), leaving the target's index; otherwise it writes a best family into the target's index and changes nothing else in the target |
| SwapchainSelection.SwapchainSelector.Start | src/RHI/Intialization/SwapchainSelector.hpp:31-39 | start records the device and surface and leaves every list empty |
| SwapchainSelection.SwapchainSelector.AddPreferableFormat | src/RHI/Intialization/SwapchainSelector.hpp:41-44 | a preferred format is appended after those already given |
| SwapchainSelection.SwapchainSelector.AddPreferableColorSpace | src/RHI/Intialization/SwapchainSelector.hpp:46-49 | a preferred colour space is appended after those already given |
| SwapchainSelection.SwapchainSelector.AddPreferableMode | src/RHI/Intialization/SwapchainSelector.hpp:51-54 | a preferred present mode is appended after those already given |
| SwapchainSelection.ScoreBy | src/RHI/Intialization/SwapchainSelector.hpp:78-94 | one call of a scoring lambda adds the bonus, modulo 2^32, to exactly the entries whose key is the target |
| SwapchainSelection.ScoreByStep | src/RHI/Intialization/SwapchainSelector.hpp:78-99 | one lambda call at position i turns the score against the first i preferences into the score against the first i+1 |
| SwapchainSelection.ScoreAll | src/RHI/Intialization/SwapchainSelector.hpp:96-104 | a scoring loop adds, modulo 2^32, the sum of 1000 minus i over every preference at position i equal to the entry's key |
| SwapchainSelection.MatchScoreOfDistinct | src/RHI/Intialization/SwapchainSelector.hpp:78-99 | with no repeated preference a match scores 1000 minus its position and a miss scores 0 |
| SwapchainSelection.SwapchainSelector.PickSurfaceFormat | src/RHI/Intialization/SwapchainSelector.hpp:56-124 | pickSurfaceFormat throws exactly when the surface reports no formats, and otherwise returns a format whose score (format matches plus colour space matches) is maximal, the tie winner left open |
| SwapchainSelection.FirstPreferencesWin | src/RHI/Intialization/SwapchainSelector.hpp:78-114 | with at most 1000 distinct preferences of each kind, the pair of the first preferred format and colour space, when offered, is the only pair that can be picked |
| SwapchainSelection.FirstPreferredAvailable | src/RHI/Intialization/SwapchainSelector.hpp:136-149 | the chosen mode is available; it is the first preferred mode, in preference order, that is available, and the first available mode when none is |
| SwapchainSelection.FirstPreferredPastMissing | src/RHI/Intialization/SwapchainSelector.hpp:136-142 | an unavailable first preference passes the choice on to the rest of the list |
| SwapchainSelection.FirstMatchIsChoice | src/RHI/Intialization/SwapchainSelector.hpp:136-142 | the first available preference found by the nested loops is the choice |
| SwapchainSelection.SwapchainSelector.PickPresentationMode | src/RHI/Intialization/SwapchainSelector.hpp:126-150 | pickPresentationMode throws exactly when there are no modes, otherwise returns the first-match choice, and its fallback warning never fires |
| SwapchainSelection.IndexOf | src/RHI/Intialization/SwapchainSelector.hpp:82 | the position used for a match bonus is that of the first occurrence |
| VulkanContextModel.RoleCriteriaFields | src/RHI/VulkanContext.cpp:69-95 | the base criteria are exclusive against graphics, present, transfer and compute in that order; present requires surface support with its exclusiveness cleared and queries the null device and surface; graphics requires GRAPHICS; transfer requires TRANSFER and avoids GRAPHICS and COMPUTE; compute requires COMPUTE and avoids GRAPHICS and TRANSFER; each targets its own context |
| VulkanContextModel.Pick | src/RHI/VulkanContext.cpp:76-95 | one role's select writes a best family for the indices its exclusiveness list showed, or reports that no family fits |
| VulkanContextModel.VulkanContext.SelectQueues | src/RHI/VulkanContext.cpp:69-95 | roles are selected in the order present, graphics, transfer, compute, each scored against the indices already written by the roles before it and the original ones of the roles after it; the first role with no fitting family throws |
| VulkanContextModel.InsertOrdered | src/RHI/VulkanContext.cpp:105-110 | inserting into the ordered set keeps it strictly increasing and adds exactly the new element |
| VulkanContextModel.OrderedSetOf | src/RHI/VulkanContext.cpp:105-110 | the std::set of the four indices iterates over exactly their distinct values, in ascending order |
| VulkanContextModel.OrderedSetHasNoRepeats | src/RHI/VulkanContext.cpp:105-110 | the ordered set has no repeated family |
| VulkanContextModel.VulkanContext.QueueCreateInfos | src/RHI/VulkanContext.cpp:104-120 | there is one create info with one queue per distinct family index among the four contexts, in ascending order |
| VulkanContextModel.VulkanContext.FillQueueContexts | src/RHI/VulkanContext.cpp:163-179 | in the order graphics, present, transfer, compute, each context gets queue 0 of its family and then a resettable command pool, and the calls are exactly these pairs; the fill succeeds exactly when every pool is created; when pool k fails, the calls stop after its pair, contexts before k are filled, context k has its queue but its old pool, later contexts are untouched; the indices are kept |
| VulkanContextModel.VulkanContext.SingleTimeCmdBegin | src/RHI/VulkanContext.cpp:199-215 | singleTimeCmdBegin allocates one primary buffer from the context's pool and begins it for one-time submission |
| VulkanContextModel.VulkanContext.SingleTimeCmdSubmit | src/RHI/VulkanContext.cpp:217-229 | singleTimeCmdSubmit ends the buffer, submits it without a fence, waits for the queue to go idle and frees it |
| VulkanContextModel.SingleTimeSubmitWaitsBeforeFree | src/RHI/VulkanContext.cpp:217-229 | the only submission carries no fence and exactly the one buffer, and is followed by an idle wait on the same queue and then the free |
| VulkanContextModel.VulkanContext.FillContext | src/RHI/VulkanContext.cpp:172-177 | one turn of the loop: the context's queue, then its pool, stored only when created, with the two calls in that order |
| VulkanContextModel.FirstMissing | src/RHI/VulkanContext.cpp:174-176 | the first failing pool creation: every earlier one succeeded and this one failed, or none failed |
| VulkanContextModel.FillCallsAt | src/RHI/VulkanContext.cpp:172-177 | turn k of the loop issues the queue query and then the pool creation of context k |
| RendererSelection.PickKingOfTheHill | src/Engine/InferusRenderer/InferusRenderer.cpp:69-122 | Init fails with no valid physical device exactly when every device scores below zero; otherwise the chosen device scores at least zero and no earlier device scores as much and no later device scores more |
| RendererSelection.MissingExtensionNeverKing | src/Engine/InferusRenderer/InferusRenderer.cpp:96-116 | a device missing one of the required extensions never holds the hill when some valid device exists |
| RendererSelection.InitialPicks | src/Engine/InferusRenderer/InferusRenderer.cpp:152-184 | every queue request starts at LatestScore -1 with whatever index its context already held |
| RendererSelection.BaseScore | src/Engine/InferusRenderer/InferusRenderer.cpp:199-216 | a family's own score is between 0 and 1100 and is at least 1000 for the present request |
| RendererSelection.Uniqueness | src/Engine/InferusRenderer/InferusRenderer.cpp:218-225 | the uniqueness term of the Req2 loop is never negative |
| RendererSelection.FamilyScore | src/Engine/InferusRenderer/InferusRenderer.cpp:199-225 | the score of a qualifying family is never negative |
| RendererSelection.ScanFamilies | src/Engine/InferusRenderer/InferusRenderer.cpp:196-231 | one request's pass over the families keeps the number of picks and changes no other request's pick |
| RendererSelection.ScanRequests | src/Engine/InferusRenderer/InferusRenderer.cpp:191-232 | after the first m requests have scanned, the picks of the later requests are still their initial ones |
| RendererSelection.ScanFamiliesPicksQualifying | src/Engine/InferusRenderer/InferusRenderer.cpp:196-231 | a request that starts unpicked ends picked exactly when some family qualifies for it, and then on a qualifying family; unpicked means unchanged |
| RendererSelection.ScanRequestsPicksQualifying | src/Engine/InferusRenderer/InferusRenderer.cpp:191-232 | after every request has scanned, each one is picked exactly when a family qualifies for it, and its family then qualifies |
| RendererSelection.UniquenessBonus | src/Engine/InferusRenderer/InferusRenderer.cpp:218-225 | the Req2 loop with its early break on an unpicked request computes the uniqueness term |
| RendererSelection.ScanRequest | src/Engine/InferusRenderer/InferusRenderer.cpp:196-231 | the loop over family indices computes one request's pass |
| RendererSelection.SelectQueueFamilies | src/Engine/InferusRenderer/InferusRenderer.cpp:191-239 | Init fails because a queue missed its criteria exactly when some request has no qualifying family; otherwise every request's family qualifies for it |
| RendererSelection.UniquenessIgnoresSelf | src/Engine/InferusRenderer/InferusRenderer.cpp:218-225 | with the request itself skipped, the uniqueness term depends only on the other requests' picks |
| RendererSelection.FirstBestPastSkipped | src/Engine/InferusRenderer/InferusRenderer.cpp:200-212 | a family that fails the present or required-flag test does not change the first best family |
| RendererSelection.FirstBestPastLower | src/Engine/InferusRenderer/InferusRenderer.cpp:227-230 | a qualifying family scoring no more than the current pick leaves the first best as it was |
| RendererSelection.FirstBestAtNew | src/Engine/InferusRenderer/InferusRenderer.cpp:227-230 | a qualifying family scoring more than all earlier ones becomes the first best |
| RendererSelection.CorrectedScanPicksFirstBest | src/Engine/InferusRenderer/InferusRenderer.cpp:196-231 | with the request itself left out of the Req2 loop, a scan picks the lowest-indexed family of highest score, or none when no family qualifies |
| RendererSelection.CorrectedScanStep | src/Engine/InferusRenderer/InferusRenderer.cpp:196-231 | each further family keeps the first-best property of the corrected scan |
| RendererSelection.SelfComparisonChangesPick | src/Engine/InferusRenderer/InferusRenderer.cpp:218-225 | with two graphics families the code as written picks the second at 1100 while skipping the request itself picks the first at 100, so the as-written pick is not the first best |
| RendererSelection.FirstAppearances | src/Engine/InferusRenderer/InferusRenderer.cpp:250-269 | the family list without repeats holds exactly the families asked for and is no longer than the request list |
| RendererSelection.FirstAppearancesOfDistinct | src/Engine/InferusRenderer/InferusRenderer.cpp:250-269 | four distinct families give four create infos in Graphics, Present, Transfer, Compute order |
| RendererSelection.FirstAppearancesStartsWithFirst | src/Engine/InferusRenderer/InferusRenderer.cpp:250-269 | the graphics family always heads the create info list |
| RendererSelection.QueueCreateInfos | src/Engine/InferusRenderer/InferusRenderer.cpp:250-269 | one create info with one queue for each distinct family, in order of first appearance |
| RendererSelection.CreateInfosFor | src/Engine/InferusRenderer/InferusRenderer.cpp:250-269 | the outer loop over any list of indices gives one single-queue info per distinct family in first-appearance order |
| RendererSelection.HasNoInfoFor | src/Engine/InferusRenderer/InferusRenderer.cpp:251-257 | the inner loop reports unique exactly when no create info so far is for that family |
| RendererSelection.PickSurfaceFormat | src/Engine/InferusRenderer/InferusRenderer.cpp:341-363 | the format is B8G8R8A8_SRGB with SRGB_NONLINEAR exactly when the surface lists that pair; otherwise it is the first listed format |
| RendererSelection.PickPresentMode | src/Engine/InferusRenderer/InferusRenderer.cpp:365-388 | the present mode is the first of mailbox, FIFO, immediate that the surface offers, otherwise the first listed mode |
| RendererSelection.TierListOrder | src/Engine/InferusRenderer/InferusRenderer.cpp:366-368 | mailbox is chosen whenever offered, and FIFO whenever offered without mailbox |
| RendererSelection.SwapchainImageCount | src/Engine/InferusRenderer/InferusRenderer.cpp:392 | the image count is the surface minimum plus one, wrapping to 0 in uint32 at the maximum |
| RendererSelection.SharingFor | src/Engine/InferusRenderer/InferusRenderer.cpp:407-416 | sharing is concurrent over graphics and present exactly when they differ, exclusive with no indices otherwise |
| RendererSelection.SharingCoversBothQueues | src/Engine/InferusRenderer/InferusRenderer.cpp:407-416 | either both queue families are listed without repeats or they are the same family |
| Renderer.InferusRenderer.constructor | src/Engine/InferusRenderer/InferusRenderer.cpp:429-457 | Init up to, but without, its swapchain creation at line 420: one frame per slot with its fence created signalled, frame 0 next, the chosen queues, the extent in the scissor and render area, no fence left reset, and no swapchain yet; Init is this constructor followed by RecreateSwapchain with a null old swapchain |
| Renderer.InferusRenderer.Render | src/Engine/InferusRenderer/InferusRenderer.cpp:974-1078 | Render waits on the target frame's fence and acquires; when out of date it returns with the slot unchanged, otherwise it resets, records, submits signalling that fence, presents and advances the slot modulo MAX_FRAMES_IN_FLIGHT, keeping the fence rules; a state with no fence left reset, which the constructor starts in, is kept, so the fence each Render waits on is never the reset one |
| Renderer.InferusRenderer.SubmitFrame | src/Engine/InferusRenderer/InferusRenderer.cpp:992-1075 | after the acquire, the frame's fence goes from signalled to in flight and the recording, submit and present calls are appended |
| Renderer.InferusRenderer.RecordFrameCommands | src/Engine/InferusRenderer/InferusRenderer.cpp:992-1063 | the frame's buffer is begun, its fence reset and the frame recorded, leaving that fence reset |
| Renderer.InferusRenderer.SubmitAndPresent | src/Engine/InferusRenderer/InferusRenderer.cpp:1065-1075 | the submit signalling the frame's fence is followed by the present waiting on the image's render-finished semaphore; the fence is then in flight |
| Renderer.InferusRenderer.InFlightBound | src/Engine/InferusRenderer/InferusRenderer.cpp:1074-1077 | between calls at most MAX_FRAMES_IN_FLIGHT frame submissions are unretired, at most one per slot and none for a slot whose fence is not in flight |
| Renderer.InferusRenderer.Resize | src/Engine/InferusRenderer/InferusRenderer.cpp:880-896 | a zero width or height changes nothing; otherwise the extent is each axis clamped into the surface limits, the scissor and render area take it, and the swapchain is recreated from the current one |
| Renderer.InferusRenderer.RecreateSwapchain | src/Engine/InferusRenderer/InferusRenderer.cpp:833-863 | wait idle and create the swapchain from the old one, failing with nothing else changed; otherwise the table is resized to the new image count, cleaned, refilled and the old swapchain destroyed, failing at the first view or semaphore that is not created |
| Renderer.InferusRenderer.InstallSwapchain | src/Engine/InferusRenderer/InferusRenderer.cpp:843-862 | once created, the new swapchain is kept, the table takes the new size, and the result is success exactly when every view and semaphore is created, in which case each entry holds its image, view and semaphore |
| Renderer.InferusRenderer.CreateImageEntries | src/Engine/InferusRenderer/InferusRenderer.cpp:851-861 | the image loop stops at the first failed creation and succeeds exactly when all were created, filling every entry |
| Renderer.InferusRenderer.CreateImageEntry | src/Engine/InferusRenderer/InferusRenderer.cpp:852-860 | one turn stores the image and creates its view, and its semaphore only when the view was created; no other entry changes |
| Renderer.InferusRenderer.CleanupSwapchainImages | src/Engine/InferusRenderer/InferusRenderer.cpp:869-874 | every non-null view and semaphore of the table is destroyed, the table itself kept |
| Renderer.InferusRenderer.CleanupEntry | src/Engine/InferusRenderer/InferusRenderer.cpp:870-873 | one entry's non-null view is destroyed, then its non-null semaphore |
| Renderer.InferusRenderer.SingleTimeCmdBegin | src/Engine/InferusRenderer/InferusRenderer.cpp:1080-1096 | one primary buffer is allocated from the queue's pool and begun for one submission |
| Renderer.InferusRenderer.SingleTimeCmdSubmit | src/Engine/InferusRenderer/InferusRenderer.cpp:1098-1110 | the buffer is ended, submitted without a fence, the queue waited idle and the buffer freed |
| Renderer.InferusRenderer.FullFeedTerrainData | src/Engine/InferusRenderer/InferusRenderer.cpp:898-972 | the feed appends the transfer-queue upload ending in the release and then the graphics-queue acquire, leaving the frame fences untouched |
| Renderer.InferusRenderer.FeedTransferHalf | src/Engine/InferusRenderer/InferusRenderer.cpp:899-950 | the transfer half: both uploads, the copy between its two barriers, the release, the submit |
| Renderer.InferusRenderer.FeedAcquireHalf | src/Engine/InferusRenderer/InferusRenderer.cpp:952-971 | the graphics half: a buffer from the graphics pool holding the acquire barrier, submitted to the graphics queue |
| Renderer.CreationCallsSplit | src/Engine/InferusRenderer/InferusRenderer.cpp:851-861 | the calls of the image loop split at any point before which every creation succeeded |
| Renderer.CreationCallsExtend | src/Engine/InferusRenderer/InferusRenderer.cpp:855-860 | one more turn adds its view creation, then its semaphore creation when the view exists, and the loop continues only when both exist |
| Renderer.CreationCallsDestroyNothing | src/Engine/InferusRenderer/InferusRenderer.cpp:851-861 | the image loop destroys no view |
| Renderer.RecreateLeaksDroppedViews | src/Engine/InferusRenderer/InferusRenderer.cpp:846-848 | a recreation with fewer images than before never destroys the views of the dropped entries |
| RendererTrace.Lift | src/Engine/InferusRenderer/InferusRenderer.cpp:1080-1110 | the single-time helpers' calls carry over one to one and touch no frame fence |
| RendererTrace.FenceAfterAppend | src/Engine/InferusRenderer/InferusRenderer.cpp:978-1074 | a fence's state after one more call is the fence rule applied to its state before |
| RendererTrace.FencesAfterOther | src/Engine/InferusRenderer/InferusRenderer.cpp:978-1074 | calls other than a frame fence's wait, reset or submission leave every fence as it was |
| RendererTrace.FencesAfterStep | src/Engine/InferusRenderer/InferusRenderer.cpp:978-1074 | an allowed wait, reset or submission on one slot moves that slot's fence alone |
| RendererTrace.UnretiredMatchesFence | src/Engine/InferusRenderer/InferusRenderer.cpp:978-1074 | in a trace that keeps the fence rules a slot has one unretired submission exactly while its fence is in flight, and never more than one |
| RendererTrace.FramesInFlightBound | src/Engine/InferusRenderer/InferusRenderer.hpp:87-88 | with both frame fences kept by the rules, at most MAX_FRAMES_IN_FLIGHT frame submissions are unretired |
| RendererTrace.Resized | src/Engine/InferusRenderer/InferusRenderer.cpp:846 | resizing the image table truncates it or pads it with empty entries, keeping the entries that stay |
| RendererTrace.CleanupCallsAt | src/Engine/InferusRenderer/InferusRenderer.cpp:870-873 | the cleanup of a table suffix is its first entry's calls followed by the rest's |
| RendererTrace.CleanupDestroysExactlyHeldViews | src/Engine/InferusRenderer/InferusRenderer.cpp:869-874 | the cleanup destroys a non-null view exactly when some entry holds it |
| RendererTrace.ShrinkLeavesDroppedViews | src/Engine/InferusRenderer/InferusRenderer.cpp:846-848 | resizing down before the cleanup means a dropped entry's view is never destroyed |
| RendererTrace.GrowthCleansEveryView | src/Engine/InferusRenderer/InferusRenderer.cpp:846-848 | when the table does not shrink, every view it held is destroyed |
| OwnershipTransfer.UploadRecording | src/Engine/InferusRenderer/InferusRenderer.cpp:901-948 | the transfer buffer's recording touches no frame fence |
| OwnershipTransfer.ReleaseAndAcquireMatch | src/Engine/InferusRenderer/InferusRenderer.cpp:933-959 | the release and acquire barriers form one queue family transfer from the transfer family to the graphics family into shader-read layout, with the layouts and access masks of the BarrierRecipes stand-ins |
| OwnershipTransfer.FeedIsReleaseThenAcquire | src/Engine/InferusRenderer/InferusRenderer.cpp:898-972 | the feed has 18 calls: the copy runs in the layout the stand-in TransferDest barrier sets, the release is recorded and submitted on the transfer queue, which is waited idle before the graphics buffer is allocated and the acquire recorded and submitted on the graphics queue |
| OwnershipTransfer.ReleaseForgetsCopyLayout | src/Engine/InferusRenderer/InferusRenderer.cpp:933-948 | with the BarrierRecipes stand-ins, the release starts from the undefined layout although the copy left the image in transfer-destination layout |
| BarrierBuilding.OnImageBarrier | src/Renderer/BarrierBuilder.hpp:13-30 | onImage's barrier has the given image and layouts, ignored queue families on both sides and no access |
| BarrierBuilding.DefaultRangeIsOneSubresource | src/Renderer/BarrierBuilder.hpp:23-27 | the default range reaches exactly one subresource, mip level 0 of layer 0 |
| BarrierBuilding.BarrierBuilder.OnImage | src/Renderer/BarrierBuilder.hpp:9-30 | a new builder holds the onImage barrier with both stages at ALL_COMMANDS |
| BarrierBuilding.BarrierBuilder.Access | src/Renderer/BarrierBuilder.hpp:32-36 | access sets the two access masks and nothing else |
| BarrierBuilding.BarrierBuilder.Queues | src/Renderer/BarrierBuilder.hpp:38-42 | queues copies the two contexts' family indices and nothing else |
| BarrierBuilding.BarrierBuilder.Stages | src/Renderer/BarrierBuilder.hpp:44-48 | stages sets both stages and leaves the barrier alone |
| BarrierBuilding.BarrierBuilder.BaseMipLevel | src/Renderer/BarrierBuilder.hpp:50-53 | baseMipLevel sets that range field only |
| BarrierBuilding.BarrierBuilder.AspectMask | src/Renderer/BarrierBuilder.hpp:55-58 | aspectMask sets that range field only |
| BarrierBuilding.BarrierBuilder.LevelCount | src/Renderer/BarrierBuilder.hpp:60-63 | levelCount sets that range field only |
| BarrierBuilding.BarrierBuilder.BaseArrayLayer | src/Renderer/BarrierBuilder.hpp:65-68 | baseArrayLayer sets that range field only |
| BarrierBuilding.BarrierBuilder.LayerCount | src/Renderer/BarrierBuilder.hpp:70-73 | layerCount sets that range field only |
| BarrierBuilding.BarrierBuilder.Record | src/Renderer/BarrierBuilder.hpp:75-85 | record issues one pipeline barrier with the current stages and barrier |
| BarrierRecipes.Default | src/RHI/Recipes/BarrierRecipes.cpp:4-23 | Default keeps the image's layout on both sides, no access, no ownership transfer, colour aspect, and covers exactly the image's mip levels and layers |
| BarrierRecipes.TransferDest | src/RHI/Recipes/BarrierRecipes.cpp:25-33 | TransferDest goes from undefined to transfer-destination with no source access and transfer-write destination access |
| BarrierRecipes.ShaderRead | src/RHI/Recipes/BarrierRecipes.cpp:35-43 | ShaderRead goes from undefined to shader-read-only, from transfer writes to shader reads |
| BarrierRecipes.RecipesKeepDefault | src/RHI/Recipes/BarrierRecipes.cpp:25-43 | both recipes keep Default's image, queue families and whole-image range |
| BarrierRecipes.ShaderReadDoesNotChainFromTransferDest | src/RHI/Recipes/BarrierRecipes.cpp:35-38 | ShaderRead starts from undefined rather than from the layout TransferDest leaves |
| DescriptorSetBuilding.TallyStep | src/RHI/Pipeline/Descriptor/DescriptorSetBuilder.cpp:80-86 | counting one more config's type is one increment of the pool-size map |
| DescriptorSetBuilding.BumpCounts | src/RHI/Pipeline/Descriptor/DescriptorSetBuilder.cpp:82 | an increment raises the count of that type by one and leaves every other type's count |
| DescriptorSetBuilding.BumpTotal | src/RHI/Pipeline/Descriptor/DescriptorSetBuilder.cpp:82 | an increment raises the total descriptor count by one |
| DescriptorSetBuilding.BumpTypes | src/RHI/Pipeline/Descriptor/DescriptorSetBuilder.cpp:82 | an increment adds its type to the map's keys and keeps every count positive |
| DescriptorSetBuilding.BumpSorted | src/RHI/Pipeline/Descriptor/DescriptorSetBuilder.cpp:80-91 | an increment keeps the map's entries in strictly ascending type order |
| DescriptorSetBuilding.TallyIsPoolSizeMap | src/RHI/Pipeline/Descriptor/DescriptorSetBuilder.cpp:80-91 | the pool sizes hold one entry per distinct config type in ascending order, each counting that type's configs and none zero, and all together counting every config |
| DescriptorSetBuilding.TallyShape | src/RHI/Pipeline/Descriptor/DescriptorSetBuilder.cpp:80-91 | the pool sizes are strictly ascending, positive and sum to the number of configs |
| DescriptorSetBuilding.TallyContents | src/RHI/Pipeline/Descriptor/DescriptorSetBuilder.cpp:80-91 | the pool sizes' types are exactly the config types, and each count is that type's number of occurrences |
| DescriptorSetBuilding.WithSet | src/RHI/Pipeline/Descriptor/DescriptorSetBuilder.cpp:113-115 | pointing the writes at the set changes only each write's destination set |
| DescriptorSetBuilding.WritesMatchBindings | src/RHI/Pipeline/Descriptor/DescriptorSetBuilder.cpp:61-69 | each write of a build agrees with the binding of the same config in binding number, type and a count of one, and points at that config's image or buffer info |
| DescriptorSetBuilding.DescriptorSetBuilder.constructor | src/RHI/Descriptor/DescriptorSetBuilder.hpp:28-35 | a new builder has no configs, bindings, writes or calls |
| DescriptorSetBuilding.DescriptorSetBuilder.AddTexture | src/RHI/Pipeline/Descriptor/DescriptorSetBuilder.cpp:6-19 | addTexture appends one texture config sampled in shader-read-only layout |
| DescriptorSetBuilding.DescriptorSetBuilder.AddBufferRange | src/RHI/Pipeline/Descriptor/DescriptorSetBuilder.cpp:25-38 | addBuffer with a range appends one buffer config with that buffer, offset and range |
| DescriptorSetBuilding.DescriptorSetBuilder.AddBuffer | src/RHI/Pipeline/Descriptor/DescriptorSetBuilder.cpp:21-23 | addBuffer of a whole buffer appends a config with offset 0 and the buffer's size as range |
| DescriptorSetBuilding.DescriptorSetBuilder.Bind | src/RHI/Pipeline/Descriptor/DescriptorSetBuilder.cpp:40-56 | bind appends one layout binding and one write, both for one descriptor, without info |
| DescriptorSetBuilding.DescriptorSetBuilder.Build | src/RHI/Pipeline/Descriptor/DescriptorSetBuilder.cpp:58-118 | build appends bindings and writes to what earlier builds left, creates layout, pool and set with each failure returning its error, and on success points every write, old ones included, at the new set |
| DescriptorSetBuilding.DescriptorSetBuilder.Submit | src/RHI/Pipeline/Descriptor/DescriptorSetBuilder.cpp:71-117 | after the bindings, the creations run in order and stop at the first failure; only success points the writes at the set |
| DescriptorSetBuilding.DescriptorSetBuilder.BindAll | src/RHI/Pipeline/Descriptor/DescriptorSetBuilder.cpp:61-69 | the two binding loops bind every texture then every buffer config, each write pointing at its config's info |
| DescriptorSetBuilding.DescriptorSetBuilder.BindTextures | src/RHI/Pipeline/Descriptor/DescriptorSetBuilder.cpp:61-64 | the texture loop binds each texture config with its image info |
| DescriptorSetBuilding.DescriptorSetBuilder.BindBuffers | src/RHI/Pipeline/Descriptor/DescriptorSetBuilder.cpp:66-69 | the buffer loop binds each buffer config with its buffer info |
| DescriptorSetBuilding.DescriptorSetBuilder.PoolSizes | src/RHI/Pipeline/Descriptor/DescriptorSetBuilder.cpp:80-91 | the pool-size loops give the tally of the config types read out in key order |
| DescriptorSetBuilding.PointAtSet | src/RHI/Pipeline/Descriptor/DescriptorSetBuilder.cpp:113-115 | the loop points every write at the set |
| DescriptorSetBuilding.RebuildDuplicatesBindings | src/RHI/Pipeline/Descriptor/DescriptorSetBuilder.cpp:58-69 | a second build on the same builder submits every binding twice, as the bindings are never cleared |
| DescriptorSetBuildingOld.WritesReferToOwnInfo | src/RHI/Descriptor/DescriptorSetBuilder.cpp:21-46 | each write is built with the pointer to the image info of its own config and has that config's binding, type and a count of one; whether that pointer is still valid when it is read is stated by the storage lemmas below |
| DescriptorSetBuildingOld.PushBackMoves | src/RHI/Descriptor/DescriptorSetBuilder.cpp:36 | push_back grows the vector by one; a full vector moves to a new block with room for at least one more element, a vector with room keeps its block and its capacity |
| DescriptorSetBuildingOld.StorageGrows | src/RHI/Descriptor/DescriptorSetBuilder.cpp:21-46 | after n push_backs the vector holds n more elements, never more than its capacity, and if it is still in its first block that block's capacity is unchanged, so pushing past it always moves the vector |
| DescriptorSetBuildingOld.StorageAfterSplit | src/RHI/Descriptor/DescriptorSetBuilder.cpp:21-46 | m + n push_backs are m push_backs followed by n more |
| DescriptorSetBuildingOld.AsRead | src/RHI/Descriptor/DescriptorSetBuilder.cpp:86 | a write reads through its pointer exactly when the vector is still in the block the pointer was taken in, and is otherwise stale, with its other fields unchanged |
| DescriptorSetBuildingOld.FirstBlockLeft | src/RHI/Descriptor/DescriptorSetBuilder.cpp:16-36 | with more push_backs than the first block holds, the vector ends in another block than the one the first pointer was taken in |
| DescriptorSetBuildingOld.FirstWriteIsStale | src/RHI/Descriptor/DescriptorSetBuilder.cpp:16-44 | with more textures than the first push_back's block holds, the first write as read through its pointer is stale |
| DescriptorSetBuildingOld.AsWrittenFirstWriteIsStale | src/RHI/Descriptor/DescriptorSetBuilder.cpp:16-44 | with more textures than the first push_back's block holds, the UpdateSets call of a successful build, its fourth call, gets one write per texture and a stale pointer in the first |
| DescriptorSetBuildingOld.DoublingGrowthStaleWithTwoTextures | src/RHI/Descriptor/DescriptorSetBuilder.cpp:16-44 | with the usual growth that gives the first push_back room for one info, two textures already leave the first write stale |
| DescriptorSetBuildingOld.LastWriteIsLive | src/RHI/Descriptor/DescriptorSetBuilder.cpp:36-44 | the pointer taken after the last push_back is always valid |
| DescriptorSetBuildingOld.ReservedNeverMoves | src/RHI/Descriptor/DescriptorSetBuilder.cpp:16 | a vector reserved for n elements stays in its block for up to n push_backs |
| DescriptorSetBuildingOld.ReservedWritesAreLive | src/RHI/Descriptor/DescriptorSetBuilder.cpp:16-46 | with the info vector reserved to the number of configs, every write reads the image info of its own config |
| DescriptorSetBuildingOld.UnmergedPoolSizesCountTheSame | src/RHI/Descriptor/DescriptorSetBuilder.cpp:57-60 | one pool-size entry per config, with the same per-type counts as the merged pool sizes of the later builder |
| DescriptorSetBuildingOld.UnmergedCounts | src/RHI/Descriptor/DescriptorSetBuilder.cpp:57-60 | the unmerged entries count each type as often as it occurs among the configs |
| DescriptorSetBuildingOld.SameTypeNotMerged | src/RHI/Descriptor/DescriptorSetBuilder.cpp:57-60 | two textures of one type give two entries here against one merged entry in the later builder |
| DescriptorSetBuildingOld.DescriptorSetBuilder.constructor | src/RHI/Descriptor/DescriptorSetBuilder.hpp:35 | a new builder has no configs and no calls |
| DescriptorSetBuildingOld.DescriptorSetBuilder.AddTexture | src/RHI/Descriptor/DescriptorSetBuilder.cpp:5-13 | addTexture appends one config with the given binding, type, stages, view and sampler |
| DescriptorSetBuildingOld.DescriptorSetBuilder.Build | src/RHI/Descriptor/DescriptorSetBuilder.cpp:15-87 | build creates layout, pool for one set and the set, failing at the first failed creation, then hands vkUpdateDescriptorSets every write pointed at the set, each reading its own image info only if the info vector has not moved since the pointer was taken and a stale pointer otherwise |
| DescriptorSetBuildingOld.DescriptorSetBuilder.FillArrays | src/RHI/Descriptor/DescriptorSetBuilder.cpp:16-46 | the index loop fills the bindings and writes in config order, appends the image infos, and records for each write the storage block of the info vector its pointer was taken in, along with where the vector ends |
| DescriptorSetBuildingOld.DescriptorSetBuilder.ReservedWrites | src/RHI/Descriptor/DescriptorSetBuilder.cpp:16-46 | the loop run after reserving the info vector gives the writes as built, each pointing at its own live image info |
| DescriptorSetBuildingOld.DescriptorSetBuilder.PoolSizes | src/RHI/Descriptor/DescriptorSetBuilder.cpp:57-60 | the pool-size loop gives one entry of count one per config, in config order |
| DescriptorSetBuilding.BuildTwice | src/RHI/Pipeline/Descriptor/DescriptorSetBuilder.cpp:58-69 | two builds on one builder append the config bindings twice, so every binding appears twice, one config count apart |
| PlaneMeshIndicesGenerator.IndicesCountIsLength | src/Engine/Components/Terrain/TerrainConfig.hpp:10-12 | the INDICES_COUNT the engine sizes the index buffer with is exactly the number of indices GetIndices writes, 23814 |
| PlaneMeshIndicesGenerator.GetIndices | src/Engine/Components/Terrain/PlaneMeshIndicesGenerator.hpp:10-31 | GetIndices writes the (R - 1)^2 * 6 plane indices from IndicesBegin on and changes nothing else in the array |
| PlaneMeshIndicesGenerator.EmitGridRow | src/Engine/Components/Terrain/PlaneMeshIndicesGenerator.hpp:12-30 | one pass of the z loop writes row z right after the rows before it, staying within the buffer |
| PlaneMeshIndicesGenerator.GridFits | src/Engine/Components/Terrain/PlaneMeshIndicesGenerator.hpp:12-13 | row z of R - 1 cells still fits after the rows before it |
| PlaneMeshIndicesGenerator.GridStep | src/Engine/Components/Terrain/PlaneMeshIndicesGenerator.hpp:12-30 | writing row z after the rows before it extends the written grid by one row |
| PlaneMeshIndicesGenerator.EmitRow | src/Engine/Components/Terrain/PlaneMeshIndicesGenerator.hpp:13-29 | the x loop writes the R - 1 cells of row z in x order, six entries each |
| PlaneMeshIndicesGenerator.RowStep | src/Engine/Components/Terrain/PlaneMeshIndicesGenerator.hpp:13-29 | writing cell x after the first x cells of a row extends the row by one cell |
| PlaneMeshIndicesGenerator.EmitCell | src/Engine/Components/Terrain/PlaneMeshIndicesGenerator.hpp:15-28 | one cell stores its six corner indices and moves the pointer past them, nothing else changed |
| TerrainMesh.Splice | src/Engine/Components/Terrain/PlaneMeshIndicesGenerator.hpp:21-28 | writing through the pointer keeps the buffer's length |
| TerrainMesh.SpliceParts | src/Engine/Components/Terrain/PlaneMeshIndicesGenerator.hpp:21-28 | what was written sits at the pointer and the rest of the buffer is unchanged |
| TerrainMesh.PlaneIndicesLength | src/Engine/Components/Terrain/TerrainConfig.hpp:12 | both generators emit exactly (R - 1)^2 * 6 indices |
| TerrainMesh.NextRowFits | src/Engine/Components/Terrain/PlaneMeshIndicesGenerator.hpp:12-13 | the next row of cells fits the index count and extends the rows before it |
| TerrainMesh.RowCell | src/Engine/Components/Terrain/PlaneMeshIndicesGenerator.hpp:13-29 | cell x of a row sits at entries 6x to 6x + 6 of that row |
| TerrainMesh.CellLayout | src/Engine/Components/Terrain/PlaneMeshIndicesGenerator.hpp:12-29 | cells are laid out z-outer and x-inner, cell (x, z) taking entries 6(z(R - 1) + x) onward in the order top-left, bottom-left, top-right, top-right, bottom-left, bottom-right |
| TerrainMesh.CellOffset | src/Engine/Components/Terrain/PlaneMeshIndicesGenerator.hpp:12-13 | the rows before row z hold 6z(R - 1) indices |
| TerrainMesh.CornersBelow | src/Engine/Components/Terrain/PlaneMeshIndicesGenerator.hpp:15-18 | every corner of a cell is one of the R^2 vertices |
| TerrainMesh.IndicesInRange | src/Engine/Components/Terrain/PlaneMeshIndicesGenerator.hpp:12-30 | every emitted index names one of the R^2 vertices, and up to 65536 vertices a side they fit uint32 |
| TerrainMesh.CornersFit | src/Engine/Components/Terrain/PlaneMeshIndicesGenerator.hpp:15-18 | each corner computation fits uint32 up to 65536 vertices a side |
| ChunkIndicesGenerator.AsWrittenIndexCountIsNotLength | src/Apps/MeshApp/Components/ChunkIndicesGenerator.hpp:12 | INDEX_COUNT as written is 3402353814, over 140000 times the 23814 indices getIndices returns |
| ChunkIndicesGenerator.AsWrittenIndexCountValue | src/Apps/MeshApp/Components/ChunkIndicesGenerator.hpp:12 | INDEX_COUNT as written squares INDICES_COUNT - 1 where RESOLUTION - 1 was meant |
| ChunkIndicesGenerator.IndexCountIsLength | src/Apps/MeshApp/Components/ChunkIndicesGenerator.hpp:12 | with RESOLUTION in place of INDICES_COUNT the reservation equals the number of indices returned |
| ChunkIndicesGenerator.GetIndices | src/Apps/MeshApp/Components/ChunkIndicesGenerator.cpp:4-28 | getIndices returns the (R - 1)^2 * 6 plane indices in the same layout as the engine's generator |
| ChunkIndicesGenerator.CellIndices | src/Apps/MeshApp/Components/ChunkIndicesGenerator.cpp:11-24 | one loop body pushes the six corner indices of its cell |
| TerrainChunkData.IndexCountIsLength | src/Apps/MeshApp/Components/TerrainChunkData.hpp:17-19 | this header's INDEX_COUNT equals the number of indices getIndices returns |
| TerrainChunkData.GetIndices | src/Apps/MeshApp/Components/TerrainChunkData.hpp:21-45 | getIndices returns the (R - 1)^2 * 6 plane indices, INDEX_COUNT of them |
| TerrainChunkData.GridChunkId | src/Apps/MeshApp/Components/TerrainChunkData.hpp:51-62 | a chunk's running id counts the chunks of the columns before it, then its row, modulo 2^32 |
| TerrainChunkData.ColumnsAt | src/Apps/MeshApp/Components/TerrainChunkData.hpp:53-63 | cell (x, y) follows the x full columns before it, at offset y |
| TerrainChunkData.ColumnsIdAt | src/Apps/MeshApp/Components/TerrainChunkData.hpp:51-63 | every chunk of the first m columns carries its position in the vector as id, modulo 2^32, and is visible |
| TerrainChunkData.ChunkGridLayout | src/Apps/MeshApp/Components/TerrainChunkData.hpp:47-66 | generateChunkGrid(n) returns n^2 chunks with the chunk at (x, y) at position x * n + y |
| TerrainChunkData.ChunkGridIds | src/Apps/MeshApp/Components/TerrainChunkData.hpp:47-66 | while n^2 fits 32 bits the ids are exactly 0 to n^2 - 1, each the chunk's position, so no two chunks share one; every chunk is visible |
| TerrainChunkData.ThreeByThreeFillsInstances | src/Apps/MeshApp/Components/TerrainChunkData.hpp:15 | a 3 x 3 grid has one chunk per drawn instance |
| TerrainChunkData.GenerateChunkGrid | src/Apps/MeshApp/Components/TerrainChunkData.hpp:47-66 | the x-outer, y-inner loops with the running uint32 id build the chunk grid |
| TerrainChunkData.PushColumn | src/Apps/MeshApp/Components/TerrainChunkData.hpp:54-62 | the y loop appends column x, each chunk taking the next id |
| DiamondLayout.FilledLength | src/Engine/Components/Terrain/TerrainSystem.cpp:37-80 | after step (i, j) the counter has moved past 1 + 4 blocks per earlier step |
| DiamondLayout.StepsBeforeClosed | src/Engine/Components/Terrain/TerrainSystem.cpp:46-49 | the loops run i(2r - i + 1)/2 steps before row i |
| DiamondLayout.TagsFillInstances | src/Engine/Components/Terrain/TerrainSystem.cpp:37-80 | with INSTANCE_COUNT = r^2 + (r + 1)^2 the loops write exactly INSTANCE_COUNT slots |
| DiamondLayout.BlockFits | src/Engine/Components/Terrain/TerrainSystem.cpp:54-78 | while steps remain, the counter leaves a free block of four below it |
| DiamondLayout.FilledNoRepeats | src/Engine/Components/Terrain/TerrainSystem.cpp:37-80 | no slot is written for two steps |
| DiamondLayout.FilledHoldsEarlierSteps | src/Engine/Components/Terrain/TerrainSystem.cpp:46-80 | every step before (i, j) has its slot written |
| DiamondLayout.TagsAreTheSteps | src/Engine/Components/Terrain/TerrainSystem.cpp:37-80 | the buffer holds every step the loops make, each exactly once |
| DiamondLayout.FirstBlockOnTop | src/Engine/Components/Terrain/TerrainSystem.cpp:39-78 | the top five slots hold the player's chunk and, below it, the block of step (0, 0) |
| DiamondLayout.BlockCells | src/Engine/Components/Terrain/TerrainSystem.cpp:47-76 | the four cells of step (i, j) are its x_neg/y_pos, x_pos/y_neg, x_neg/y_neg and x_pos/y_pos in int32 arithmetic |
| DiamondLayout.AsWrittenRepeatsCells | src/Engine/Components/Terrain/TerrainSystem.cpp:47-51 | as written, the first block below the player's chunk holds the cell one to the right of the player four times |
| DiamondLayout.OffsetRoundTrip | src/Engine/Components/Terrain/TerrainSystem.cpp:46-78 | each step's corrected offset lies within the diamond and maps back to the step |
| DiamondLayout.TagRoundTrip | src/Engine/Components/Terrain/TerrainSystem.cpp:46-78 | each offset within the diamond is the corrected offset of exactly one step |
| DiamondLayout.CorrectedLayoutIsDiamond | src/Engine/Components/Terrain/TerrainSystem.cpp:46-78 | with the corrected offsets the INSTANCE_COUNT slots hold each cell within distance r exactly once |
| TerrainSystemModel.ChunkCoordIsQuotient | src/Engine/Components/Terrain/TerrainSystem.cpp:34-35 | the intended chunk coordinate is the position divided by RESOLUTION truncated toward zero |
| TerrainSystemModel.AsWrittenChunkCoordAgreesOnNonNegative | src/Engine/Components/Terrain/TerrainSystem.cpp:34-35 | the division through uint32 agrees with the intended one for positions that are not negative |
| TerrainSystemModel.AsWrittenChunkCoordWrapsNegative | src/Engine/Components/Terrain/TerrainSystem.cpp:34-35 | as written, every negative position is converted to uint32 before the division and lands in a positive chunk coordinate |
| TerrainSystemModel.AsWrittenChunkCoordOfMinusOne | src/Engine/Components/Terrain/TerrainSystem.cpp:34-35 | with RESOLUTION 64 a player at x = -1 is placed in chunk 67108863 instead of 0 |
| TerrainSystemModel.DiamondLinks | src/Engine/Components/Terrain/TerrainSystem.cpp:37-80 | the chunk links buffer after the diamond fill has INSTANCE_COUNT links |
| TerrainSystemModel.DiamondLinksFillEverySlotOnce | src/Engine/Components/Terrain/TerrainSystem.cpp:37-80 | every slot is written exactly once, the instance of every slot is the slot itself, every link is visible and the last slot holds the player's chunk |
| TerrainSystemModel.BlockLinks | src/Engine/Components/Terrain/TerrainSystem.cpp:57-76 | the four links of step (i, j) carry their cells, consecutive instance ids and visibility 1 |
| TerrainSystemModel.PushBlock | src/Engine/Components/Terrain/TerrainSystem.cpp:54-78 | writing a block just below the written slots extends them by that block |
| TerrainSystemModel.NextSampleRowFits | src/Engine/Components/Terrain/TerrainSystem.cpp:93-103 | one more row of samples fits the chunk's heightmap and extends the rows before it |
| TerrainSystemModel.SampleRowsAt | src/Engine/Components/Terrain/TerrainSystem.cpp:93-103 | sample x * RESOLUTION + z of the rows written is the height at the global coordinates of (x, z) |
| TerrainSystemModel.ChunkHeightsLayout | src/Engine/Components/Terrain/TerrainSystem.cpp:89-104 | WriteChunk writes RESOLUTION^2 samples x-outer, z-inner, sample x * RESOLUTION + z being the height at (x + (RESOLUTION - 1) cx, z + (RESOLUTION - 1) cy) |
| TerrainSystemModel.LinkHeightsAt | src/Engine/Components/Terrain/TerrainSystem.cpp:84-86 | the heightmaps of the links lie one after the other in link order |
| TerrainSystemModel.HeightmapOfEveryLink | src/Engine/Components/Terrain/TerrainSystem.cpp:84-86 | when a link's instance is its slot, its heightmap starts at InstanceId * RESOLUTION^2 and holds that link's chunk heights |
| TerrainSystemModel.TerrainSystem.constructor | src/Engine/Components/Terrain/TerrainSystem.hpp:14-23 | a new system owns two fresh buffers sized by the radius and resolution |
| TerrainSystemModel.TerrainSystem.Init | src/Engine/Components/Terrain/TerrainSystem.cpp:5-14 | Init keeps the player position and then fills the links buffer with the diamond and the heightmaps buffer with every link's heights |
| TerrainSystemModel.TerrainSystem.FullWriteChunkData | src/Engine/Components/Terrain/TerrainSystem.cpp:31-87 | the links buffer ends as the diamond around the player's chunk and the heightmaps buffer as every link's heights at its instance |
| TerrainSystemModel.TerrainSystem.FillDiamond | src/Engine/Components/Terrain/TerrainSystem.cpp:46-80 | the two loops below the player's chunk complete the diamond links |
| TerrainSystemModel.TerrainSystem.FillColumn | src/Engine/Components/Terrain/TerrainSystem.cpp:49-79 | the j loop for one i writes blocks (i, 0) to (i, r - i - 1) downwards and moves the counter past them |
| TerrainSystemModel.TerrainSystem.WriteBlock | src/Engine/Components/Terrain/TerrainSystem.cpp:54-76 | the four slots from the counter minus 3 get the block's links |
| TerrainSystemModel.TerrainSystem.WriteAllChunks | src/Engine/Components/Terrain/TerrainSystem.cpp:84-86 | the loop over the links writes each link's heightmap at InstanceId * RESOLUTION^2 |
| TerrainSystemModel.TerrainSystem.WriteLinkHeightmap | src/Engine/Components/Terrain/TerrainSystem.cpp:85 | one pass writes link k's heightmap right after those of the links before it |
| TerrainSystemModel.TerrainSystem.WriteChunk | src/Engine/Components/Terrain/TerrainSystem.cpp:89-104 | WriteChunk writes the chunk's RESOLUTION^2 samples from ChunkBegin on and nothing else |
| TerrainSystemModel.TerrainSystem.WriteNextRow | src/Engine/Components/Terrain/TerrainSystem.cpp:93-103 | one pass of the x loop writes row x after the rows before it |
| TerrainSystemModel.TerrainSystem.WriteRow | src/Engine/Components/Terrain/TerrainSystem.cpp:95-102 | the z loop writes the RESOLUTION samples of row x through the advancing pointer |
| ChunkManagerModel.ConfigValues | src_old/Apps/MeshApp/Components/HeightmapConfig.hpp:11 | with radius 4 and resolution 64 there are 41 instances, 656 link bytes and 335872 heightmap bytes |
| ChunkManagerModel.DiamondLinks | src/Apps/MeshApp/Components/ChunkManager.cpp:58-113 | the chunk links after the fill have INSTANCE_COUNT entries |
| ChunkManagerModel.DiamondLinksFillEverySlotOnce | src/Apps/MeshApp/Components/ChunkManager.cpp:63-112 | the counter ends at -1 having written every slot once, the heightmap layer of every slot is the slot itself, every link is visible and the last slot holds the player's chunk |
| ChunkManagerModel.BlockLinks | src/Apps/MeshApp/Components/ChunkManager.cpp:83-108 | the four links of step (i, j) carry their cells, consecutive heightmap ids and visibility 1 |
| ChunkManagerModel.BlockWritten | src/Apps/MeshApp/Components/ChunkManager.cpp:80-110 | writing a block just below the written slots extends them by that block |
| ChunkManagerModel.Le32RoundTrip | src/Apps/MeshApp/Components/ChunkManager.hpp:16-20 | a 32-bit field reads back from its four little-endian bytes |
| ChunkManagerModel.LinkBytes | src/Apps/MeshApp/Components/ChunkManager.hpp:16-20 | a link occupies 16 bytes |
| ChunkManagerModel.LinkRoundTrip | src/Apps/MeshApp/Components/ChunkManager.hpp:16-20 | a link reads back from its bytes |
| ChunkManagerModel.LinksBytes | src/Apps/MeshApp/Components/ChunkManager.hpp:24-26 | the vector's storage is 16 bytes per link |
| ChunkManagerModel.LinksRoundTrip | src/Apps/MeshApp/Components/ChunkManager.cpp:53-56 | what uploadChunkLinks copies reads back as the link vector |
| ChunkManagerModel.LastLinkBytes | src/Apps/MeshApp/Components/ChunkManager.hpp:24-26 | the storage of a non-empty vector ends with its last link's 16 bytes |
| ChunkManagerModel.ChunkManager.constructor | src/Apps/MeshApp/Components/ChunkManager.hpp:36 | a new manager has no links |
| ChunkManagerModel.ChunkManager.Init | src/Apps/MeshApp/Components/ChunkManager.cpp:14-51 | init adds the cpu link buffer, the gpu link buffer and the heightmap staging buffer in that order, then the heightmap image array, and keeps the four ids |
| ChunkManagerModel.ChunkManager.AddLinkBuffers | src/Apps/MeshApp/Components/ChunkManager.cpp:22-41 | the three buffer adds take the next pool ids in order and issue one creation each |
| ChunkManagerModel.ChunkManager.UploadChunkLinks | src/Apps/MeshApp/Components/ChunkManager.cpp:53-56 | the cpu buffer receives the first size-of-buffer bytes of the links and immediateCopy copies chunkLinksSize bytes to the gpu buffer; a failed id check ends the call with nothing changed |
| ChunkManagerModel.ChunkManager.DiamondUpdateChunkLinks | src/Apps/MeshApp/Components/ChunkManager.cpp:58-113 | given a vector already holding INSTANCE_COUNT links, which nothing in the code sizes (see Findings), the vector ends as the diamond links around the player chunk |
| ChunkManagerModel.ChunkManager.FillDiamond | src/Apps/MeshApp/Components/ChunkManager.cpp:72-112 | the two loops below the player's chunk complete the diamond links |
| ChunkManagerModel.ChunkManager.WriteBlock | src/Apps/MeshApp/Components/ChunkManager.cpp:80-108 | the four slots from the counter minus 3 get the block's links, the vector's length unchanged |
| LogFormatting.DeviceTypeName | src/Utils/LogFormatter.hpp:14-25 | each device type prints as a non-empty name |
| LogFormatting.DeviceTypeNameRoundTrip | src/Utils/LogFormatter.hpp:14-25 | each of the five named types reads back from its name, and exactly the other values print as Unknown |
| LogFormatting.ApiVersionVariant | src/Utils/LogFormatter.hpp:37-42 | the variant field is below 8 |
| LogFormatting.ApiVersionMajor | src/Utils/LogFormatter.hpp:37-42 | the major field is below 128 |
| LogFormatting.ApiVersionMinor | src/Utils/LogFormatter.hpp:37-42 | the minor field is below 1024 |
| LogFormatting.ApiVersionPatch | src/Utils/LogFormatter.hpp:37-42 | the patch field is below 4096 |
| LogFormatting.ApiVersionFieldsRoundTrip | src/Utils/LogFormatter.hpp:37-42 | unpacking a packed version gives back its four fields |
| LogFormatting.ApiVersionDecomposes | src/Utils/LogFormatter.hpp:37-42 | every 32-bit value is the packing of its four fields |
| LogFormatting.Decimal | src/Utils/LogFormatter.hpp:38-41 | a number prints as at least one decimal digit |
| LogFormatting.DecimalRoundTrip | src/Utils/LogFormatter.hpp:38-41 | the decimal text reads back as the number |
| LogFormatting.VersionStringRoundTrip | src/Utils/LogFormatter.hpp:37-42 | the major.minor.patch text reads back as the three fields |
| LogFormatting.MessageTypeParts | src/Utils/LogFormatter.hpp:55-57 | the names of the set bits, at most three, none exactly when no bit is set |
| LogFormatting.TerminatedSnoc | src/Utils/LogFormatter.hpp:55-57 | each append adds the name and a bar |
| LogFormatting.TerminatedDropsToJoin | src/Utils/LogFormatter.hpp:59 | dropping the last bar leaves the names joined by bars |
| LogFormatting.FormatMessageType | src/Utils/LogFormatter.hpp:52-63 | the formatter gives the message-type text |
| LogFormatting.MessageTypeNameShape | src/Utils/LogFormatter.hpp:52-63 | the text is never empty, never ends in a bar, and is Unknown exactly when none of the three bits is set |
| ChunkManagerModel.ChunkManager.SizeLinks | src/Apps/MeshApp/Components/ChunkManager.hpp:26 | the intended sizing of the link vector: INSTANCE_COUNT value-initialised links |
| ChunkManagerModel.AsWrittenSetUpLeavesLinksEmpty | src/Apps/MeshApp/MeshApp.cpp:35-36 | after a default ChunkManager and init the link vector is still empty, so diamondUpdateChunkLinks cannot write slot INSTANCE_COUNT - 1 |
| ChunkManagerModel.CorrectedSetUpFillsLinks | src/Apps/MeshApp/MeshApp.cpp:35-36 | with the vector sized after init, diamondUpdateChunkLinks leaves it holding the diamond layout |
| BufferManagerPool.AddToTable | src/RHI/Buffer/BufferManager.cpp:23-50 | an add keeps the table well formed: every free id names an existing slot |
| BufferManagerPool.Step | src/RHI/Buffer/BufferManager.cpp:23-64 | each add or del keeps the table well formed |
| BufferManagerPool.Run | src/RHI/Buffer/BufferManager.cpp:23-64 | any sequence of adds and dels keeps the table well formed |
| BufferManagerPool.BufferManager.constructor | src/RHI/Buffer/BufferManager.hpp:13-17 | a new manager has no slots, no free ids and no calls |
| BufferSystemPool.AddToTable | src/Engine/Renderer/Buffer/BufferSystem.cpp:25-57 | an add keeps the table well formed whether or not the creation succeeded |
| BufferSystemPool.Step | src/Engine/Renderer/Buffer/BufferSystem.cpp:25-71 | each add or del keeps the table well formed |
| BufferSystemPool.Run | src/Engine/Renderer/Buffer/BufferSystem.cpp:25-71 | any sequence of adds and dels keeps the table well formed |
| BufferSystemPool.BufferSystem.constructor | src/Engine/Renderer/Buffer/BufferSystem.cpp:10-16 | the header of this revision is not in view; its implicit constructor is taken to leave no slots, no free ids and no calls, the state init also leaves |
| BufferCreateOptions.CombineLeftUnit | src/RHI/Buffer/BufferCreateOptions.hpp:17-24 | adding to the empty options gives the other side unchanged |
| BufferCreateOptions.CombineRightUnit | src/RHI/Buffer/BufferCreateOptions.hpp:17-24 | adding the empty options changes nothing |
| BufferCreateOptions.CombineSelf | src/RHI/Buffer/BufferCreateOptions.hpp:17-24 | adding options to themselves changes nothing |
| ImagePool.DelFromTable | src/Engine/InferusRenderer/Image/ImageSystem.cpp:89-92 | del keeps the table well formed and its number of slots |
| ImagePool.ImageSystem.constructor | src/Engine/InferusRenderer/Image/ImageSystem.hpp:16-19 | a new system has no slots, no free ids and no calls |
| ImagePoolOld.DelFromTable | src_old/RHI/Image/ImageSystem.cpp:88-91 | del keeps the table well formed |
| ImagePoolOld.ImageSystem.constructor | src/RHI/Image/ImageSystem.hpp:19 | ImageSystem() is declared but not defined in view; it is taken to leave no slots, no free ids and no calls |
| ImageTypes.DefaultDescription | src_old/RHI/Image/ImageCreateDescription.hpp:7-16 | the description's defaults are one deep, one level, one layer, RGBA8 sRGB and a sampled transfer target of the given size |
| LegacyBuffer.Buffer.Empty | src/RHI/Buffer.hpp:31 | a default buffer has null handles and size 0 |
| LegacyBuffer.Buffer.FromNative | src/RHI/Buffer.cpp:5-39 | a created buffer records its allocator, size and type, holds VMA's buffer and allocation, and issued one creation with usage 0 and the type's allocation settings |
| QueueSelection.QueueContext.constructor | src/RHI/RHITypes.hpp:5-7 | a queue context starts with null queue and pool and the given index |
| QueueSelection.RequiredFlagsAccumulate | src/RHI/Intialization/QueueSelector.hpp:79-82 | adding required flags in two steps is adding their union |
| QueueSelection.AvoidedFlagsAccumulate | src/RHI/Intialization/QueueSelector.hpp:84-87 | adding avoided flags in two steps is adding their union |
| VulkanContextModel.VulkanContext.constructor | src/RHI/VulkanContext.hpp:17-20 | the four queue contexts start with the given indices and no calls |
| Common.Clamp | src/Engine/InferusRenderer/InferusRenderer.cpp:886-887 | std::clamp lies within the bounds and keeps a value already within them |

## Left out

- Native calls: all `vk*`, `vma*` and `glfw*` calls are abstract. Creation results are parameters. Destroy, map, copy, submit, present and wait calls are trace events. Real GPU execution, semaphores and timing are not modelled; only the fence-per-slot state and the order of submissions are.
- Instance, device, swapchain, pipeline, sampler and debug-messenger creation are left out, as are the debug messenger callbacks and all debug logging and printing. They only pass data to foreign calls.
- Floating point is left out: camera math, the viewport floats of `Resize` and `Init`, and the noise that generates heights. `TerrainSystem::WriteChunk` takes its height values from a `HeightSampler` parameter, so only the offsets and the count of the samples it writes are modelled. `ChunkManager::genHeightmap` is not part of this model.
- File I/O, windows, the shader stage builders, the pipeline builders and the app glue (MeshApp, TestApp, InferusEngine, main) are not part of this model.
- `std::sort` is unstable. `DeviceSelection.SelectPhysicalDevice`, `QueueSelection.Select` and `SwapchainSelection.SwapchainSelector.PickSurfaceFormat` therefore promise only some element of maximal score, not which of several tied ones.
- DeviceSelection.SelectPhysicalDevice: the device list is a parameter. The selector's own `physicalDevices` pointer is never initialised in the code. The queried device features are not modelled, because the score never reads them.
- ImagePool.ImageSystem and ImagePoolOld.ImageSystem: `upload` has an empty body in both revisions and is not modelled beyond that.
- TerrainSystemModel.TerrainSystem: resolution and radius are constructor parameters. The `TerrainConfig::Chunk`, `Heightmap` and `ChunkToHeightmapLinking` constants it reads are not defined in the engine's TerrainConfig.hpp.
- ChunkIndicesGenerator: the mesh app's TerrainConfig defines no `INDICES_COUNT`, so the engine's definition is used for it.
- PlaneMeshIndicesGenerator.GetIndices, ChunkIndicesGenerator.GetIndices and TerrainChunkData.GetIndices take a resolution of at most 65536. At that bound every 32-bit index fits; the code fixes the resolution at a constant well below it.
- ChunkManagerModel.ChunkManager: the member declarations of ChunkManager.hpp and the definitions of ChunkManager.cpp do not agree. The model follows the .cpp.
- TerrainSystemModel.TerrainSystem.WriteChunk: the global sample coordinates are unbounded integers. The code computes them in `int`, and its overflow for chunks near the `int32` limits is not modelled. The cell coordinates of the diamond fill, in contrast, wrap exactly as the code's 32-bit arithmetic does.
- Identifiers the code leaves uninitialised (the descriptor type of a default config, ids of pools not yet used) are parameters or 0.
- Renderer.InferusRenderer.constructor: stands for Init without its `RecreateSwapchain(VK_NULL_HANDLE)` at InferusRenderer.cpp:420. It leaves no swapchain, and the caller completes Init with `Renderer.InferusRenderer.RecreateSwapchain` and a null old swapchain. In the code the per-frame set-up runs after that call, and it does not read what RecreateSwapchain builds.
- BufferManagerPool.BufferManager.ImmediateUpload: when the data is larger than the staging buffer, the code's memcpy runs past the allocation, which is undefined behaviour. The model stops there with an error instead of modelling the overrun.
- ChunkManagerModel.ChunkManager.DiamondUpdateChunkLinks: the player's chunk is the float position divided by RESOLUTION and truncated to int (ChunkManager.cpp:60-61). That float computation is a parameter.
- The default constructors of BufferSystem and the old ImageSystem are declared in headers that are not in view or that do not match their revision. The model takes them to leave both vectors empty.
- OwnershipTransfer.ReleaseAndAcquireMatch: the code's barriers come from `Recipes::ImageMemoryBarrier::TransferDest` and `::ShaderRead` (InferusRenderer.cpp:910, 933, 954). Neither Recipes.hpp of this revision defines that namespace, so the RHI `BarrierRecipes` (src/RHI/Recipes/BarrierRecipes.cpp) stand in. The layouts and access masks the lemma states are theirs.
- OwnershipTransfer.FeedIsReleaseThenAcquire: the layout the copy runs in is the one the stand-in `BarrierRecipes.TransferDest` sets, not provably the one the called recipe sets.
- OwnershipTransfer.ReleaseForgetsCopyLayout: the defect holds of the stand-in `BarrierRecipes.ShaderRead`. Whether the called `Recipes::ImageMemoryBarrier::ShaderRead` also starts from the undefined layout cannot be told from the code in view.
- Renderer.InferusRenderer.FullFeedTerrainData: its three image barriers are the `BarrierRecipes` stand-ins for the `Recipes::ImageMemoryBarrier` calls, whose definitions are not part of this model.
- BufferSystemPool.BufferSystem.Add: BufferSystem.cpp:37 calls `GetBufferOptions` of `Engine/Renderer/Buffer/BufferCreateOptions.hpp`, which is not part of this model. The RHI table (src/RHI/Buffer/BufferCreateOptions.hpp) is assumed in its place.
- DescriptorSetBuildingOld.DescriptorSetBuilder: DescriptorSetBuilder.hpp declares texture and buffer config deques and no `configs` vector. Declarations and definitions do not agree, and the model follows the .cpp.
- DescriptorSetBuildingOld.DescriptorSetBuilder.Build: the standard library's growth policy for the image-info vector is a parameter. A default-constructed vector is taken to start with capacity 0, as it does in the common standard libraries. Only pointer validity is modelled, not what a stale pointer reads.
- These defects are modelled as the code has them, and lemmas exhibit them:
  - the pool defects: `BufferManagerPool.EveryGetFails`, `BufferManagerPool.FreeListOnlyShrinks`, `BufferSystemPool.DelKeepsSlotReadable`, `BufferSystemPool.FreeListStaysEmpty`, `ImagePool.DoubleDelAliasesTwoAdds` and `ImagePoolOld.FreedSlotDestroyedTwice`;
  - `OwnershipTransfer.ReleaseForgetsCopyLayout`, for the `BarrierRecipes` stand-ins;
  - `Renderer.RecreateLeaksDroppedViews`;
  - `DescriptorSetBuilding.RebuildDuplicatesBindings`.

  A corrected pool is not modelled, because the code that uses the pools relies on them as they are.

## Findings

| source | as written | input that shows it | evidently intended | confidence | as-written member | corrected member |
|---|---|---|---|---|---|---|
| src/Engine/InferusRenderer/InferusRenderer.cpp:218-225 | the uniqueness bonus loop also compares the family with the request's own provisional pick | two families with only GRAPHICS that cannot present: the graphics request moves from family 0 to family 1 with score 1100 | the request skips itself, so the lower-indexed family keeps a tie | not executed | RendererSelection.SelfComparisonChangesPick | RendererSelection.CorrectedScanPicksFirstBest |
| src/Apps/MeshApp/Components/ChunkIndicesGenerator.hpp:12 | INDEX_COUNT squares INDICES_COUNT, which is already the index count | RESOLUTION 64: INDEX_COUNT is 3402353814 against 23814 indices | (RESOLUTION - 1)^2 * 6, the number of indices getIndices pushes | not executed | ChunkIndicesGenerator.AsWrittenIndexCountIsNotLength | ChunkIndicesGenerator.IndexCountIsLength |
| src/Engine/Components/Terrain/TerrainSystem.cpp:47-51 | x_neg is px - i + 1, so with i = 0 and j = 0 the four cells of the first block coincide | any radius of at least 1: slots INSTANCE_COUNT - 5 to INSTANCE_COUNT - 2 all hold the chunk right of the player | the four quarter-turns of (i + 1, j), which fill the diamond of radius r exactly once | not executed | DiamondLayout.AsWrittenRepeatsCells | DiamondLayout.CorrectedLayoutIsDiamond |
| src/Engine/Components/Terrain/TerrainSystem.cpp:34-35 | the int position is divided by the uint32_t RESOLUTION in unsigned arithmetic | x = -1 with RESOLUTION 64 gives chunk 67108863 | the signed quotient, chunk 0 | not executed | TerrainSystemModel.AsWrittenChunkCoordOfMinusOne | TerrainSystemModel.ChunkCoordIsQuotient |
| src/Apps/MeshApp/Components/ChunkManager.hpp:26 | chunkLinks is a default, empty vector; neither the constructor nor init (ChunkManager.cpp:14-51) sizes it, and MeshApp.cpp:35-36 calls diamondUpdateChunkLinks right after init | the mesh app's set-up: the first write, chunkLinks[INSTANCE_COUNT - 1] (ChunkManager.cpp:65), is out of bounds of an empty vector | init sizes the vector to INSTANCE_COUNT links | not executed | ChunkManagerModel.AsWrittenSetUpLeavesLinksEmpty | ChunkManagerModel.CorrectedSetUpFillsLinks |
| src/RHI/Descriptor/DescriptorSetBuilder.cpp:36-44 | each write takes `&imageInfos[i]` while later push_backs on the unreserved vector may still move it, and vkUpdateDescriptorSets at line 86 reads every pointer | two textures with the usual growth: the second push_back moves the vector, so the first write's pImageInfo dangles | `imageInfos.reserve(configs.size())` before the loop, so no pointer is invalidated | not executed | DescriptorSetBuildingOld.AsWrittenFirstWriteIsStale | DescriptorSetBuildingOld.ReservedWritesAreLive |

The operation models follow the code as written. The corrected definitions sit beside them:

- `ScanFamilies` with `skipSelf` set;
- `DiamondLayout.CorrectedOffset`;
- `ChunkIndicesGenerator.INDEX_COUNT`;
- `TerrainSystemModel.ChunkCoord`;
- `ChunkManagerModel.ChunkManager.SizeLinks`;
- `DescriptorSetBuildingOld.DescriptorSetBuilder.ReservedWrites`.

The intended property is proved of each.
