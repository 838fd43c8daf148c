/**
 * Device memory helpers of the engine: choosing a memory type for a buffer,
 * the allocation and binding parameters of a new buffer, and the region
 * recorded by a one-shot buffer-to-buffer copy.
 *
 * The device queries (getMemoryProperties, getBufferMemoryRequirements) are
 * parameters; creating, allocating, binding and submitting are foreign calls
 * and only the values passed to them are modelled.
 */
module VulkanMemory {
  import opened Wrappers

  /** VK_MAX_MEMORY_TYPES: the length of VkPhysicalDeviceMemoryProperties::memoryTypes. */
  const MaxMemoryTypes: nat := 32

  /** A VkMemoryPropertyFlags / VkBufferUsageFlags mask. */
  type Flags = bv32

  /** The part of VkPhysicalDeviceMemoryProperties that find_memory reads:
    * memoryTypeCount and the propertyFlags of each entry of memoryTypes. */
  datatype MemoryProperties = MemoryProperties(memoryTypeCount: nat, memoryTypes: seq<Flags>) {
    /** What the driver guarantees of the structure: a fixed array of 32 entries, of which the first
      * memoryTypeCount are meaningful. */
    predicate Wellformed() {
      memoryTypeCount <= MaxMemoryTypes && |memoryTypes| == MaxMemoryTypes
    }
  }

  /** VkMemoryRequirements as returned for a buffer. */
  datatype MemoryRequirements = MemoryRequirements(size: nat, alignment: nat, memoryTypeBits: bv32)

  datatype MemoryError = UnableToAllocateMemory

  /** Bit i of the requirement's type mask is set: `mem_req.memoryTypeBits & (1 << i)`. */
  predicate TypeAllowed(typeBits: bv32, i: nat)
    requires i < MaxMemoryTypes
  {
    typeBits & ((1 as bv32) << i) != 0
  }

  /** Every required flag is present; extra flags are allowed. */
  predicate HasFlags(have: Flags, required: Flags) {
    have & required == required
  }

  /** The test applied to index i by find_memory. */
  predicate Suitable(props: MemoryProperties, req: MemoryRequirements, required: Flags, i: nat)
    requires props.Wellformed() && i < props.memoryTypeCount
  {
    TypeAllowed(req.memoryTypeBits, i) && HasFlags(props.memoryTypes[i], required)
  }

  /** The lowest index at or above i that passes both tests, if any. */
  function FirstSuitableFrom(props: MemoryProperties, req: MemoryRequirements, required: Flags, i: nat): (r: Option<nat>)
    requires props.Wellformed() && i <= props.memoryTypeCount
    ensures r.Some? ==> i <= r.value < props.memoryTypeCount && Suitable(props, req, required, r.value)
    ensures r.Some? ==> forall j | i <= j < r.value :: !Suitable(props, req, required, j)
    ensures r.None? <==> forall j | i <= j < props.memoryTypeCount :: !Suitable(props, req, required, j)
    decreases props.memoryTypeCount - i
  {
    if i == props.memoryTypeCount then None
    else if Suitable(props, req, required, i) then Some(i)
    else FirstSuitableFrom(props, req, required, i + 1)
  }

  /** The specification of find_memory: first fit over all memory types. */
  function FirstSuitable(props: MemoryProperties, req: MemoryRequirements, required: Flags): Option<nat>
    requires props.Wellformed()
  {
    FirstSuitableFrom(props, req, required, 0)
  }

  /** vk_mem::find_memory: scan the memory types in index order and return the first one allowed by the
    * buffer's type mask whose flags include every required flag; throw when there is none. */
  method FindMemory(props: MemoryProperties, req: MemoryRequirements, required: Flags) returns (r: Result<nat, MemoryError>)
    requires props.Wellformed()
    ensures r.Ok? ==> r.value < props.memoryTypeCount
    ensures r.Ok? ==> TypeAllowed(req.memoryTypeBits, r.value) && HasFlags(props.memoryTypes[r.value], required)
    ensures r.Ok? ==> forall j | 0 <= j < r.value :: !Suitable(props, req, required, j)
    ensures r.Err? <==> forall j | 0 <= j < props.memoryTypeCount :: !Suitable(props, req, required, j)
    ensures r == match FirstSuitable(props, req, required)
                 case Some(i) => Ok(i)
                 case None => Err(UnableToAllocateMemory)
  {
    var i := 0;
    while i < props.memoryTypeCount
      invariant i <= props.memoryTypeCount
      invariant forall j | 0 <= j < i :: !Suitable(props, req, required, j)
      invariant FirstSuitable(props, req, required) == FirstSuitableFrom(props, req, required, i)
    {
      if TypeAllowed(req.memoryTypeBits, i) && HasFlags(props.memoryTypes[i], required) {
        return Ok(i);
      }
      i := i + 1;
    }
    return Err(UnableToAllocateMemory);
  }

  /** With no required flags, find_memory picks the lowest index the buffer's type mask allows. */
  lemma {:induction false} NoRequiredFlagsPicksLowestAllowed(props: MemoryProperties, req: MemoryRequirements, i: nat)
    requires props.Wellformed() && i <= props.memoryTypeCount
    ensures FirstSuitableFrom(props, req, 0, i).Some?
            <==> exists j | i <= j < props.memoryTypeCount :: TypeAllowed(req.memoryTypeBits, j)
    ensures FirstSuitableFrom(props, req, 0, i).Some? ==>
              var k := FirstSuitableFrom(props, req, 0, i).value;
              TypeAllowed(req.memoryTypeBits, k) && forall j | i <= j < k :: !TypeAllowed(req.memoryTypeBits, j)
    decreases props.memoryTypeCount - i
  {
    if i < props.memoryTypeCount {
      assert HasFlags(props.memoryTypes[i], 0);
      NoRequiredFlagsPicksLowestAllowed(props, req, i + 1);
    }
  }

  datatype SharingMode = Exclusive | Concurrent

  /** vk::BufferCreateInfo as filled by create_buffer. */
  datatype BufferCreateInfo = BufferCreateInfo(size: nat, usage: Flags, sharingMode: SharingMode)

  /** vk::MemoryAllocateInfo. */
  datatype MemoryAllocateInfo = MemoryAllocateInfo(allocationSize: nat, memoryTypeIndex: nat)

  /** Everything create_buffer passes to the device: the buffer's create info, the allocation of its
    * memory, and the offset at which the memory is bound to the buffer. */
  datatype BufferSetup = BufferSetup(createInfo: BufferCreateInfo, allocateInfo: MemoryAllocateInfo, bindOffset: nat)

  /** vk_mem::create_buffer. `memReqs` is what the device reports for the freshly created buffer. One
    * dedicated allocation of exactly memReqs.size bytes is made per buffer, of the type find_memory picks,
    * and bound at offset 0; when find_memory throws, the exception leaves create_buffer. */
  method CreateBuffer(props: MemoryProperties, size: nat, usage: Flags, properties: Flags, memReqs: MemoryRequirements)
    returns (r: Result<BufferSetup, MemoryError>)
    requires props.Wellformed()
    requires size < 0x1_0000_0000
    ensures r.Err? <==> FirstSuitable(props, memReqs, properties).None?
    ensures r.Ok? ==> r.value.createInfo == BufferCreateInfo(size, usage, Exclusive)
    ensures r.Ok? ==> r.value.allocateInfo.allocationSize == memReqs.size
    ensures r.Ok? ==> r.value.allocateInfo.memoryTypeIndex == FirstSuitable(props, memReqs, properties).value
    ensures r.Ok? ==> r.value.allocateInfo.memoryTypeIndex < props.memoryTypeCount
    ensures r.Ok? ==> r.value.bindOffset == 0
  {
    var createInfo := BufferCreateInfo(size, usage, Exclusive);
    var memoryType := FindMemory(props, memReqs, properties);
    if memoryType.Err? {
      return Err(memoryType.error);
    }
    var allocateInfo := MemoryAllocateInfo(memReqs.size, memoryType.value);
    return Ok(BufferSetup(createInfo, allocateInfo, 0));
  }

  /** vk::BufferCopy. */
  datatype BufferCopy = BufferCopy(srcOffset: nat, dstOffset: nat, size: nat)

  /** The one-time command buffer copy_buffer records: how many command buffers are allocated, its usage,
    * and the copy regions passed to copyBuffer. */
  datatype CopyCommand = CopyCommand(commandBufferCount: nat, oneTimeSubmit: bool, regions: seq<BufferCopy>)

  type Byte = bv8

  /** A copy region fits buffers of the given lengths (valid usage of vkCmdCopyBuffer). */
  predicate RegionFits(srcLength: nat, dstLength: nat, region: BufferCopy) {
    region.srcOffset + region.size <= srcLength && region.dstOffset + region.size <= dstLength
  }

  predicate RegionsFit(srcLength: nat, dstLength: nat, regions: seq<BufferCopy>) {
    forall k | 0 <= k < |regions| :: RegionFits(srcLength, dstLength, regions[k])
  }

  /** vk_mem::copy_buffer, reduced to the command it records and submits: one command buffer for a single
    * submission, whose regions are valid for two buffers exactly when both hold at least `size` bytes. */
  function CopyBufferCommand(size: nat): (r: CopyCommand)
    ensures r.commandBufferCount == 1 && r.oneTimeSubmit
    ensures forall srcLength: nat, dstLength: nat ::
              RegionsFit(srcLength, dstLength, r.regions) <==> size <= srcLength && size <= dstLength
  {
    var regions := [BufferCopy(0, 0, size)];
    assert forall srcLength: nat, dstLength: nat ::
             RegionsFit(srcLength, dstLength, regions) <==> RegionFits(srcLength, dstLength, regions[0]);
    CopyCommand(1, true, regions)
  }

  /** The effect of copying one region from src into dst. */
  function CopyRegion(src: seq<Byte>, dst: seq<Byte>, region: BufferCopy): (r: seq<Byte>)
    requires RegionFits(|src|, |dst|, region)
    ensures |r| == |dst|
  {
    dst[..region.dstOffset] + src[region.srcOffset..region.srcOffset + region.size] + dst[region.dstOffset + region.size..]
  }

  /** The effect of executing a copy command: its regions, in order. */
  function ExecuteCopy(src: seq<Byte>, dst: seq<Byte>, regions: seq<BufferCopy>): (r: seq<Byte>)
    requires RegionsFit(|src|, |dst|, regions)
    ensures |r| == |dst|
    decreases |regions|
  {
    if regions == [] then dst
    else
      assert RegionFits(|src|, |dst|, regions[0]);
      var next := CopyRegion(src, dst, regions[0]);
      assert RegionsFit(|src|, |next|, regions[1..]) by {
        forall k | 0 <= k < |regions[1..]| ensures RegionFits(|src|, |next|, regions[1..][k]) {
          assert regions[1..][k] == regions[k + 1];
        }
      }
      ExecuteCopy(src, next, regions[1..])
  }

  /** copy_buffer records one region from offset 0 to offset 0 of exactly `size` bytes, on one command
    * buffer meant for a single submission: when both buffers hold at least `size` bytes, executing it makes
    * the first `size` bytes of the destination equal to those of the source and leaves the rest alone. */
  lemma CopyBufferCopiesPrefix(src: seq<Byte>, dst: seq<Byte>, size: nat)
    requires size <= |src| && size <= |dst|
    ensures CopyBufferCommand(size).commandBufferCount == 1 && CopyBufferCommand(size).oneTimeSubmit
    ensures CopyBufferCommand(size).regions == [BufferCopy(0, 0, size)]
    ensures var out := ExecuteCopy(src, dst, CopyBufferCommand(size).regions);
            |out| == |dst| && out[..size] == src[..size] && out[size..] == dst[size..]
  {
    var regions := CopyBufferCommand(size).regions;
    var once := CopyRegion(src, dst, regions[0]);
    assert ExecuteCopy(src, dst, regions) == ExecuteCopy(src, once, regions[1..]);
    assert regions[1..] == [];
    assert once == [] + src[0..size] + dst[size..];
  }
}
