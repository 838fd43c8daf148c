/**
 * The instance-creation path of vulkanLoader.cpp: enumerating the instance extensions, checking the
 * desired ones against them, and the create info handed to vkCreateInstance. The two calls to
 * vkEnumerateInstanceExtensionProperties and the call to vkCreateInstance are described by their results.
 */
module VulkanLoader {
  import opened Wrappers

  /** The VkResult values the code distinguishes; every other value is an error. */
  datatype VkResult = Success | Incomplete | ErrorOutOfHostMemory | ErrorOutOfDeviceMemory
                    | ErrorInitializationFailed | ErrorLayerNotPresent | ErrorExtensionNotPresent
                    | ErrorIncompatibleDriver

  /** VkExtensionProperties. A value-initialised entry has an empty name and version 0. */
  datatype ExtensionProperties = ExtensionProperties(extensionName: string, specVersion: nat)

  const EmptyExtension := ExtensionProperties("", 0)

  /** std::vector::resize: keeps the first n entries, appending value-initialised ones when growing. */
  function Resize(v: seq<ExtensionProperties>, n: nat): (r: seq<ExtensionProperties>)
    ensures |r| == n
    ensures forall k | 0 <= k < n && k < |v| :: r[k] == v[k]
    ensures forall k | |v| <= k < n :: r[k] == EmptyExtension
  {
    if n <= |v| then v[..n] else v + seq(n - |v|, _ => EmptyExtension)
  }

  /** What the two calls of vkEnumerateInstanceExtensionProperties report: the result and count of the
    * first (count-only) call, and the result and the entries written by the second. */
  datatype Enumeration = Enumeration(countResult: VkResult, count: nat, fillResult: VkResult,
                                     written: seq<ExtensionProperties>)

  /** The first call succeeded with a non-zero count, so the vector is resized and filled. */
  predicate CountObtained(e: Enumeration) {
    e.countResult == Success && e.count != 0
  }

  /** Both calls succeeded with non-zero counts. */
  predicate EnumerationSucceeded(e: Enumeration) {
    CountObtained(e) && e.fillResult == Success && |e.written| != 0
  }

  /** The vector after the second call: resized to the first count, then its first entries overwritten by
    * what the second call wrote. */
  function Filled(prior: seq<ExtensionProperties>, e: Enumeration): (r: seq<ExtensionProperties>)
    requires |e.written| <= e.count
    ensures |r| == e.count
  {
    e.written + Resize(prior, e.count)[|e.written|..]
  }

  /** CheckAvailableInstanceExtensions. `available` is the vector passed by reference; its new value is
    * returned. The driver never writes more entries than the count it was given. */
  method CheckAvailableInstanceExtensions(available: seq<ExtensionProperties>, e: Enumeration)
    returns (ok: bool, availableOut: seq<ExtensionProperties>)
    requires |e.written| <= e.count
    ensures ok <==> EnumerationSucceeded(e)
    ensures !CountObtained(e) ==> availableOut == available
    ensures CountObtained(e) ==> availableOut == Filled(available, e)
  {
    if e.countResult != Success || e.count == 0 {
      return false, available;
    }
    availableOut := Resize(available, e.count);
    availableOut := e.written + availableOut[|e.written|..];
    if e.fillResult != Success || |e.written| == 0 {
      return false, availableOut;
    }
    ok := true;
  }

  /** On success the vector holds exactly the first count's number of entries, starting with the ones the
    * driver wrote; when the driver wrote fewer, the rest of a vector that started empty are empty names. */
  lemma {:induction false} FilledFromEmpty(e: Enumeration)
    requires |e.written| <= e.count
    ensures |Filled([], e)| == e.count
    ensures Filled([], e)[..|e.written|] == e.written
    ensures forall k | |e.written| <= k < e.count :: Filled([], e)[k] == EmptyExtension
  {
    var r := Filled([], e);
    var padding := Resize([], e.count)[|e.written|..];
    assert r == e.written + padding;
    forall k | |e.written| <= k < e.count
      ensures r[k] == EmptyExtension
    {
      assert r[k] == padding[k - |e.written|];
    }
  }

  /** The test of IsExtensionSupported as written: `strcmp` returns non-zero for DIFFERENT names, and a
    * non-zero result is taken as "found". */
  predicate SupportedAsWritten(available: seq<ExtensionProperties>, desired: string) {
    exists k | 0 <= k < |available| :: available[k].extensionName != desired
  }

  /** The test IsExtensionSupported evidently means: some available extension has the desired name. */
  predicate Supported(available: seq<ExtensionProperties>, desired: string) {
    exists k | 0 <= k < |available| :: available[k].extensionName == desired
  }

  /** IsExtensionSupported, as written: the scan stops at the first entry whose name differs from the
    * desired one and reports the extension supported. */
  method IsExtensionSupported(available: seq<ExtensionProperties>, desired: string) returns (supported: bool)
    ensures supported <==> SupportedAsWritten(available, desired)
    ensures available == [] ==> !supported
    ensures (forall k | 0 <= k < |available| :: available[k].extensionName == desired) ==> !supported
  {
    var i := 0;
    while i < |available|
      invariant i <= |available|
      invariant forall k | 0 <= k < i :: available[k].extensionName == desired
    {
      if available[i].extensionName != desired {
        return true;
      }
      i := i + 1;
    }
    return false;
  }

  /** IsExtensionSupported with the comparison the code evidently means (`strcmp(...) == 0`). */
  method IsExtensionSupportedIntended(available: seq<ExtensionProperties>, desired: string) returns (supported: bool)
    ensures supported <==> Supported(available, desired)
  {
    var i := 0;
    while i < |available|
      invariant i <= |available|
      invariant forall k | 0 <= k < i :: available[k].extensionName != desired
    {
      if available[i].extensionName == desired {
        return true;
      }
      i := i + 1;
    }
    return false;
  }

  /** The two tests disagree in both directions: an extension the driver lists alone is rejected, and one
    * the driver does not list is accepted as soon as any other extension is listed. */
  lemma StrcmpTestInverted()
    ensures var surface := ExtensionProperties("VK_KHR_surface", 25);
            && !SupportedAsWritten([surface], "VK_KHR_surface") && Supported([surface], "VK_KHR_surface")
            && SupportedAsWritten([surface], "VK_KHR_swapchain") && !Supported([surface], "VK_KHR_swapchain")
  {
    var surface := ExtensionProperties("VK_KHR_surface", 25);
    assert [surface][0].extensionName == "VK_KHR_surface";
    assert |"VK_KHR_surface"| != |"VK_KHR_swapchain"|;
  }

  /** With at least two distinct names available, the test as written accepts every extension name. */
  lemma AsWrittenAcceptsEverything(available: seq<ExtensionProperties>, i: nat, j: nat, desired: string)
    requires i < |available| && j < |available|
    requires available[i].extensionName != available[j].extensionName
    ensures SupportedAsWritten(available, desired)
  {
    if available[i].extensionName == desired {
      assert available[j].extensionName != desired;
    } else {
      assert available[i].extensionName != desired;
    }
  }

  /** VK_MAKE_VERSION(major, minor, patch). */
  function MakeVersion(major: nat, minor: nat, patch: nat): nat {
    major * 0x40_0000 + minor * 0x1000 + patch
  }

  /** The fields of VkApplicationInfo and VkInstanceCreateInfo that CreateInstance fills. A null
    * ppEnabledExtensionNames is None. */
  datatype LoaderCreateInfo = LoaderCreateInfo(
    applicationName: string, applicationVersion: nat, engineName: string, engineVersion: nat, apiVersion: nat,
    enabledLayerCount: nat, enabledExtensionCount: nat, enabledExtensionNames: Option<seq<string>>)

  /** How CreateInstance ends: before any create info when enumeration fails or a desired extension is
    * reported unsupported (by its index), or after vkCreateInstance with the create info it was given. */
  datatype InstanceOutcome =
    | EnumerationFailed
    | ExtensionUnsupported(index: nat)
    | CreationFailed(info: LoaderCreateInfo)
    | Created(info: LoaderCreateInfo)

  /** The create info CreateInstance builds for the desired extensions; `headerVersion` is
    * VK_HEADER_VERSION of the headers compiled against. */
  function InstanceInfo(desired: seq<string>, headerVersion: nat): (info: LoaderCreateInfo)
    ensures info.enabledExtensionCount == |desired|
    ensures info.enabledExtensionNames.None? <==> desired == []
    ensures info.enabledExtensionNames.Some? ==> info.enabledExtensionNames.value == desired
    ensures info.enabledLayerCount == 0
  {
    LoaderCreateInfo("Vulkan cookbook", MakeVersion(1, 0, 0), "Vulkan cookbook (engine)", MakeVersion(1, 0, 0),
                     MakeVersion(1, 0, headerVersion), 0, |desired|,
                     if |desired| > 0 then Some(desired) else None)
  }

  /** CreateInstance. The enumeration fills a fresh, empty vector; `createResult` and `handleNonNull` are
    * what vkCreateInstance returns and whether the handle it stores is non-null. */
  method CreateInstance(desired: seq<string>, e: Enumeration, headerVersion: nat, createResult: VkResult,
                        handleNonNull: bool)
    returns (ok: bool, outcome: InstanceOutcome)
    requires |e.written| <= e.count
    ensures ok <==> outcome.Created?
    ensures outcome == EnumerationFailed <==> !EnumerationSucceeded(e)
    ensures outcome.ExtensionUnsupported? ==>
              && EnumerationSucceeded(e)
              && outcome.index < |desired|
              && !SupportedAsWritten(Filled([], e), desired[outcome.index])
              && forall j | 0 <= j < outcome.index :: SupportedAsWritten(Filled([], e), desired[j])
    ensures outcome.CreationFailed? || outcome.Created? ==>
              && EnumerationSucceeded(e)
              && (forall j | 0 <= j < |desired| :: SupportedAsWritten(Filled([], e), desired[j]))
              && outcome.info == InstanceInfo(desired, headerVersion)
    ensures outcome.Created? <==>
              && EnumerationSucceeded(e)
              && (forall j | 0 <= j < |desired| :: SupportedAsWritten(Filled([], e), desired[j]))
              && createResult == Success && handleNonNull
  {
    var enumerated, available := CheckAvailableInstanceExtensions([], e);
    if !enumerated {
      return false, EnumerationFailed;
    }
    var i := 0;
    while i < |desired|
      invariant i <= |desired|
      invariant forall j | 0 <= j < i :: SupportedAsWritten(available, desired[j])
    {
      var supported := IsExtensionSupported(available, desired[i]);
      if !supported {
        return false, ExtensionUnsupported(i);
      }
      i := i + 1;
    }
    var info := InstanceInfo(desired, headerVersion);
    if createResult != Success || !handleNonNull {
      return false, CreationFailed(info);
    }
    return true, Created(info);
  }
}
