/** The queue-create list and device create-info that create_logical_device
    hands to vkCreateDevice. */
module LogicalDevice {
  import opened Config
  import opened DeviceSelection

  /** One VkDeviceQueueCreateInfo (its float priority 1.0 is left out). */
  datatype QueueCreateInfo = QueueCreateInfo(queueFamilyIndex: nat, queueCount: nat)

  /** The parts of VkDeviceCreateInfo the application fills. */
  datatype DeviceCreateInfo = DeviceCreateInfo(
    queueCreateInfos: seq<QueueCreateInfo>,
    queueCreateInfoCount: nat,
    enabledExtensionNames: seq<string>,
    enabledExtensionCount: nat,
    enabledLayerNames: seq<string>,
    enabledLayerCount: nat)

  /** The families of a queue-create list, as a set. */
  function Families(infos: seq<QueueCreateInfo>): set<nat>
  {
    set k | 0 <= k < |infos| :: infos[k].queueFamilyIndex
  }

  /** create_logical_device before vkCreateDevice: one queue-create entry per
      distinct family of {graphics, present}, visited in ascending order as a
      std::set does, each with one queue; queueCreateInfoCount is written as 1. */
  method MakeDeviceCreateInfo(enableValidation: bool, graphicsFamily: nat, presentFamily: nat)
    returns (info: DeviceCreateInfo)
    ensures |info.queueCreateInfos| == |{graphicsFamily, presentFamily}|
    ensures Families(info.queueCreateInfos) == {graphicsFamily, presentFamily}
    ensures forall k :: 0 <= k < |info.queueCreateInfos| ==> info.queueCreateInfos[k].queueCount == 1
    ensures forall k, m :: 0 <= k < m < |info.queueCreateInfos| ==>
              info.queueCreateInfos[k].queueFamilyIndex < info.queueCreateInfos[m].queueFamilyIndex
    ensures info.queueCreateInfoCount == 1
    ensures info.enabledExtensionNames == DEVICE_EXTENSIONS
    ensures info.enabledExtensionCount == |DEVICE_EXTENSIONS|
    ensures info.enabledLayerNames == (if enableValidation then VALIDATION_LAYERS else [])
    ensures info.enabledLayerCount == (if enableValidation then |VALIDATION_LAYERS| else 0)
  {
    var uniqueQueueFamilies: seq<nat> :=
      if graphicsFamily == presentFamily then [graphicsFamily]
      else if graphicsFamily < presentFamily then [graphicsFamily, presentFamily]
      else [presentFamily, graphicsFamily];
    var queueCreateInfos: seq<QueueCreateInfo> := [];
    for k := 0 to |uniqueQueueFamilies|
      invariant |queueCreateInfos| == k
      invariant forall m :: 0 <= m < k ==> queueCreateInfos[m] == QueueCreateInfo(uniqueQueueFamilies[m], 1)
    {
      queueCreateInfos := queueCreateInfos + [QueueCreateInfo(uniqueQueueFamilies[k], 1)];
    }
    assert queueCreateInfos[0].queueFamilyIndex in Families(queueCreateInfos);
    assert queueCreateInfos[|queueCreateInfos| - 1].queueFamilyIndex in Families(queueCreateInfos);
    if graphicsFamily == presentFamily {
      assert {graphicsFamily, presentFamily} == {graphicsFamily};
    } else {
      assert |{graphicsFamily, presentFamily}| == 2;
    }
    info := DeviceCreateInfo(queueCreateInfos, 1, DEVICE_EXTENSIONS, |DEVICE_EXTENSIONS|, [], 0);
    if enableValidation {
      info := info.(enabledLayerNames := VALIDATION_LAYERS, enabledLayerCount := |VALIDATION_LAYERS|);
    }
  }

  /** Because find_queue_families puts one family in both roles, the set of
      distinct families has one element: the hard-coded queueCreateInfoCount
      of 1 covers the whole list. */
  lemma QueueCreateListHasOneEntry(families: seq<Vk.QueueFamily>)
    requires QueueFamilies(families).Ok? && QueueFamilies(families).value.IsIndexComplete()
    ensures var indices := QueueFamilies(families).value;
            |{indices.graphicsFamily.value, indices.presentFamily.value}| == 1
  {
    QueueFamiliesOutcome(families);
    var indices := QueueFamilies(families).value;
    assert {indices.graphicsFamily.value, indices.presentFamily.value} == {indices.graphicsFamily.value};
  }
}
