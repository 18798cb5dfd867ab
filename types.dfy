/** Values shared by the Vulkan rendering context of the renderer: opaque
    Vulkan handles, guest notifications and the completion requests that the
    render thread hands to the fence-wait thread. */
module VulkanTypes {

  /** An opaque Vulkan handle (command buffer, fence, render pass, ...).
      0 stands for VK_NULL_HANDLE / nullptr. */
  type Handle = int

  const NULL_HANDLE: Handle := 0

  /** A guest address; 0 is the null guest pointer. */
  type Address = nat

  type uint32 = x: int | 0 <= x < 0x1_0000_0000

  datatype Option<T> = None | Some(value: T)

  /** SceGxmNotification: a guest address and the value to write there once
      the GPU work it belongs to has completed. An address of 0 means "no
      notification". */
  datatype Notification = Notification(address: Address, value: uint32)
  {
    predicate IsSet() { address != 0 }
  }

  /** The closed sum of completion requests consumed by the fence-wait thread. */
  datatype Request =
    | NotificationRequest(first: Notification, second: Notification, fence: Handle)
    | FrameDoneRequest(frameTimestamp: nat)
    | PostSurfaceSyncRequest(cacheInfo: Handle)
}
