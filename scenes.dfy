/** What the render passes read from the scene and the geometry cache. */
module Scenes {
  import opened Linear
  import opened Gpu

  /** A camera-face-culled point light: its position, radius and per-light bind group. */
  datatype PointLight = PointLight(position: Vec3, radius: real, bindGroup: Id)

  datatype Scene = Scene(
    pointLights: seq<PointLight>,   // lightingManager.cameraFaceCulledPointLights, in order
    lightingBuffer: Id,             // lightingManager.gpuBuffer
    lightsBuffer: Id)               // lightsBuffer

  /** A cached proxy mesh (the point-light sphere). */
  datatype ProxyGeometry = ProxyGeometry(indexBuffer: Id, vertexBuffer: Id, indexCount: nat)
}
