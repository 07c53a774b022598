/**
 * The parts of the host engine's scene that the observation mode touches.
 * Transforms and cameras are objects: the mode refers to them by address,
 * never by value or by name.
 */
module SceneGraph {

  /** A world position. Coordinates are exact reals: float rounding is not modelled. */
  datatype Vec3 = Vec3(x: real, y: real, z: real)

  /** A named node of the scene. Its name is fixed once loaded; its position is
    * changed in place by whoever holds a pointer to it. */
  class Transform {
    const name: string
    var position: Vec3

    constructor (name: string, position: Vec3)
      ensures this.name == name && this.position == position
    {
      this.name := name;
      this.position := position;
    }
  }

  /** A camera of the scene, identified by its address. */
  class Camera {
  }

  /** The scene's ordered camera list and ordered transform list. The lists
    * themselves are never edited by the mode. */
  datatype Scene = Scene(cameras: seq<Camera>, transforms: seq<Transform>)
}
