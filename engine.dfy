/**
 * The engine value types the scripts pass around. Positions and scales are
 * reals (floating-point rounding is not modelled); a colour is a Color32 of
 * four byte channels; a rotation is the yaw of `Quaternion.Euler(0, y, 0)`,
 * the only kind of rotation the generation code ever builds.
 */
module Engine {

  datatype Option<T> = None | Some(value: T)

  datatype Vector3 = Vector3(x: real, y: real, z: real)
  {
    function Plus(other: Vector3): Vector3
    {
      Vector3(x + other.x, y + other.y, z + other.z)
    }
  }

  datatype Color32 = Color32(r: int, g: int, b: int, a: int)

  /** Rotation about the vertical axis by `yaw` degrees. */
  datatype Rotation = EulerY(yaw: int)

  /** `Quaternion.identity`. */
  const Identity := EulerY(0)
}
