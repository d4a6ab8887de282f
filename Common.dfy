/** Shared vocabulary of the gameplay model. */
module Common {

  /** A reference that may be null, or a lookup that may miss. */
  datatype Option<T> = None | Some(value: T)

  /** A transform placed in the scene (a spawn point, a goulag cell).
      Positions and rotations are floats in the game; the model only
      needs to know WHICH transform a player was moved to. */
  datatype Transform = Transform(id: nat)

  /** A world position. */
  datatype Vec3 = Vec3(x: real, y: real, z: real)

  const Zero := Vec3(0.0, 0.0, 0.0)

  /** Mathf.Max on integers. */
  function Max(a: int, b: int): int
  {
    if a >= b then a else b
  }
}
