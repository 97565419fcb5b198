/** Engine-level values shared by the three editor plugins. */
module Basics {

  datatype Option<+T> = None | Some(value: T)

  /** Rust's `u32`: the width of grid sizes, zone indices and grid values. */
  newtype u32 = x: int | 0 <= x < 0x1_0000_0000

  datatype Vec3 = Vec3(x: real, y: real, z: real)
  datatype Quat = Quat(x: real, y: real, z: real, w: real)

  /** The engine's placement transform. The model only copies and compares it. */
  datatype Transform = Transform(translation: Vec3, rotation: Quat, scale: Vec3)

  /** `Transform::default()`: no translation, no rotation, unit scale. */
  const IDENTITY: Transform :=
    Transform(Vec3(0.0, 0.0, 0.0), Quat(0.0, 0.0, 0.0, 1.0), Vec3(1.0, 1.0, 1.0))

  /** Why a save or load did not happen. */
  datatype PersistError = NoDocument(key: string)

  /** The result of a save or load: on failure the caller's state is left as it was. */
  datatype Outcome = Pass | Fail(error: PersistError)
}
