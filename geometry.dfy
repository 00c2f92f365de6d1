/** The geometry snapshot the gesture engine hands to the hooks every frame:
    `currentPosition`, `currentRotation` (degrees about each axis; the cursor
    choice reads `z`) and `currentSize`. */
module Geometry {
  datatype Position = Position(x: real, y: real)
  datatype Rotation = Rotation(x: real, y: real, z: real)
  datatype Size = Size(width: real, height: real)

  /** The three values `useHandler` closes over. */
  datatype Snapshot = Snapshot(currentPosition: Position, currentRotation: Rotation, currentSize: Size)

  /** The object literal `{position, rotation, size}` passed to a gesture callback. */
  datatype Payload = Payload(position: Position, rotation: Rotation, size: Size)
}
