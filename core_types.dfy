/** Plain value types that the animation backend borrows from Qt:
    fixed-width integers, nullable pointers and node identifiers. */
module CoreTypes {

  /** A C++ `int` (32-bit, two's complement). */
  type Int32 = x: int | -0x8000_0000 <= x < 0x8000_0000

  /** A `qint64`. */
  type Int64 = x: int | -0x8000_0000_0000_0000 <= x < 0x8000_0000_0000_0000

  /** A `quint64`. */
  type UInt64 = x: int | 0 <= x < 0x1_0000_0000_0000_0000

  /** A pointer that may be null: `None` is `nullptr`. */
  datatype Option<+T> = None | Some(value: T)

  /** `Qt3DCore::QNodeId`: a 64-bit identifier whose default value 0 is the null id. */
  datatype NodeId = NodeId(id: UInt64)
  {
    predicate IsNull() { id == 0 }
  }

  /** The value of a default-constructed `QNodeId`. */
  const NullNodeId: NodeId := NodeId(0)

  /** Opaque handles for objects the animation core only passes along. */
  datatype SkeletonHandle = SkeletonHandle(address: nat)
  datatype CallbackHandle = CallbackHandle(address: nat)

  /** An opaque `QVariant` value. */
  datatype VariantValue = VariantValue(handle: nat)
}
