/** Value types shared by the whole model: nullable references, C# `decimal`
    and clock readings. */
module Primitives {

  /** A C# reference that may be null. */
  datatype Option<+T> = None | Some(value: T) {

    /** The `??` operator: the value, or `default` when null. */
    function GetOr(default: T): T {
      if Some? then value else default
    }
  }

  /** A C# `string` that may be null. */
  type NullableString = Option<string>

  /** C# `decimal`. The core only copies and compares amounts, never does
      arithmetic on them, so an exact rational stands for the exact decimal. */
  type Decimal = real

  /** One reading of `DateTime.UtcNow` or `DateTime.Now`, in ticks. */
  type Timestamp = int
}
