/** Value types shared by the parameter builder: the portable database type
    enumeration, parameter directions, the 32-bit integers of the size
    property, and the type mapper that turns a value type into a database
    type. */
module DataTypes {

  datatype Option<T> = None | Some(value: T)

  /** The portable database type enumeration (System.Data.DbType). */
  datatype DbType =
    | AnsiString | Binary | Byte | Boolean | Currency | Date | DateTime
    | Decimal | Double | Guid | Int16 | Int32 | Int64 | Object | SByte
    | Single | String | Time | UInt16 | UInt32 | UInt64 | VarNumeric
    | AnsiStringFixedLength | StringFixedLength | Xml | DateTime2
    | DateTimeOffset

  /** Whether a parameter feeds the call, receives from it, both, or carries
      a stored procedure's return value (System.Data.ParameterDirection). */
  datatype Direction = Input | Output | InputOutput | ReturnValue

  /** A C# `int`. */
  type int32 = x: int | -0x8000_0000 <= x < 0x8000_0000

  /** A value type as the type mapper sees it: its name, and whether it is
      wrapped in `Nullable<>`. */
  datatype TypeTag = TypeTag(name: string, nullable: bool)

  /** The type a nullable wrapper stands for; any other type is itself. */
  function UnderlyingType(t: TypeTag): (u: TypeTag)
    ensures u.name == t.name && !u.nullable
    ensures !t.nullable ==> u == t
  {
    t.(nullable := false)
  }

  /** The database type the builder writes for values of type `valueType`:
      the mapping `typeMap` applied to the nullable-unwrapped type. */
  function ValueDbType(typeMap: TypeTag -> DbType, valueType: TypeTag): (r: DbType)
    ensures forall b: bool :: r == typeMap(UnderlyingType(valueType.(nullable := b)))
  {
    typeMap(UnderlyingType(valueType))
  }

  /** A nullable wrapper maps to the same database type as the type it
      wraps, whatever the mapping. */
  lemma NullableMapsLikeUnderlying(typeMap: TypeTag -> DbType, t: TypeTag)
    ensures ValueDbType(typeMap, t.(nullable := true)) == ValueDbType(typeMap, t.(nullable := false))
  {
  }
}
