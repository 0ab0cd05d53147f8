# FluentCommand parameter builder, modelled in Dafny

FluentCommand puts a fluent command builder on top of ADO.NET. A caller
configures each parameter of a command through `DataParameter<TValue>`. That
builder wraps one driver parameter (`DbParameter`) and the command that owns it.
Each fluent call (`Name`, `Value`, `Direction`, `Type`, `Size`, `Output`,
`Return`) writes some of the parameter's five properties in place and returns
the builder, so calls chain. These properties are the name, database type,
value, direction and size. `Output` and `Return` also register a callback
with the owning command. The command reads the parameter back into that
callback after execution.

The project has three modules:

- `DataTypes` (types.dfy): the `DbType` and `Direction` enumerations, C#
  `int` as `int32`, and the type mapper. The mapper unwraps `Nullable<T>`
  (`UnderlyingType`) and then applies the `ToDbType` mapping. `ToDbType` is
  passed in as a function, because its table is not part of this model.
- `ParameterSpec` (parameter_spec.dfy): the five properties as a value
  (`ParamRecord`) and each fluent call as a value (`Call`). `Apply` gives the
  effect of one call and `Run` the effect of a chain. `Writes` is the table of
  which fields each call writes, and `Registrations` lists the callbacks a
  chain registers. The lemmas state last-write-wins, framing and
  registration order for every chain of calls.
- `FluentCommand` (data_parameter.dfy): the imperative model. `Param` is the
  driver parameter with mutable fields. `DataCommand` holds the callback list.
  `DataParameter` is the builder, with one method per fluent call. Each method
  states what it writes, what it keeps and what it appends, and ties the
  parameter's new state to `ParameterSpec.Apply` on the old state. `Chain`
  makes any sequence of fluent calls on the builder and is proved to leave
  the parameter as `ParameterSpec.Run` gives it, and the command's callback
  list extended by exactly the entries of `ParameterSpec.Registrations`, so
  the lemmas about `Run` and `Registrations` describe every chain of these
  method calls. Two client
  methods, `ConfigureInput` and `ConfigureCallbacks`, show what a caller can
  conclude from the contracts alone.

A C# `null` argument to `Value` is `None` in the model. A driver parameter
whose `Value` property was never assigned holds `Absent`; `DBNull` is the
database-null marker. This lets the model state outright that `Value` never
stores an absent value.

## Model

| member | source | states |
|---|---|---|
| DataTypes.NullableMapsLikeUnderlying | Source/FluentCommand/DataParameter.cs:48 | the type Value writes is the mapping of the unwrapped value type, so `T?` and `T` give the same database type |
| ParameterSpec.Stored | Source/FluentCommand/DataParameter.cs:46-49 | the stored value is never absent; it is DBNull exactly when the argument is null, and otherwise it is the argument |
| ParameterSpec.Apply | Source/FluentCommand/DataParameter.cs:33-115 | after one fluent call, each field the call writes holds the written content and every other field is unchanged |
| DataTypes.UnderlyingType | Source/FluentCommand/DataParameter.cs:48 | the unwrapped type keeps the type's name and is not nullable; a type that is not nullable is its own underlying type |
| DataTypes.ValueDbType | Source/FluentCommand/DataParameter.cs:48 | the database type for a value type does not depend on whether the type is wrapped in `Nullable<>`: it is the mapping of the unwrapped type either way |
| FluentCommand.DataParameter.MappedType | Source/FluentCommand/DataParameter.cs:48 | the type Value writes for this builder is the same whether or not its value type is wrapped in `Nullable<>` |
| ParameterSpec.Registrations | Source/FluentCommand/DataParameter.cs:92-115 | a chain registers no more callbacks than it has calls, and every callback it registers is that of one of its Output or Return calls |
| ParameterSpec.Run | Source/FluentCommand/DataParameter.cs:33-115 | after a chain of calls, the value is absent exactly when it was absent before and the chain holds no Value call |
| ParameterSpec.RunAppend | Source/FluentCommand/DataParameter.cs:33-115 | running a chain that is the concatenation of two chains has the same effect as running the first and then the second from where it left off |
| ParameterSpec.FinalField | Source/FluentCommand/DataParameter.cs:33-115 | after any chain, each field holds what the last call writing it wrote, or its initial content if no call wrote it |
| ParameterSpec.TypeAfterAnything | Source/FluentCommand/DataParameter.cs:70-74 | a Type call sets the database type to its argument whatever came before, Value included, and changes nothing else |
| ParameterSpec.ValueAfterAnything | Source/FluentCommand/DataParameter.cs:44-52 | a Value call sets the mapped type and the stored value whatever came before, Type included, and changes nothing else |
| ParameterSpec.TypeAndValueOrder | Source/FluentCommand/DataParameter.cs:44-74 | Value then Type leaves the explicit type; Type then Value leaves the mapped type; both keep the stored value |
| ParameterSpec.ReturnAfterAnything | Source/FluentCommand/DataParameter.cs:105-115 | Return sets the name to "@ReturnValue" and the direction to ReturnValue whatever they were, and keeps value, type and size |
| ParameterSpec.ApplyIdempotent | Source/FluentCommand/DataParameter.cs:33-115 | repeating any fluent call right away has no further effect on the parameter record, but a repeated Output or Return registers its callback twice |
| ParameterSpec.RegistrationsAppend | Source/FluentCommand/DataParameter.cs:92-115 | the callbacks two chains register, made one after the other, are the first chain's followed by the second's |
| ParameterSpec.RegistrationsGrowByCall | Source/FluentCommand/DataParameter.cs:92-115 | each further call appends exactly its own callback at the end if it is Output or Return, and nothing otherwise |
| ParameterSpec.NoRegistrationsWithoutCallbacks | Source/FluentCommand/DataParameter.cs:33-85 | a chain of Name, Value, Direction, Type and Size calls registers no callback |
| FluentCommand.DataCommand.RegisterCallback | Source/FluentCommand/DataParameter.cs:95 | registering appends one (parameter, callback, value type) entry to the end of the command's callback list |
| FluentCommand.DataParameter.constructor | Source/FluentCommand/DataParameter.cs:22-26 | the builder keeps the command and the parameter it is given |
| FluentCommand.DataParameter.Name | Source/FluentCommand/DataParameter.cs:33-37 | sets the name; type, value, direction, size and the command are unchanged; returns the same builder |
| FluentCommand.DataParameter.Value | Source/FluentCommand/DataParameter.cs:44-52 | sets the type to the mapping of the unwrapped value type and the value to the argument, or DBNull when it is null; name, direction, size and the command are unchanged; returns the same builder |
| FluentCommand.DataParameter.Direction | Source/FluentCommand/DataParameter.cs:59-63 | sets the direction; every other field and the command are unchanged; returns the same builder |
| FluentCommand.DataParameter.Type | Source/FluentCommand/DataParameter.cs:70-74 | overwrites the database type; every other field and the command are unchanged; returns the same builder |
| FluentCommand.DataParameter.Size | Source/FluentCommand/DataParameter.cs:81-85 | sets the size to any 32-bit value, unvalidated; every other field and the command are unchanged; returns the same builder |
| FluentCommand.DataParameter.Output | Source/FluentCommand/DataParameter.cs:92-98 | sets the direction to InputOutput and appends exactly (this parameter, callback, value type) to the command's callback list; name, type, value and size are unchanged |
| FluentCommand.DataParameter.Perform | Source/FluentCommand/DataParameter.cs:33-115 | one fluent call of any kind changes the parameter as `Apply` says and appends exactly the entries of the callbacks it registers |
| FluentCommand.DataParameter.Chain | Source/FluentCommand/DataParameter.cs:33-115 | any sequence of fluent calls on the builder leaves the parameter as `Run` gives it and appends to the command's callback list one entry of this parameter per Output or Return call, in call order |
| FluentCommand.DataParameter.Return | Source/FluentCommand/DataParameter.cs:105-115 | sets the name to "@ReturnValue" and the direction to ReturnValue and appends exactly (this parameter, callback, value type) to the command's callback list; type, value and size are unchanged |

## Left out

- `ToDbType` and `GetUnderlyingType` live in `FluentCommand.Extensions`, which is not part of this model. The mapping is a parameter of the builder, taken as total (whether it can fail for an unsupported type is not modelled). Unwrapping is modelled as dropping a `Nullable<>` flag.
- `DataCommand` is not part of this model. `RegisterCallback` is modelled as appending one entry, and the command is reduced to its callback list. Executing the command, dispatching callbacks after execution, converting output values, and caching with cache keys and expiration are all left out. They are database and cache-store I/O in code that is not shown. The `IDataCommand` interface has no bodies to model.
- Callbacks are opaque identifiers; invoking them is not modelled.
- Values are of one type parameter `V` per command. In the source, each builder has its own `TValue` and the driver parameter stores an `object`, so one command can hold parameters of different value types.
- FluentCommand.DataParameter.Name: a C# `null` name is not modelled; names are strings.
- ParameterSpec.Stored: `V` stands for values other than the `DBNull.Value` object itself. In the source a non-null argument that is `DBNull.Value` (for `TValue` = `object`) is stored as that same marker, so there the marker is stored when the argument is null or is the marker; the model's "DBNull exactly when the argument is null" holds only for such `V`.
- FluentCommand.Param: the driver parameter is modelled as a plain store of five properties. Each setter stores its argument, never throws, and changes no other property. Provider-specific behaviour is left out. A provider may validate a size or direction and throw (one that rejects a negative size, say), or derive a size from the value when none was set. `Direction` and `DbType` hold only their named members, while C# enums accept any integer. The "unchanged" frames and "Size sets any 32-bit value" therefore describe the builder's own writes, not every provider's setters.
