/** The fluent parameter builder over a mutable driver parameter and the
    command that owns it. Every fluent call writes properties of the wrapped
    parameter in place and returns the builder itself; Output and Return
    also register a callback with the owning command. Each method is proved
    against ParameterSpec.Apply, so the lemmas about chains in ParameterSpec
    apply to any sequence of these calls. */
module FluentCommand {
  import opened DataTypes
  import opened ParameterSpec

  /** The driver's parameter object: the five properties the builder writes. */
  class Param<V> {
    var name: string
    var dbType: DbType
    var value: PValue<V>
    var direction: Direction
    var size: int32

    constructor (name: string, dbType: DbType, value: PValue<V>, direction: Direction, size: int32)
      ensures Record() == ParamRecord(name, dbType, value, direction, size)
    {
      this.name := name;
      this.dbType := dbType;
      this.value := value;
      this.direction := direction;
      this.size := size;
    }

    /** The current properties, as a value. */
    function Record(): ParamRecord<V>
      reads this
    {
      ParamRecord(name, dbType, value, direction, size)
    }
  }

  /** One entry of a command's callback list: the parameter to read back
      after execution, the callback to hand its value to, and the value type
      the value is to be converted to. */
  datatype Registration<V> = Registration(param: Param<V>, callback: CallbackId, valueType: TypeTag)

  /** The owning command, reduced to the callback list the builder appends to. */
  class DataCommand<V> {
    var callbacks: seq<Registration<V>>

    constructor ()
      ensures callbacks == []
    {
      callbacks := [];
    }

    /** Records that `callback` is to receive the value of `p` after execution. */
    method RegisterCallback(p: Param<V>, callback: CallbackId, valueType: TypeTag)
      modifies this
      ensures callbacks == old(callbacks) + [Registration(p, callback, valueType)]
    {
      callbacks := callbacks + [Registration(p, callback, valueType)];
    }
  }

  /** The entries the callbacks `ids` of parameter `p` add to a command's
      callback list, in order. */
  function Entries<V>(p: Param<V>, ids: seq<CallbackId>, valueType: TypeTag): (r: seq<Registration<V>>)
    ensures |r| == |ids|
    ensures forall j | 0 <= j < |ids| :: r[j] == Registration(p, ids[j], valueType)
    decreases |ids|
  {
    if ids == [] then [] else [Registration(p, ids[0], valueType)] + Entries(p, ids[1..], valueType)
  }

  /** The entries of two lists of callbacks are the entries of the first
      followed by those of the second. */
  lemma EntriesAppend<V>(p: Param<V>, a: seq<CallbackId>, b: seq<CallbackId>, valueType: TypeTag)
    ensures Entries(p, a + b, valueType) == Entries(p, a, valueType) + Entries(p, b, valueType)
  {
    var l, r := Entries(p, a + b, valueType), Entries(p, a, valueType) + Entries(p, b, valueType);
    assert |l| == |r|;
    forall j | 0 <= j < |l| ensures l[j] == r[j] {
      if j >= |a| {
        assert (a + b)[j] == b[j - |a|];
      }
    }
  }

  /** One more call of a chain: the record takes that call's effect and the
      callback entries grow by that call's entries. */
  lemma ChainStep<V>(p0: ParamRecord<V>, mapped: DbType, p: Param<V>, valueType: TypeTag, calls: seq<Call<V>>, i: nat)
    requires i < |calls|
    ensures Run(p0, mapped, calls[..i + 1]) == Apply(Run(p0, mapped, calls[..i]), mapped, calls[i])
    ensures Entries(p, Registrations(calls[..i + 1]), valueType) ==
      Entries(p, Registrations(calls[..i]), valueType) + Entries(p, Registers(calls[i]), valueType)
  {
    assert calls[..i + 1] == calls[..i] + [calls[i]];
    RunAppend(p0, mapped, calls[..i], [calls[i]]);
    RegistrationsGrowByCall(calls[..i], calls[i]);
    EntriesAppend(p, Registrations(calls[..i]), Registers(calls[i]), valueType);
  }

  /** The fluent builder for one parameter whose values have type `valueType`.
      `typeMap` is the type mapper (ToDbType), which is not part of this
      model and is fixed when the builder is made. */
  class DataParameter<V> {
    const dataCommand: DataCommand<V>
    const parameter: Param<V>
    const valueType: TypeTag
    const typeMap: TypeTag -> DbType

    constructor (dataCommand: DataCommand<V>, parameter: Param<V>, valueType: TypeTag, typeMap: TypeTag -> DbType)
      ensures this.dataCommand == dataCommand && this.parameter == parameter
      ensures this.valueType == valueType && this.typeMap == typeMap
    {
      this.dataCommand := dataCommand;
      this.parameter := parameter;
      this.valueType := valueType;
      this.typeMap := typeMap;
    }

    /** The database type Value writes: the mapping of the unwrapped value type. */
    function MappedType(): (r: DbType)
      ensures forall b: bool :: r == ValueDbType(typeMap, valueType.(nullable := b))
    {
      ValueDbType(typeMap, valueType)
    }

    /** Sets the parameter's name; nothing else changes. */
    method Name(parameterName: string) returns (r: DataParameter<V>)
      modifies parameter
      ensures r == this
      ensures parameter.name == parameterName
      ensures parameter.dbType == old(parameter.dbType) && parameter.value == old(parameter.value)
      ensures parameter.direction == old(parameter.direction) && parameter.size == old(parameter.size)
      ensures unchanged(dataCommand)
      ensures parameter.Record() == Apply(old(parameter.Record()), MappedType(), NameCall(parameterName))
    {
      parameter.name := parameterName;
      r := this;
    }

    /** Writes the mapped database type and the value, a null argument as the
      DBNull marker; name, direction and size are kept. */
    method Value(value: Option<V>) returns (r: DataParameter<V>)
      modifies parameter
      ensures r == this
      ensures parameter.dbType == MappedType()
      ensures parameter.value == (if value.None? then DBNull else Val(value.value))
      ensures parameter.name == old(parameter.name) && parameter.direction == old(parameter.direction)
      ensures parameter.size == old(parameter.size)
      ensures unchanged(dataCommand)
      ensures parameter.Record() == Apply(old(parameter.Record()), MappedType(), ValueCall(value))
    {
      var innerValue := value;
      parameter.dbType := ValueDbType(typeMap, valueType);
      parameter.value := match innerValue case None => DBNull case Some(v) => Val(v);
      r := this;
    }

    /** Sets the direction; nothing else changes. */
    method Direction(parameterDirection: DataTypes.Direction) returns (r: DataParameter<V>)
      modifies parameter
      ensures r == this
      ensures parameter.direction == parameterDirection
      ensures parameter.name == old(parameter.name) && parameter.dbType == old(parameter.dbType)
      ensures parameter.value == old(parameter.value) && parameter.size == old(parameter.size)
      ensures unchanged(dataCommand)
      ensures parameter.Record() == Apply(old(parameter.Record()), MappedType(), DirectionCall(parameterDirection))
    {
      parameter.direction := parameterDirection;
      r := this;
    }

    /** Overwrites the database type; nothing else changes. */
    method Type(dbType: DbType) returns (r: DataParameter<V>)
      modifies parameter
      ensures r == this
      ensures parameter.dbType == dbType
      ensures parameter.name == old(parameter.name) && parameter.value == old(parameter.value)
      ensures parameter.direction == old(parameter.direction) && parameter.size == old(parameter.size)
      ensures unchanged(dataCommand)
      ensures parameter.Record() == Apply(old(parameter.Record()), MappedType(), TypeCall(dbType))
    {
      parameter.dbType := dbType;
      r := this;
    }

    /** Sets the size, any 32-bit value, negative ones included; nothing else
        changes. */
    method Size(size: int32) returns (r: DataParameter<V>)
      modifies parameter
      ensures r == this
      ensures parameter.size == size
      ensures parameter.name == old(parameter.name) && parameter.dbType == old(parameter.dbType)
      ensures parameter.value == old(parameter.value) && parameter.direction == old(parameter.direction)
      ensures unchanged(dataCommand)
      ensures parameter.Record() == Apply(old(parameter.Record()), MappedType(), SizeCall(size))
    {
      parameter.size := size;
      r := this;
    }

    /** Makes the parameter InputOutput and appends one registration of this
        parameter and `callback` to the command's callback list. */
    method Output(callback: CallbackId) returns (r: DataParameter<V>)
      modifies parameter, dataCommand
      ensures r == this
      ensures parameter.direction == InputOutput
      ensures parameter.name == old(parameter.name) && parameter.dbType == old(parameter.dbType)
      ensures parameter.value == old(parameter.value) && parameter.size == old(parameter.size)
      ensures dataCommand.callbacks == old(dataCommand.callbacks) + [Registration(parameter, callback, valueType)]
      ensures parameter.Record() == Apply(old(parameter.Record()), MappedType(), OutputCall(callback))
    {
      parameter.direction := InputOutput;
      dataCommand.RegisterCallback(parameter, callback, valueType);
      r := this;
    }

    /** Renames the parameter to the reserved return-value name, makes it
        ReturnValue, and appends one registration of this parameter and
        `callback` to the command's callback list. */
    method Return(callback: CallbackId) returns (r: DataParameter<V>)
      modifies parameter, dataCommand
      ensures r == this
      ensures parameter.name == "@ReturnValue" && parameter.direction == ReturnValue
      ensures parameter.dbType == old(parameter.dbType) && parameter.value == old(parameter.value)
      ensures parameter.size == old(parameter.size)
      ensures dataCommand.callbacks == old(dataCommand.callbacks) + [Registration(parameter, callback, valueType)]
      ensures parameter.Record() == Apply(old(parameter.Record()), MappedType(), ReturnCall(callback))
    {
      var parameterName := "@ReturnValue";
      parameter.name := parameterName;
      parameter.direction := ReturnValue;
      dataCommand.RegisterCallback(parameter, callback, valueType);
      r := this;
    }

    /** Makes the one fluent call `c` on this builder. */
    method Perform(c: Call<V>)
      modifies parameter, dataCommand
      ensures parameter.Record() == Apply(old(parameter.Record()), MappedType(), c)
      ensures dataCommand.callbacks == old(dataCommand.callbacks) + Entries(parameter, Registers(c), valueType)
    {
      var b: DataParameter<V>;
      match c {
        case NameCall(n) => b := Name(n);
        case ValueCall(arg) => b := Value(arg);
        case DirectionCall(d) => b := Direction(d);
        case TypeCall(t) => b := Type(t);
        case SizeCall(s) => b := Size(s);
        case OutputCall(cb) => b := Output(cb);
        case ReturnCall(cb) => b := Return(cb);
      }
    }

    /** Makes the fluent calls `calls` on this builder, left to right, as a
        caller's chain `b.Name(..).Value(..)...` does: the parameter ends as
        ParameterSpec.Run gives it, and the command's callback list grows by
        exactly one entry of this parameter per Output or Return call, in call
        order. */
    method Chain(calls: seq<Call<V>>)
      modifies parameter, dataCommand
      ensures parameter.Record() == Run(old(parameter.Record()), MappedType(), calls)
      ensures dataCommand.callbacks ==
        old(dataCommand.callbacks) + Entries(parameter, Registrations(calls), valueType)
    {
      ghost var p0 := parameter.Record();
      ghost var regs0 := dataCommand.callbacks;
      var i := 0;
      while i < |calls|
        invariant 0 <= i <= |calls|
        invariant parameter.Record() == Run(p0, MappedType(), calls[..i])
        invariant dataCommand.callbacks == regs0 + Entries(parameter, Registrations(calls[..i]), valueType)
      {
        Perform(calls[i]);
        ChainStep(p0, MappedType(), parameter, valueType, calls, i);
        i := i + 1;
      }
      assert calls[..i] == calls;
    }
  }

  /** A client: an input parameter configured by a chain of calls; the
      explicit type given after Value is the one that stays. */
  method ConfigureInput(typeMap: TypeTag -> DbType)
  {
    var cmd := new DataCommand<int>();
    var p := new Param<int>("", String, Absent, Input, 0);
    var id := new DataParameter(cmd, p, TypeTag("Int32", false), typeMap);
    var b := id.Name("@Id");
    b := b.Value(Some(42));
    b := b.Type(Int64);
    assert p.Record() == ParamRecord("@Id", Int64, Val(42), Input, 0);
    assert cmd.callbacks == [];
  }

  /** A client: an output and a return parameter of one command; the
      callbacks are registered in call order, and Return renames the
      parameter whatever name it was given before. */
  method ConfigureCallbacks(typeMap: TypeTag -> DbType, onTotal: CallbackId, onStatus: CallbackId)
  {
    var cmd := new DataCommand<int>();
    var intType := TypeTag("Int32", true);
    var p := new Param<int>("", String, Absent, Input, 0);
    var total := new DataParameter(cmd, p, intType, typeMap);
    var b := total.Value(None);
    b := b.Output(onTotal);
    assert p.dbType == typeMap(TypeTag("Int32", false));
    assert p.value == DBNull && p.direction == InputOutput;

    var q := new Param<int>("@Status", String, Absent, Input, 0);
    var status := new DataParameter(cmd, q, intType, typeMap);
    b := status.Return(onStatus);
    assert q.name == ReturnValueName && q.direction == ReturnValue;
    assert cmd.callbacks == [Registration(p, onTotal, intType), Registration(q, onStatus, intType)];
  }
}
