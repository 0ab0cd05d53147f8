/** The fluent parameter calls as operations on a value: the five properties
    of a driver parameter as a record, each fluent call as a transformation
    of that record, and the callback registrations a chain of calls makes.
    The classes in module FluentCommand are proved against these functions;
    the lemmas here state what chains of calls do. */
module ParameterSpec {
  import opened DataTypes

  /** What a driver parameter's Value property holds: nothing assigned yet
      (a C# null), the DBNull marker, or a value. */
  datatype PValue<V> = Absent | DBNull | Val(v: V)

  /** The five properties of a driver parameter that the builder writes. */
  datatype ParamRecord<V> = ParamRecord(
    name: string,
    dbType: DbType,
    value: PValue<V>,
    direction: Direction,
    size: int32)

  /** A callback delegate, known only by its identity. */
  type CallbackId = nat

  /** One fluent call on the builder; a `None` argument of ValueCall is a
      C# null. */
  datatype Call<V> =
    | NameCall(n: string)
    | ValueCall(arg: Option<V>)
    | DirectionCall(d: Direction)
    | TypeCall(t: DbType)
    | SizeCall(s: int32)
    | OutputCall(cb: CallbackId)
    | ReturnCall(cb: CallbackId)

  /** The reserved name a return-value parameter takes. */
  const ReturnValueName: string := "@ReturnValue"

  // ---------------------------------------------------------------------
  // Fields, and the table of what each call writes
  // ---------------------------------------------------------------------

  datatype Field = NameField | TypeField | ValueField | DirectionField | SizeField

  datatype FieldValue<V> =
    | NameIs(name: string)
    | TypeIs(dbType: DbType)
    | ValueIs(value: PValue<V>)
    | DirectionIs(direction: Direction)
    | SizeIs(size: int32)

  function Get<V>(p: ParamRecord<V>, f: Field): FieldValue<V> {
    match f
    case NameField => NameIs(p.name)
    case TypeField => TypeIs(p.dbType)
    case ValueField => ValueIs(p.value)
    case DirectionField => DirectionIs(p.direction)
    case SizeField => SizeIs(p.size)
  }

  /** The fields a call writes and what it writes into each; `mapped` is the
      database type the type mapper gives for the builder's value type. */
  function Writes<V>(c: Call<V>, mapped: DbType): map<Field, FieldValue<V>> {
    match c
    case NameCall(n) => map[NameField := NameIs(n)]
    case ValueCall(arg) => map[TypeField := TypeIs(mapped), ValueField := ValueIs(Stored(arg))]
    case DirectionCall(d) => map[DirectionField := DirectionIs(d)]
    case TypeCall(t) => map[TypeField := TypeIs(t)]
    case SizeCall(s) => map[SizeField := SizeIs(s)]
    case OutputCall(_) => map[DirectionField := DirectionIs(InputOutput)]
    case ReturnCall(_) => map[NameField := NameIs(ReturnValueName), DirectionField := DirectionIs(ReturnValue)]
  }

  // ---------------------------------------------------------------------
  // One call, and a chain of calls
  // ---------------------------------------------------------------------

  /** The value Value(arg) stores: a null argument becomes the DBNull
      marker, so the stored value is never absent. */
  function Stored<V>(arg: Option<V>): (r: PValue<V>)
    ensures !r.Absent?
    ensures r.DBNull? <==> arg.None?
    ensures arg.Some? ==> r.Val? && r.v == arg.value
  {
    match arg
    case None => DBNull
    case Some(x) => Val(x)
  }

  /** The record after one fluent call: the fields in the call's write table
      take the written values and every other field is unchanged. */
  function Apply<V>(p: ParamRecord<V>, mapped: DbType, c: Call<V>): (r: ParamRecord<V>)
    ensures forall f :: Get(r, f) == if f in Writes(c, mapped) then Writes(c, mapped)[f] else Get(p, f)
  {
    match c
    case NameCall(n) => p.(name := n)
    case ValueCall(arg) => p.(dbType := mapped, value := Stored(arg))
    case DirectionCall(d) => p.(direction := d)
    case TypeCall(t) => p.(dbType := t)
    case SizeCall(s) => p.(size := s)
    case OutputCall(_) => p.(direction := InputOutput)
    case ReturnCall(_) => p.(name := ReturnValueName, direction := ReturnValue)
  }

  /** The record after a chain of fluent calls, made left to right. The value
      is absent afterwards exactly when it was absent before and no call in
      the chain was a Value call. */
  function Run<V>(p: ParamRecord<V>, mapped: DbType, calls: seq<Call<V>>): (r: ParamRecord<V>)
    ensures r.value.Absent? <==> p.value.Absent? && forall i | 0 <= i < |calls| :: !calls[i].ValueCall?
    decreases |calls|
  {
    if calls == [] then p
    else
      assert forall i | 1 <= i < |calls| :: calls[1..][i - 1] == calls[i];
      Run(Apply(p, mapped, calls[0]), mapped, calls[1..])
  }

  /** What the last call of the chain that writes field `f` writes there, if
      any call does. */
  function LastWrite<V>(calls: seq<Call<V>>, mapped: DbType, f: Field): Option<FieldValue<V>>
    decreases |calls|
  {
    if calls == [] then None
    else
      var c := calls[|calls| - 1];
      if f in Writes(c, mapped) then Some(Writes(c, mapped)[f])
      else LastWrite(calls[..|calls| - 1], mapped, f)
  }

  /** The callbacks one call registers with the owning command. */
  function Registers<V>(c: Call<V>): seq<CallbackId> {
    match c
    case OutputCall(cb) => [cb]
    case ReturnCall(cb) => [cb]
    case _ => []
  }

  /** The callbacks a chain of calls registers, in registration order: no
      more callbacks than calls, and each of them the callback of an Output or
      Return call of the chain. */
  function Registrations<V>(calls: seq<Call<V>>): (r: seq<CallbackId>)
    ensures |r| <= |calls|
    ensures forall cb | cb in r ::
      exists i | 0 <= i < |calls| :: (calls[i].OutputCall? || calls[i].ReturnCall?) && calls[i].cb == cb
    decreases |calls|
  {
    if calls == [] then [] else Registers(calls[0]) + Registrations(calls[1..])
  }

  // ---------------------------------------------------------------------
  // Properties of chains
  // ---------------------------------------------------------------------

  /** Running two chains one after the other is running their concatenation. */
  lemma {:induction false} RunAppend<V>(p: ParamRecord<V>, mapped: DbType, a: seq<Call<V>>, b: seq<Call<V>>)
    ensures Run(p, mapped, a + b) == Run(Run(p, mapped, a), mapped, b)
    decreases |a|
  {
    if a == [] {
      assert a + b == b;
    } else {
      assert (a + b)[0] == a[0];
      assert (a + b)[1..] == a[1..] + b;
      RunAppend(Apply(p, mapped, a[0]), mapped, a[1..], b);
    }
  }

  /** Last write wins, field by field: after any chain, each field holds what
      the last call writing it wrote, or its initial content if no call
      wrote it. */
  lemma {:induction false} FinalField<V>(p: ParamRecord<V>, mapped: DbType, calls: seq<Call<V>>, f: Field)
    ensures Get(Run(p, mapped, calls), f) ==
      match LastWrite(calls, mapped, f)
      case None => Get(p, f)
      case Some(w) => w
    decreases |calls|
  {
    if calls != [] {
      var init, c := calls[..|calls| - 1], calls[|calls| - 1];
      assert calls == init + [c];
      RunAppend(p, mapped, init, [c]);
      FinalField(p, mapped, init, f);
    }
  }

  /** A Type call overrides the database type whatever came before it: in
      particular, Type after Value leaves the explicit type. Nothing else the
      Type call could touch changes. */
  lemma TypeAfterAnything<V>(p: ParamRecord<V>, mapped: DbType, calls: seq<Call<V>>, t: DbType)
    ensures Run(p, mapped, calls + [TypeCall(t)]) == Run(p, mapped, calls).(dbType := t)
  {
    RunAppend(p, mapped, calls, [TypeCall(t)]);
  }

  /** A Value call writes the mapped type and the stored value whatever came
      before it: in particular, Value after Type leaves the mapped type. */
  lemma ValueAfterAnything<V>(p: ParamRecord<V>, mapped: DbType, calls: seq<Call<V>>, arg: Option<V>)
    ensures Run(p, mapped, calls + [ValueCall(arg)]) ==
      Run(p, mapped, calls).(dbType := mapped, value := Stored(arg))
  {
    RunAppend(p, mapped, calls, [ValueCall(arg)]);
  }

  /** The two orders of Value and Type, from any starting record. */
  lemma TypeAndValueOrder<V>(p: ParamRecord<V>, mapped: DbType, arg: Option<V>, t: DbType)
    ensures Run(p, mapped, [ValueCall(arg), TypeCall(t)]).dbType == t
    ensures Run(p, mapped, [TypeCall(t), ValueCall(arg)]).dbType == mapped
    ensures Run(p, mapped, [ValueCall(arg), TypeCall(t)]).value == Stored(arg)
    ensures Run(p, mapped, [TypeCall(t), ValueCall(arg)]).value == Stored(arg)
  {
    TypeAfterAnything(p, mapped, [ValueCall(arg)], t);
    ValueAfterAnything(p, mapped, [TypeCall(t)], arg);
  }

  /** Return forces the reserved name and the ReturnValue direction whatever
      came before it, and keeps the value, type and size. */
  lemma ReturnAfterAnything<V>(p: ParamRecord<V>, mapped: DbType, calls: seq<Call<V>>, cb: CallbackId)
    ensures Run(p, mapped, calls + [ReturnCall(cb)]) ==
      Run(p, mapped, calls).(name := ReturnValueName, direction := ReturnValue)
  {
    RunAppend(p, mapped, calls, [ReturnCall(cb)]);
  }

  /** Making a fluent call twice in a row has no further effect on the
      parameter record; on the command it does: Output and Return register
      their callback once per call, so twice in a row registers it twice. */
  lemma ApplyIdempotent<V>(p: ParamRecord<V>, mapped: DbType, c: Call<V>)
    ensures Apply(Apply(p, mapped, c), mapped, c) == Apply(p, mapped, c)
    ensures Registrations([c, c]) == Registers(c) + Registers(c)
    ensures c.OutputCall? || c.ReturnCall? ==> Registrations([c, c]) == [c.cb, c.cb]
  {
    assert [c, c][1..] == [c];
    assert [c][1..] == [];
  }

  /** The registrations of two chains made one after the other are those of
      the first followed by those of the second. */
  lemma {:induction false} RegistrationsAppend<V>(a: seq<Call<V>>, b: seq<Call<V>>)
    ensures Registrations(a + b) == Registrations(a) + Registrations(b)
    decreases |a|
  {
    if a == [] {
      assert a + b == b;
    } else {
      assert (a + b)[0] == a[0];
      assert (a + b)[1..] == a[1..] + b;
      RegistrationsAppend(a[1..], b);
    }
  }

  /** Each further call adds exactly one registration, at the end, when it is
      Output or Return, and none otherwise. */
  lemma RegistrationsGrowByCall<V>(calls: seq<Call<V>>, c: Call<V>)
    ensures Registrations(calls + [c]) ==
      Registrations(calls) + (if c.OutputCall? || c.ReturnCall? then [c.cb] else [])
  {
    RegistrationsAppend(calls, [c]);
  }

  /** A chain with no Output or Return call registers nothing. */
  lemma {:induction false} NoRegistrationsWithoutCallbacks<V>(calls: seq<Call<V>>)
    requires forall i | 0 <= i < |calls| :: !calls[i].OutputCall? && !calls[i].ReturnCall?
    ensures Registrations(calls) == []
    decreases |calls|
  {
    if calls != [] {
      assert forall i | 1 <= i < |calls| :: calls[1..][i - 1] == calls[i];
      NoRegistrationsWithoutCallbacks(calls[1..]);
    }
  }
}
