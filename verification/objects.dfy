/** The runtime value domain the evaluator and the builtins work on. */
module Objects {
  import opened Bytes
  import opened Int64

  /** The type tag every object reports through `Type()`. */
  datatype ObjectType = IntegerObj | BooleanObj | NullObj | StringObj | ArrayObj | BuiltinObj | ErrorObj

  /** The two builtins of the registry. */
  datatype BuiltinId = Len | Print

  /** What a builtin complains about; the message text itself is formatted
      outside this model. */
  datatype ErrorTag = WrongArgumentCount(argCount: nat) | UnsupportedArgument(argType: ObjectType)

  /** A runtime object. Booleans and Null are only ever the shared
      singletons below; Integers, Strings, Arrays and Errors are fresh
      allocations; a Builtin is the registry's own entry. */
  datatype Value =
    | Integer(intValue: int64)
    | Boolean(boolValue: bool)
    | Null
    | String(bytes: seq<byte>)
    | Array(elements: seq<Value>)
    | Builtin(id: BuiltinId)
    | Error(tag: ErrorTag)

  const NULL: Value := Null
  const TRUE: Value := Boolean(true)
  const FALSE: Value := Boolean(false)

  function TypeOf(v: Value): ObjectType {
    match v
    case Integer(_) => IntegerObj
    case Boolean(_) => BooleanObj
    case Null => NullObj
    case String(_) => StringObj
    case Array(_) => ArrayObj
    case Builtin(_) => BuiltinObj
    case Error(_) => ErrorObj
  }

  /** Go `==` on two object references: the same singleton, or the same
      registry entry. Fresh allocations (Integers, Strings, Arrays, Errors)
      are never the same reference as anything passed in separately. */
  predicate Identical(a: Value, b: Value) {
    match (a, b)
    case (Boolean(x), Boolean(y)) => x == y
    case (Null, Null) => true
    case (Builtin(x), Builtin(y)) => x == y
    case _ => false
  }
}
