/** The builtin registry of evaluator/builtins.go: `len` and `print`. */
module Builtins {
  import opened Wrappers
  import opened Int64
  import opened Objects

  /** A builtin's argument as Go passes it: an object, or `None` for a nil
      `object.Object`, which evaluation can produce. */
  type Argument = Option<Value>

  /** What calling a builtin gives, with the objects printed so far (the
      standard-output trace `print` appends to): a returned object, or the
      run-time panic of calling a method on a nil argument. */
  datatype CallResult =
    | CallResult(value: Value, output: seq<Value>)
    | NilPanic(output: seq<Value>)

  const Registry: map<string, BuiltinId> := map["len" := Len, "print" := Print]

  /** Name resolution: exactly `len` and `print` are registered. */
  function Lookup(name: string): (r: Option<Value>)
    ensures r.Some? <==> name == "len" || name == "print"
    ensures name == "len" ==> r == Some(Builtin(Len))
    ensures name == "print" ==> r == Some(Builtin(Print))
  {
    if name in Registry then Some(Builtin(Registry[name])) else None
  }

  /** `len`: the arity is checked before the argument's type; Strings give
      their byte count and Arrays their element count, converted to int64;
      any other object is an unsupported argument, and a nil argument
      panics when its type is asked for. `None` is the panic. */
  function CallLen(args: seq<Argument>): (r: Option<Value>)
    ensures |args| != 1 ==> r == Some(Error(WrongArgumentCount(|args|)))
    ensures r.None? <==> |args| == 1 && args[0].None?
    ensures |args| == 1 && args[0].Some? && args[0].value.String? && |args[0].value.bytes| <= MAX ==>
      r == Some(Integer(|args[0].value.bytes|))
    ensures |args| == 1 && args[0].Some? && args[0].value.Array? && |args[0].value.elements| <= MAX ==>
      r == Some(Integer(|args[0].value.elements|))
    ensures |args| == 1 && args[0].Some? && !args[0].value.String? && !args[0].value.Array? ==>
      r == Some(Error(UnsupportedArgument(TypeOf(args[0].value))))
  {
    if |args| != 1 then Some(Error(WrongArgumentCount(|args|)))
    else match args[0]
      case None => None
      case Some(String(bytes)) => Some(Integer(Wrap(|bytes|)))
      case Some(Array(elements)) => Some(Integer(Wrap(|elements|)))
      case Some(v) => Some(Error(UnsupportedArgument(TypeOf(v))))
  }

  /** `print`: with one argument, record it on the output and return NULL;
      a nil argument panics before anything is printed; otherwise an arity
      error and no output. */
  function CallPrint(args: seq<Argument>, output: seq<Value>): (r: CallResult)
    ensures |args| != 1 ==> r == CallResult(Error(WrongArgumentCount(|args|)), output)
    ensures |args| == 1 && args[0].None? ==> r == NilPanic(output)
    ensures |args| == 1 && args[0].Some? ==> r == CallResult(NULL, output + [args[0].value])
  {
    if |args| != 1 then CallResult(Error(WrongArgumentCount(|args|)), output)
    else match args[0]
      case None => NilPanic(output)
      case Some(v) => CallResult(NULL, output + [v])
  }

  /** Calling a registry entry. */
  function Call(id: BuiltinId, args: seq<Argument>, output: seq<Value>): (r: CallResult)
    ensures id == Len ==> r == (if CallLen(args).Some? then CallResult(CallLen(args).value, output) else NilPanic(output))
    ensures id == Print ==> r == CallPrint(args, output)
  {
    match id
    case Len => (
      match CallLen(args)
      case Some(v) => CallResult(v, output)
      case None => NilPanic(output))
    case Print => CallPrint(args, output)
  }

  /** Both builtins reject a wrong argument count the same way, whatever the
      arguments are, and print nothing. */
  lemma ArityCheckedFirst(id: BuiltinId, args: seq<Argument>, output: seq<Value>)
    requires |args| != 1
    ensures Call(id, args, output) == CallResult(Error(WrongArgumentCount(|args|)), output)
  {
  }

  /** `len` of one argument succeeds exactly for Strings and Arrays. */
  lemma LenAcceptsStringsAndArrays(v: Value)
    ensures CallLen([Some(v)]).Some?
    ensures CallLen([Some(v)]).value.Integer? <==> TypeOf(v) == StringObj || TypeOf(v) == ArrayObj
    ensures CallLen([Some(v)]).value.Error? <==> !(TypeOf(v) == StringObj || TypeOf(v) == ArrayObj)
  {
  }

  /** A single nil argument panics in either builtin, with nothing printed;
      with any other argument count the nil is never touched. */
  lemma NilArgumentPanics(id: BuiltinId, args: seq<Argument>, output: seq<Value>)
    ensures Call(id, args, output).NilPanic? <==> |args| == 1 && args[0].None?
    ensures Call(id, args, output).NilPanic? ==> Call(id, args, output) == NilPanic(output)
  {
  }

  /** A call prints exactly one object when it is a successful `print`, and
      nothing otherwise; earlier output is kept. */
  lemma OutputGrowsOnlyOnPrint(id: BuiltinId, args: seq<Argument>, output: seq<Value>)
    ensures var r := Call(id, args, output);
            && output <= r.output
            && (|r.output| == |output| + 1 <==> id == Print && |args| == 1 && args[0].Some?)
            && (|r.output| != |output| + 1 ==> r.output == output)
  {
  }
}
