/** A hook: the description of one action or filter, with a name, a
    callback, a priority and the number of parameters the callback takes.
    Each field starts out unset; a setter checks the type of its argument
    before storing it, and a getter refuses to return a field that holds no
    valid value. */
module Hooks {
  import opened PhpValues

  /** The four fields of a hook that has every one of them set, as the
      delegate receives them. */
  datatype Registration = Registration(name: string, callback: Value, priority: int, parameters: int)

  /** Text of the InvalidArgumentException a setter throws. PHP builds it by
      interpolating the received value, which fails for an object. */
  function InvalidTypeMessage(expected: string, received: Value): (r: Result<string>)
    ensures r.Err? <==> received.Object?
    ensures r.Ok? ==> r.value == "Received non-" + expected + " type: " + ToPhpString(received).value
  {
    match ToPhpString(received)
    case Ok(text) => Ok("Received non-" + expected + " type: " + text)
    case Err(e) => Err(e)
  }

  /** Text of the RuntimeException a getter throws. The property's name can
      be read back from it, so each getter's message is distinct. */
  function PropertyNotSetMessage(property: string): (r: string)
    ensures |r| == |property| + 38
    ensures r[..14] == "Cannot return " && r[|r| - 24..] == " as it has not been set."
    ensures r[14..|r| - 24] == property
  {
    "Cannot return " + property + " as it has not been set."
  }

  /** What a setter throws for an argument of the wrong type. */
  function TypeMismatch(expected: string, received: Value): (r: Failure)
    ensures !received.Object? ==> r == InvalidArgument(InvalidTypeMessage(expected, received).value)
    ensures received.Object? ==>
      r == StringConversion("Object of class " + received.className + " could not be converted to string")
  {
    match InvalidTypeMessage(expected, received)
    case Ok(message) => InvalidArgument(message)
    case Err(e) => e
  }

  /** The type check of `setName`: only a string (any string, the empty one
      included) is accepted. */
  function AsString(v: Value): (r: Result<string>)
    ensures r.Ok? <==> v.Str?
    ensures r.Ok? ==> r.value == v.s
    ensures r.Err? ==> r.error == TypeMismatch("string", v)
  {
    if v.Str? then Ok(v.s) else Err(TypeMismatch("string", v))
  }

  /** The type check of `setPriority` and `setNumberOfParameters`: only an
      int is accepted; a numeric string such as "1" is not. */
  function AsInteger(v: Value): (r: Result<int>)
    ensures r.Ok? <==> v.Int?
    ensures r.Ok? ==> r.value == v.i
    ensures r.Err? ==> r.error == TypeMismatch("integer", v)
  {
    if v.Int? then Ok(v.i) else Err(TypeMismatch("integer", v))
  }

  class Hook {
    var name: Option<string>
    var callback: Value
    var priority: Option<int>
    var numberOfParameters: Option<int>

    /** `new Hook()`: every property holds PHP's null. */
    constructor ()
      ensures name == None && callback == Null && priority == None && numberOfParameters == None
    {
      name := None;
      callback := Null;
      priority := None;
      numberOfParameters := None;
    }

    /** Every field but the callback holds a value of its type. */
    predicate Complete()
      reads this
    {
      name.Some? && priority.Some? && numberOfParameters.Some?
    }

    /** The hook's fields are exactly those of `r`. */
    predicate Holds(r: Registration)
      reads this
    {
      name == Some(r.name) && callback == r.callback &&
      priority == Some(r.priority) && numberOfParameters == Some(r.parameters)
    }

    method SetName(v: Value) returns (r: Result<Hook>)
      modifies this`name
      ensures v.Str? ==> r == Ok(this) && name == Some(v.s) && GetName() == Ok(v.s)
      ensures !v.Str? ==> r == Err(TypeMismatch("string", v)) && name == old(name)
    {
      var checked := AsString(v);
      if checked.Err? {
        return Err(checked.error);
      }
      name := Some(checked.value);
      r := Ok(this);
    }

    function GetName(): (r: Result<string>)
      reads this
      ensures r.Ok? <==> name.Some?
      ensures r.Ok? ==> r.value == name.value
      ensures r.Err? ==> r.error == Runtime(PropertyNotSetMessage("name"))
    {
      if name.Some? then Ok(name.value) else Err(Runtime(PropertyNotSetMessage("name")))
    }

    /** Stores any value at all; whether it can be called is only checked
        when it is read back. */
    method SetCallback(v: Value) returns (r: Result<Hook>)
      modifies this`callback
      ensures r == Ok(this) && callback == v
      ensures forall host :: IsCallable(v, host) ==> GetCallback(host) == Ok(v)
    {
      callback := v;
      r := Ok(this);
    }

    function GetCallback(host: Host): (r: Result<Value>)
      reads this
      ensures r.Ok? <==> IsCallable(callback, host)
      ensures r.Ok? ==> r.value == callback
      ensures r.Err? ==> r.error == Runtime(PropertyNotSetMessage("callback"))
    {
      if IsCallable(callback, host) then Ok(callback)
      else Err(Runtime(PropertyNotSetMessage("callback")))
    }

    method SetPriority(v: Value) returns (r: Result<Hook>)
      modifies this`priority
      ensures v.Int? ==> r == Ok(this) && priority == Some(v.i) && GetPriority() == Ok(v.i)
      ensures !v.Int? ==> r == Err(TypeMismatch("integer", v)) && priority == old(priority)
    {
      var checked := AsInteger(v);
      if checked.Err? {
        return Err(checked.error);
      }
      priority := Some(checked.value);
      r := Ok(this);
    }

    function GetPriority(): (r: Result<int>)
      reads this
      ensures r.Ok? <==> priority.Some?
      ensures r.Ok? ==> r.value == priority.value
      ensures r.Err? ==> r.error == Runtime(PropertyNotSetMessage("priority"))
    {
      if priority.Some? then Ok(priority.value) else Err(Runtime(PropertyNotSetMessage("priority")))
    }

    method SetNumberOfParameters(v: Value) returns (r: Result<Hook>)
      modifies this`numberOfParameters
      ensures v.Int? ==> r == Ok(this) && numberOfParameters == Some(v.i) && GetNumberOfParameters() == Ok(v.i)
      ensures !v.Int? ==> r == Err(TypeMismatch("integer", v)) && numberOfParameters == old(numberOfParameters)
    {
      var checked := AsInteger(v);
      if checked.Err? {
        return Err(checked.error);
      }
      numberOfParameters := Some(checked.value);
      r := Ok(this);
    }

    function GetNumberOfParameters(): (r: Result<int>)
      reads this
      ensures r.Ok? <==> numberOfParameters.Some?
      ensures r.Ok? ==> r.value == numberOfParameters.value
      ensures r.Err? ==> r.error == Runtime(PropertyNotSetMessage("numberOfParameters"))
    {
      if numberOfParameters.Some? then Ok(numberOfParameters.value)
      else Err(Runtime(PropertyNotSetMessage("numberOfParameters")))
    }

    /** `clone $hook`: PHP copies every property into a new object and then
        runs `__clone` on the copy; the fresh Hook that `__clone` returns is
        thrown away, so the copy keeps this hook's current fields. */
    method Clone() returns (copy: Hook)
      ensures fresh(copy)
      ensures copy.name == name && copy.callback == callback
      ensures copy.priority == priority && copy.numberOfParameters == numberOfParameters
    {
      copy := new Hook();
      copy.name, copy.callback := name, callback;
      copy.priority, copy.numberOfParameters := priority, numberOfParameters;
      var discarded := new Hook();  // the value returned by `__clone`
    }
  }
}
