/** `ClassUtils.getMethodParameterType`: the message type of an `MqListener<T>`
    implementation, read from the generic interfaces its class declares
    directly. Reflection is replaced by the list of those interfaces. */
module ClassUtils {
  import opened Common

  /** One actual type argument. Only a plain class survives the `(Class)` cast;
      a parameterised type or a type variable makes it throw. */
  datatype TypeArgument = ClassArgument(cls: TypeRef) | NonClassArgument

  /** One entry of `Class.getGenericInterfaces()`. */
  datatype GenericInterface =
    | PlainInterface(raw: TypeRef)
    | ParameterizedInterface(raw: TypeRef, arguments: seq<TypeArgument>)

  const MqListenerClass := Class("com.aihuishou.message.consumer.MqListener")

  /** A parameterised interface whose raw type is `MqListener`. */
  predicate IsMqListenerType(g: GenericInterface)
  {
    g.ParameterizedInterface? && g.raw == MqListenerClass
  }

  /** What a matching interface yields: its first type argument, or `Object`
      when it has none. */
  function FirstArgument(g: GenericInterface): (r: Result<TypeRef, Throwable>)
    requires IsMqListenerType(g)
    ensures r.Err? <==> |g.arguments| > 0 && g.arguments[0].NonClassArgument?
    ensures r.Err? ==> r.error == ClassCast
    ensures |g.arguments| == 0 ==> r == Ok(ObjectClass)
    ensures |g.arguments| > 0 && g.arguments[0].ClassArgument? ==> r == Ok(g.arguments[0].cls)
  {
    if |g.arguments| > 0 then
      match g.arguments[0]
      case ClassArgument(c) => Ok(c)
      case NonClassArgument => Err(ClassCast)
    else Ok(ObjectClass)
  }

  /** The scan over the interfaces, in declaration order, returning at the
      first `MqListener<...>`; `Object` when there is none. */
  function GetMethodParameterType(interfaces: seq<GenericInterface>): (r: Result<TypeRef, Throwable>)
    ensures r.Err? ==> r.error == ClassCast
    ensures r.Ok? && r.value != ObjectClass ==>
      exists i :: 0 <= i < |interfaces| && IsMqListenerType(interfaces[i])
                  && |interfaces[i].arguments| > 0 && interfaces[i].arguments[0] == ClassArgument(r.value)
  {
    if |interfaces| == 0 then Ok(ObjectClass)
    else if IsMqListenerType(interfaces[0]) then FirstArgument(interfaces[0])
    else
      var rest := GetMethodParameterType(interfaces[1..]);
      assert rest.Ok? && rest.value != ObjectClass ==>
        exists i :: 1 <= i < |interfaces| && IsMqListenerType(interfaces[i])
                    && |interfaces[i].arguments| > 0 && interfaces[i].arguments[0] == ClassArgument(rest.value)
      by {
        if rest.Ok? && rest.value != ObjectClass {
          var j :| 0 <= j < |interfaces[1..]| && IsMqListenerType(interfaces[1..][j])
                   && |interfaces[1..][j].arguments| > 0 && interfaces[1..][j].arguments[0] == ClassArgument(rest.value);
          assert interfaces[j + 1] == interfaces[1..][j];
        }
      }
      rest
  }

  /** The first matching interface decides the result; every interface after
      it is ignored. */
  lemma {:induction false} FirstMatchDecides(interfaces: seq<GenericInterface>, k: nat)
    requires k < |interfaces| && IsMqListenerType(interfaces[k])
    requires forall j :: 0 <= j < k ==> !IsMqListenerType(interfaces[j])
    ensures GetMethodParameterType(interfaces) == FirstArgument(interfaces[k])
  {
    if k > 0 {
      assert !IsMqListenerType(interfaces[0]);
      FirstMatchDecides(interfaces[1..], k - 1);
    }
  }

  /** Raw interfaces and parameterised interfaces of another raw type are
      skipped; with no match the result is `Object`. */
  lemma {:induction false} NoMatchYieldsObject(interfaces: seq<GenericInterface>)
    requires forall j :: 0 <= j < |interfaces| ==> !IsMqListenerType(interfaces[j])
    ensures GetMethodParameterType(interfaces) == Ok(ObjectClass)
  {
    if |interfaces| > 0 {
      assert !IsMqListenerType(interfaces[0]);
      NoMatchYieldsObject(interfaces[1..]);
    }
  }
}
