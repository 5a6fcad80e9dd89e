/**
 * The JavaScript values the sitemap helpers can observe, with JavaScript's
 * truthiness, property reads and the `||` operator.
 */
module JsValues {

  /** A JavaScript value as seen by the helpers. `Date` stands for a `Date`
      object (milliseconds since the epoch); `Obj` is a plain record. */
  datatype JsValue =
    | Undefined
    | Null
    | Bool(b: bool)
    | Num(n: real)
    | Str(s: string)
    | Date(time: int)
    | Arr(elems: seq<JsValue>)
    | Obj(fields: map<string, JsValue>)

  /** The errors a helper call can raise. All of them are `TypeError`s in
      JavaScript; they are told apart by who raises them. */
  datatype Error =
    | TypeError(message: string)  // raised by the helpers themselves
    | NullishAccess(key: string)  // reading property `key` of undefined or null
    | NotAFunction(name: string)  // calling a method the value does not have
    | InvalidArgType(arg: string) // a non-string argument to Node's path functions

  datatype Result<+T> = Ok(value: T) | Err(error: Error) {

    predicate IsFailure() {
      Err?
    }

    function PropagateFailure<U>(): Result<U>
      requires Err?
    {
      Err(error)
    }

    function Extract(): T
      requires Ok?
    {
      value
    }
  }

  datatype Option<+T> = None | Some(value: T)

  /** JavaScript's ToBoolean: `undefined`, `null`, `false`, `0`, `""` are
      falsy; every object, array and date is truthy. (NaN is not modelled.) */
  predicate Truthy(v: JsValue) {
    match v
    case Undefined => false
    case Null => false
    case Bool(b) => b
    case Num(n) => n != 0.0
    case Str(s) => s != ""
    case Date(_) => true
    case Arr(_) => true
    case Obj(_) => true
  }

  predicate IsNullish(v: JsValue) {
    v.Undefined? || v.Null?
  }

  /** The `isobject` package: a non-null value of type "object" that is not
      an array. */
  predicate IsObject(v: JsValue) {
    v.Obj? || v.Date?
  }

  /** `a || b`: the left operand when it is truthy, the right one otherwise. */
  function Or(a: JsValue, b: JsValue): JsValue {
    if Truthy(a) then a else b
  }

  /** The own field `key` of a record, `undefined` for anything else. */
  function Field(v: JsValue, key: string): JsValue {
    if v.Obj? && key in v.fields then v.fields[key] else Undefined
  }

  /** The property read `v.key`, which throws on `undefined` and `null`. */
  function Prop(v: JsValue, key: string): Result<JsValue> {
    if IsNullish(v) then Err(NullishAccess(key)) else Ok(Field(v, key))
  }

  /** A nested read along a dotted path that never throws: `undefined` as
      soon as the walk leaves records. */
  function GetPath(v: JsValue, path: seq<string>): JsValue
    decreases |path|
  {
    if path == [] then v else GetPath(Field(v, path[0]), path[1..])
  }

  /** The chain `vs[0] || vs[1] || ... || vs[n-1]`: the first truthy value,
      or the last value when none is truthy. */
  function Coalesce(vs: seq<JsValue>): (r: JsValue)
    requires |vs| > 0
    ensures Truthy(r) <==> exists i :: 0 <= i < |vs| && Truthy(vs[i])
    ensures Truthy(r) ==>
      exists i :: 0 <= i < |vs| && r == vs[i] && forall j :: 0 <= j < i ==> !Truthy(vs[j])
    ensures !Truthy(r) ==> r == vs[|vs| - 1]
  {
    if |vs| == 1 then vs[0]
    else
      var rest := Coalesce(vs[1..]);
      assert forall i :: 1 <= i < |vs| ==> vs[i] == vs[1..][i - 1];
      if Truthy(vs[0]) then vs[0]
      else
        assert Truthy(rest) ==> exists i :: 1 <= i < |vs| && rest == vs[i] && forall j :: 0 <= j < i ==> !Truthy(vs[j]) by {
          if Truthy(rest) {
            var k :| 0 <= k < |vs| - 1 && rest == vs[1..][k] && forall j :: 0 <= j < k ==> !Truthy(vs[1..][j]);
            assert rest == vs[k + 1];
          }
        }
        rest
  }

  /** The left-nested `(a || b) || c` that JavaScript parses is the chain. */
  lemma OrChain3(a: JsValue, b: JsValue, c: JsValue)
    ensures Or(Or(a, b), c) == Coalesce([a, b, c])
  {
    assert [a, b, c][1..] == [b, c];
    assert [b, c][1..] == [c];
  }
}
