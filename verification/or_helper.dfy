/**
 * The template helper `or`: the first argument that is neither undefined,
 * null, false nor the empty string, or undefined when there is none.
 */
module OrHelper {
  import opened JsValues

  /** The predicate `or` hands to `Array.prototype.find`. */
  predicate Qualifies(v: JsValue)
    ensures v.Num? || v.Arr? || v.Obj? ==> Qualifies(v)
    ensures !Qualifies(v) ==> !Truthy(v)
  {
    v != Undefined && v != Null && v != Bool(false) && v != Str("")
  }

  /** The index `find` stops at: the first qualifying position, or `|values|`. */
  function FirstQualifying(values: seq<JsValue>): (k: nat)
    ensures k <= |values|
    ensures forall j :: 0 <= j < k ==> !Qualifies(values[j])
    ensures k < |values| ==> Qualifies(values[k])
  {
    if values == [] then 0
    else if Qualifies(values[0]) then 0
    else 1 + FirstQualifying(values[1..])
  }

  function Or(values: seq<JsValue>): (r: JsValue)
    ensures r == Undefined <==> forall j :: 0 <= j < |values| ==> !Qualifies(values[j])
    ensures r != Undefined ==>
      Qualifies(r) &&
      exists k :: 0 <= k < |values| && values[k] == r &&
        forall j :: 0 <= j < k ==> !Qualifies(values[j])
  {
    var k := FirstQualifying(values);
    if k < |values| then values[k] else Undefined
  }

  /** Once the first argument qualifies, the later ones are never looked at. */
  lemma OrFirstArgumentWins(values: seq<JsValue>, rest: seq<JsValue>)
    requires |values| > 0 && Qualifies(values[0])
    ensures Or(values) == values[0]
    ensures Or(values[..1] + rest) == values[0]
  {
  }

  /** JavaScript truthiness, which `||` uses: 0 is falsy as well. */
  predicate Truthy(v: JsValue) {
    v != Undefined && v != Null && v != Bool(false) && v != Str("") && v != Num(0)
  }

  /** The chain `values[0] || values[1] || ...`: the first truthy operand, else the last. */
  function OrOperatorChain(values: seq<JsValue>): (r: JsValue)
    ensures values != [] ==> r in values
    ensures (exists j :: 0 <= j < |values| && Truthy(values[j])) ==> Truthy(r)
  {
    if values == [] then Undefined
    else if |values| == 1 || Truthy(values[0]) then values[0]
    else OrOperatorChain(values[1..])
  }

  /** `or` and `||` choose the same value whenever some argument qualifies and no
      argument is the number 0. */
  lemma {:induction false} OrMatchesOperatorWithoutZero(values: seq<JsValue>)
    requires forall j :: 0 <= j < |values| ==> values[j] != Num(0)
    requires exists j :: 0 <= j < |values| && Qualifies(values[j])
    ensures Or(values) == OrOperatorChain(values)
  {
    if !Qualifies(values[0]) {
      var j :| 0 <= j < |values| && Qualifies(values[j]);
      assert j > 0 && values[1..][j - 1] == values[j];
      OrMatchesOperatorWithoutZero(values[1..]);
      assert FirstQualifying(values) == 1 + FirstQualifying(values[1..]);
    }
  }

  /** Unlike `||`, `or` keeps a leading 0: `||` skips it and goes on with
      the remaining arguments, whatever they are. */
  lemma OrKeepsZero(rest: seq<JsValue>)
    requires rest != []
    ensures Or([Num(0)] + rest) == Num(0)
    ensures OrOperatorChain([Num(0)] + rest) == OrOperatorChain(rest)
  {
    var values := [Num(0)] + rest;
    assert values[0] == Num(0) && Qualifies(values[0]);
    assert values[1..] == rest;
  }
}
