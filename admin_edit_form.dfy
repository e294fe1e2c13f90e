/** The facility edit dialog's `updateField(path, value)`: the form's
    record is copied one level deep, the dotted path is walked from the
    copy, and the last key is assigned on the object reached. Nested
    objects are not copied, so a two-segment path writes into an object
    the copy still shares with the record being edited. */
module AdminEditForm {
  import opened Wrappers
  import opened JsNumber
  import opened JsString

  /** A property value of the form's record graph. */
  datatype Value = Text(s: string) | Num(n: Number) | Obj(o: JsObject) | Undefined

  /** A plain JavaScript object. */
  class JsObject {
    var props: map<string, Value>

    constructor (props: map<string, Value>)
      ensures this.props == props
    {
      this.props := props;
    }
  }

  /** `o[key]`: a missing property reads as `undefined`. */
  function Get(o: JsObject, key: string): Value
    reads o
  {
    if key in o.props then o.props[key] else Undefined
  }

  /** Every object reachable from an object of `objs` is in `objs`. */
  ghost predicate Closed(objs: set<JsObject>)
    reads objs
  {
    forall o, k :: o in objs && k in o.props && o.props[k].Obj? ==> o.props[k].o in objs
  }

  /** One step `current = current[key]`: reading a property of `undefined`
      throws (None); on a string or number, a property the edit form's paths
      never name reads as `undefined`. */
  function StepInto(v: Value, key: string): Option<Value>
    reads if v.Obj? then {v.o} else {}
  {
    match v
    case Obj(o) => Some(Get(o, key))
    case Undefined => None
    case _ => Some(Undefined)
  }

  /** The value reached from `root` after the first `n` keys, or None once
      a step has thrown. */
  ghost function Walk(root: JsObject, keys: seq<string>, n: nat, objs: set<JsObject>): (r: Option<Value>)
    reads objs
    requires n <= |keys| && root in objs && Closed(objs)
    ensures r.Some? && r.value.Obj? ==> r.value.o in objs
  {
    if n == 0 then Some(Obj(root))
    else
      var prev := Walk(root, keys, n - 1, objs);
      if prev.None? then None else StepInto(prev.value, keys[n - 1])
  }

  /** `{ ...o }` */
  method ShallowCopy(o: JsObject) returns (c: JsObject)
    ensures fresh(c) && c.props == o.props
  {
    c := new JsObject(o.props);
  }

  /** `updateField`. Returns the new form object and whether a TypeError
      was thrown: by reading through `undefined`, or (module code runs in
      strict mode) by assigning a property on `undefined`, a string or a
      number. Only the copy and the object the path leads to change. */
  method UpdateField(formData: JsObject, path: string, value: Value, ghost objs: set<JsObject>)
    returns (newData: JsObject, thrown: bool)
    requires formData in objs && Closed(objs)
    modifies objs
    ensures fresh(newData)
    ensures var keys := Split(path, '.');
            |keys| == 1 ==>
              && !thrown
              && newData.props == old(formData.props)[keys[0] := value]
              && forall o :: o in objs ==> o.props == old(o.props)
    ensures var keys := Split(path, '.');
            var target := old(Walk(formData, keys, |keys| - 1, objs));
            |keys| >= 2 ==>
              && (thrown <==> !(target.Some? && target.value.Obj?))
              && newData.props == old(formData.props)
              && (forall o :: o in objs && !(target.Some? && target.value.Obj? && o == target.value.o)
                   ==> o.props == old(o.props))
              && (target.Some? && target.value.Obj? && !thrown ==>
                   target.value.o.props == old(target.value.o.props)[keys[|keys| - 1] := value])
  {
    var keys := Split(path, '.');
    newData := ShallowCopy(formData);
    var current := Obj(newData);
    var i := 0;
    while i < |keys| - 1
      invariant 0 <= i <= |keys| - 1
      invariant i == 0 ==> current == Obj(newData)
      invariant i > 0 ==> Walk(formData, keys, i, objs) == Some(current)
      invariant current.Obj? && i > 0 ==> current.o in objs
      invariant newData.props == formData.props
      invariant forall o :: o in objs ==> o.props == old(o.props)
    {
      var next := StepInto(current, keys[i]);
      if next.None? {
        assert Walk(formData, keys, i + 1, objs) == None;
        WalkStaysThrown(formData, keys, i + 1, |keys| - 1, objs);
        thrown := true;
        return;
      }
      current := next.value;
      i := i + 1;
    }
    var last := keys[|keys| - 1];
    match current
    case Obj(o) =>
      o.props := o.props[last := value];
      thrown := false;
    case _ =>
      thrown := true;
  }

  /** Once a step has thrown, every longer walk has thrown. */
  lemma {:induction false} WalkStaysThrown(root: JsObject, keys: seq<string>, n: nat, m: nat, objs: set<JsObject>)
    requires n <= m <= |keys| && root in objs && Closed(objs)
    requires Walk(root, keys, n, objs) == None
    ensures Walk(root, keys, m, objs) == None
    decreases m - n
  {
    if n < m {
      WalkStaysThrown(root, keys, n, m - 1, objs);
    }
  }

  /** The dialog edits the very object that sits in the facility list.
      A two-segment path such as "specifications.power" writes into the
      nested object the listed record shares, so the list shows the new
      value before the dialog is saved, and cancelling does not undo it. */
  method EditNestedField(listed: JsObject, nested: JsObject, outer: string, inner: string, v: Value,
                         ghost objs: set<JsObject>)
    returns (newData: JsObject)
    requires listed in objs && nested in objs && Closed(objs) && listed != nested
    requires '.' !in outer && '.' !in inner
    requires Get(listed, outer) == Obj(nested)
    modifies objs
    ensures listed.props == old(listed.props)
    ensures Get(nested, inner) == v
    ensures Get(newData, outer) == Obj(nested)
  {
    SplitAtSeparator(outer, inner, '.');
    ghost var keys := [outer, inner];
    assert Walk(listed, keys, 1, objs) == Some(Obj(nested));
    var thrown;
    newData, thrown := UpdateField(listed, outer + ['.'] + inner, v, objs);
  }

  /** A one-segment path such as "name" touches only the copy: the listed
      record keeps its old value until the dialog is saved. */
  method EditTopLevelField(listed: JsObject, key: string, v: Value, ghost objs: set<JsObject>)
    returns (newData: JsObject)
    requires listed in objs && Closed(objs) && '.' !in key
    modifies objs
    ensures listed.props == old(listed.props)
    ensures Get(newData, key) == v
  {
    SplitWithoutSeparator(key, '.');
    var thrown;
    newData, thrown := UpdateField(listed, key, v, objs);
  }
}
