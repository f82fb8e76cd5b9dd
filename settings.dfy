/**
 * The engine's settings as the recorder sees them: a category name maps to a
 * list of subcategories, each holding a list of parameters.  This module has
 * the pure part of the settings adapter in obsRecorder.js: what `setSetting`
 * does to the fetched list (overwrite and "old value"), and the
 * `getAvailableValues` lookup.  The engine that stores the lists is modelled
 * in module ObsRecorder.
 */
module Settings {

  import opened Wrappers

  /** A setting value as the engine reports it; JavaScript numbers are taken to be integers. */
  datatype Value = Str(s: string) | Num(n: int) | Bool(b: bool)

  /** One property of an entry in a parameter's `values` list, e.g. `{ "x264": "obs_x264" }`. */
  datatype Field = Field(key: string, val: Value)

  datatype Parameter = Parameter(name: string, currentValue: Value, values: seq<seq<Field>>)

  datatype SubCategory = SubCategory(nameSubCategory: string, parameters: seq<Parameter>)

  type Store = map<string, seq<SubCategory>>

  /** `OBS_settings_getSettings(category).data`: absent (undefined) for a category the engine does not have. */
  function Fetch(store: Store, category: string): Option<seq<SubCategory>> {
    if category in store then Some(store[category]) else None
  }

  // ---------------------------------------------------------------------------
  // setSetting: the overwrite of every matching parameter
  // ---------------------------------------------------------------------------

  /** What the inner `forEach` does to one parameter. */
  function Assign(p: Parameter, name: string, value: Value): Parameter {
    if p.name == name then p.(currentValue := value) else p
  }

  /** The inner loop's result on one subcategory's parameters. */
  function OverwriteParams(ps: seq<Parameter>, name: string, value: Value): seq<Parameter> {
    if ps == [] then []
    else OverwriteParams(ps[..|ps| - 1], name, value) + [Assign(ps[|ps| - 1], name, value)]
  }

  /** The settings list after `setSetting`'s nested loops. */
  function Overwrite(subs: seq<SubCategory>, name: string, value: Value): seq<SubCategory> {
    if subs == [] then []
    else
      var last := subs[|subs| - 1];
      Overwrite(subs[..|subs| - 1], name, value) + [last.(parameters := OverwriteParams(last.parameters, name, value))]
  }

  /** Every parameter named `name` in `ps` gets `value`; nothing else changes. */
  lemma {:induction false} OverwriteParamsSpec(ps: seq<Parameter>, name: string, value: Value)
    ensures |OverwriteParams(ps, name, value)| == |ps|
    ensures forall j :: 0 <= j < |ps| ==> OverwriteParams(ps, name, value)[j] == Assign(ps[j], name, value)
  {
    if ps != [] {
      OverwriteParamsSpec(ps[..|ps| - 1], name, value);
    }
  }

  /**
   * In every subcategory, every parameter named `name` has `currentValue ==
   * value`; subcategory names, parameter names, their `values` and the order
   * of everything are unchanged.
   */
  lemma {:induction false} OverwriteSpec(subs: seq<SubCategory>, name: string, value: Value)
    ensures |Overwrite(subs, name, value)| == |subs|
    ensures forall i :: 0 <= i < |subs| ==>
      Overwrite(subs, name, value)[i].nameSubCategory == subs[i].nameSubCategory &&
      |Overwrite(subs, name, value)[i].parameters| == |subs[i].parameters|
    ensures forall i, j :: 0 <= i < |subs| && 0 <= j < |subs[i].parameters| ==>
      Overwrite(subs, name, value)[i].parameters[j] == Assign(subs[i].parameters[j], name, value)
  {
    if subs != [] {
      OverwriteSpec(subs[..|subs| - 1], name, value);
      OverwriteParamsSpec(subs[|subs| - 1].parameters, name, value);
    }
  }

  // ---------------------------------------------------------------------------
  // setSetting: the old value, i.e. the value of the last matching parameter
  // ---------------------------------------------------------------------------

  /** Parameter `j` of subcategory `i` exists and is named `name`. */
  ghost predicate Named(subs: seq<SubCategory>, name: string, i: int, j: int) {
    0 <= i < |subs| && 0 <= j < |subs[i].parameters| && subs[i].parameters[j].name == name
  }

  /** Parameter (i, j) is the last one named `name` in subcategory-then-parameter order. */
  ghost predicate IsLastNamed(subs: seq<SubCategory>, name: string, i: int, j: int) {
    Named(subs, name, i, j) &&
    forall i', j' :: Named(subs, name, i', j') ==> i' < i || (i' == i && j' <= j)
  }

  /** The value of the last parameter named `name` in `ps`, if any. */
  function LastMatchParams(ps: seq<Parameter>, name: string): Option<Value> {
    if ps == [] then None
    else if ps[|ps| - 1].name == name then Some(ps[|ps| - 1].currentValue)
    else LastMatchParams(ps[..|ps| - 1], name)
  }

  /** `LastMatchParams` is undefined exactly when no parameter has the name, else the last one's value. */
  lemma {:induction false} LastMatchParamsSpec(ps: seq<Parameter>, name: string)
    ensures LastMatchParams(ps, name).None? <==> forall j :: 0 <= j < |ps| ==> ps[j].name != name
    ensures LastMatchParams(ps, name).Some? ==>
      exists j :: 0 <= j < |ps| && ps[j].name == name && ps[j].currentValue == LastMatchParams(ps, name).value &&
        forall j' :: j < j' < |ps| ==> ps[j'].name != name
  {
    if ps != [] && ps[|ps| - 1].name != name {
      LastMatchParamsSpec(ps[..|ps| - 1], name);
    }
  }

  /** `oldValue` after `setSetting`'s loops: `None` stands for JavaScript's `undefined`. */
  function LastMatch(subs: seq<SubCategory>, name: string): Option<Value> {
    if subs == [] then None
    else match LastMatchParams(subs[|subs| - 1].parameters, name)
      case Some(v) => Some(v)
      case None => LastMatch(subs[..|subs| - 1], name)
  }

  /**
   * `LastMatch` is undefined exactly when no parameter has the name, and
   * otherwise it is the current value of the last parameter with the name.
   */
  lemma {:induction false} LastMatchSpec(subs: seq<SubCategory>, name: string)
    ensures LastMatch(subs, name).None? <==> forall i, j :: !Named(subs, name, i, j)
    ensures forall i, j :: IsLastNamed(subs, name, i, j) ==>
      LastMatch(subs, name) == Some(subs[i].parameters[j].currentValue)
    ensures LastMatch(subs, name).Some? ==> exists i, j :: IsLastNamed(subs, name, i, j)
  {
    if subs != [] {
      var n := |subs|;
      var pre := subs[..n - 1];
      var ps := subs[n - 1].parameters;
      LastMatchSpec(pre, name);
      LastMatchParamsSpec(ps, name);
      assert forall i, j :: 0 <= i < n - 1 ==> (Named(subs, name, i, j) <==> Named(pre, name, i, j));
      match LastMatchParams(ps, name)
      case Some(v) =>
        var j0 :| 0 <= j0 < |ps| && ps[j0].name == name && ps[j0].currentValue == v &&
                  forall j' :: j0 < j' < |ps| ==> ps[j'].name != name;
        assert IsLastNamed(subs, name, n - 1, j0);
        forall i, j | IsLastNamed(subs, name, i, j)
          ensures LastMatch(subs, name) == Some(subs[i].parameters[j].currentValue)
        {
          assert Named(subs, name, n - 1, j0);
          assert i == n - 1 && j == j0;
        }
      case None =>
        assert forall i, j :: Named(subs, name, i, j) ==> i < n - 1;
        forall i, j | IsLastNamed(subs, name, i, j)
          ensures LastMatch(subs, name) == Some(subs[i].parameters[j].currentValue)
        {
          assert IsLastNamed(pre, name, i, j);
        }
        if LastMatch(subs, name).Some? {
          var i, j :| IsLastNamed(pre, name, i, j);
          assert IsLastNamed(subs, name, i, j);
        }
    }
  }

  /** Once `setSetting` has overwritten a name that occurs, the last match holds the new value. */
  lemma OverwriteEstablishes(subs: seq<SubCategory>, name: string, value: Value)
    requires LastMatch(subs, name).Some?
    ensures LastMatch(Overwrite(subs, name, value), name) == Some(value)
  {
    var r := Overwrite(subs, name, value);
    OverwriteSpec(subs, name, value);
    LastMatchSpec(subs, name);
    LastMatchSpec(r, name);
    assert forall i, j :: Named(r, name, i, j) <==> Named(subs, name, i, j);
    var i, j :| IsLastNamed(subs, name, i, j);
    assert IsLastNamed(r, name, i, j);
  }

  /** Overwriting one name leaves the last match of every other name as it was. */
  lemma OverwriteFrame(subs: seq<SubCategory>, name: string, value: Value, other: string)
    requires other != name
    ensures LastMatch(Overwrite(subs, name, value), other) == LastMatch(subs, other)
  {
    var r := Overwrite(subs, name, value);
    OverwriteSpec(subs, name, value);
    LastMatchSpec(subs, other);
    LastMatchSpec(r, other);
    assert forall i, j :: Named(r, other, i, j) <==> Named(subs, other, i, j);
    if LastMatch(subs, other).Some? {
      var i, j :| IsLastNamed(subs, other, i, j);
      assert IsLastNamed(r, other, i, j);
    }
  }

  /** Overwriting a name that occurs nowhere gives back the same list. */
  lemma OverwriteNoMatch(subs: seq<SubCategory>, name: string, value: Value)
    requires LastMatch(subs, name).None?
    ensures Overwrite(subs, name, value) == subs
  {
    var r := Overwrite(subs, name, value);
    OverwriteSpec(subs, name, value);
    LastMatchSpec(subs, name);
    forall i | 0 <= i < |subs| ensures r[i] == subs[i] {
      assert forall j :: 0 <= j < |subs[i].parameters| ==> !Named(subs, name, i, j);
      assert r[i].parameters == subs[i].parameters;
    }
  }

  /**
   * The inner `forEach` of `setSetting` over one subcategory's parameters:
   * every parameter named `parameter` is overwritten, and `oldValue` ends as
   * the last matching parameter's previous value, or stays `carried` (the
   * value left by earlier subcategories) when none matches.
   */
  method ApplyToParams(ps: seq<Parameter>, parameter: string, value: Value, carried: Option<Value>)
    returns (updated: seq<Parameter>, oldValue: Option<Value>)
    ensures updated == OverwriteParams(ps, parameter, value)
    ensures oldValue == match LastMatchParams(ps, parameter)
                        case Some(v) => Some(v)
                        case None => carried
  {
    updated, oldValue := ps, carried;
    var j := 0;
    while j < |updated|
      invariant 0 <= j <= |updated| == |ps|
      invariant updated[..j] == OverwriteParams(ps[..j], parameter, value)
      invariant updated[j..] == ps[j..]
      invariant oldValue == match LastMatchParams(ps[..j], parameter)
                            case Some(v) => Some(v)
                            case None => carried
    {
      assert ps[..j + 1][..j] == ps[..j];
      assert updated[j + 1..] == updated[j..][1..] == ps[j..][1..] == ps[j + 1..];
      if updated[j].name == parameter {
        ghost var before := updated;
        oldValue := Some(updated[j].currentValue);
        updated := updated[j := updated[j].(currentValue := value)];
        assert updated[j + 1..] == before[j + 1..];
      }
      j := j + 1;
    }
    assert ps[..j] == ps;
  }

  /** One more subcategory processed by the outer loop of `setSetting`. */
  lemma ExtendPrefix(subs: seq<SubCategory>, name: string, value: Value, i: nat)
    requires i < |subs|
    ensures Overwrite(subs[..i + 1], name, value) ==
      Overwrite(subs[..i], name, value) + [subs[i].(parameters := OverwriteParams(subs[i].parameters, name, value))]
    ensures LastMatch(subs[..i + 1], name) == match LastMatchParams(subs[i].parameters, name)
      case Some(v) => Some(v)
      case None => LastMatch(subs[..i], name)
  {
    assert subs[..i + 1][..i] == subs[..i];
  }

  /**
   * `setSetting`'s nested `forEach` loops, run on the fetched list: returns
   * the overwritten list and the `oldValue` the loops leave behind.
   */
  method ApplySetting(settings: seq<SubCategory>, parameter: string, value: Value)
    returns (updated: seq<SubCategory>, oldValue: Option<Value>)
    ensures updated == Overwrite(settings, parameter, value)
    ensures oldValue == LastMatch(settings, parameter)
  {
    updated, oldValue := settings, None;
    var i := 0;
    while i < |updated|
      invariant 0 <= i <= |settings| == |updated|
      invariant updated[..i] == Overwrite(settings[..i], parameter, value)
      invariant updated[i..] == settings[i..]
      invariant oldValue == LastMatch(settings[..i], parameter)
    {
      var params;
      params, oldValue := ApplyToParams(updated[i].parameters, parameter, value, oldValue);
      ExtendPrefix(settings, parameter, value, i);
      assert updated[i + 1..] == updated[i..][1..] == settings[i..][1..] == settings[i + 1..];
      ghost var before := updated;
      updated := updated[i := updated[i].(parameters := params)];
      assert updated[i + 1..] == before[i + 1..];
      assert updated[..i + 1] == before[..i] + [updated[i]];
      i := i + 1;
    }
    assert settings[..i] == settings;
  }

  // ---------------------------------------------------------------------------
  // getAvailableValues
  // ---------------------------------------------------------------------------

  /** Subcategory `i` is the first one named `name` (what `Array.prototype.find` picks). */
  predicate IsFirstSub(subs: seq<SubCategory>, name: string, i: int) {
    0 <= i < |subs| && subs[i].nameSubCategory == name &&
    forall k :: 0 <= k < i ==> subs[k].nameSubCategory != name
  }

  /** Parameter `j` is the first one named `name`. */
  predicate IsFirstParam(ps: seq<Parameter>, name: string, j: int) {
    0 <= j < |ps| && ps[j].name == name &&
    forall k :: 0 <= k < j ==> ps[k].name != name
  }

  /** `categorySettings.find(sub => sub.nameSubCategory === name)`. */
  function FindSub(subs: seq<SubCategory>, name: string): (r: Option<SubCategory>)
    ensures r.None? <==> forall i :: 0 <= i < |subs| ==> subs[i].nameSubCategory != name
    ensures forall i :: IsFirstSub(subs, name, i) ==> r == Some(subs[i])
  {
    if subs == [] then None
    else if subs[0].nameSubCategory == name then Some(subs[0])
    else
      var r := FindSub(subs[1..], name);
      assert forall i :: 1 <= i < |subs| && IsFirstSub(subs, name, i) ==> IsFirstSub(subs[1..], name, i - 1);
      r
  }

  /** `parameters.find(param => param.name === name)`. */
  function FindParam(ps: seq<Parameter>, name: string): (r: Option<Parameter>)
    ensures r.None? <==> forall j :: 0 <= j < |ps| ==> ps[j].name != name
    ensures forall j :: IsFirstParam(ps, name, j) ==> r == Some(ps[j])
  {
    if ps == [] then None
    else if ps[0].name == name then Some(ps[0])
    else
      var r := FindParam(ps[1..], name);
      assert forall j :: 1 <= j < |ps| && IsFirstParam(ps, name, j) ==> IsFirstParam(ps[1..], name, j - 1);
      r
  }

  /** `Object.values(entry)[0]`: the first property's value, undefined for an empty entry. */
  function FirstField(entry: seq<Field>): Option<Value> {
    if entry == [] then None else Some(entry[0].val)
  }

  /**
   * `getAvailableValues(category, subcategory, parameter)`: `[]` when the
   * category, the subcategory or the parameter is missing (the first match
   * is used at both inner levels); otherwise the first property of every
   * entry of the parameter's `values`, in order.
   */
  function AvailableValues(store: Store, category: string, subcategory: string, parameter: string)
    : (r: seq<Option<Value>>)
    ensures category !in store ==> r == []
    ensures category in store &&
            (forall i :: 0 <= i < |store[category]| ==> store[category][i].nameSubCategory != subcategory)
            ==> r == []
    ensures category in store ==> forall i ::
              (IsFirstSub(store[category], subcategory, i) &&
               forall j :: 0 <= j < |store[category][i].parameters| ==>
                 store[category][i].parameters[j].name != parameter)
              ==> r == []
    ensures category in store ==> forall i, j ::
              IsFirstSub(store[category], subcategory, i) &&
              IsFirstParam(store[category][i].parameters, parameter, j) ==>
              |r| == |store[category][i].parameters[j].values| &&
              forall k :: 0 <= k < |r| ==> r[k] == FirstField(store[category][i].parameters[j].values[k])
  {
    match Fetch(store, category)
    case None => []
    case Some(subs) =>
      match FindSub(subs, subcategory)
      case None => []
      case Some(sub) =>
        match FindParam(sub.parameters, parameter)
        case None => []
        case Some(p) => seq(|p.values|, k requires 0 <= k < |p.values| => FirstField(p.values[k]))
  }
}
