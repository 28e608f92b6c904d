/**
 * Binding a Python call's arguments to a method signature with defaults, as
 * the `#[pyo3(signature = …)]` declarations of the handle's methods require:
 * positional arguments first, then keyword arguments by name, then the
 * defaults of the parameters still unbound.
 */
module PythonCall {
  import opened Wrappers
  import opened RustTypes

  /** The Python objects that reach the handle's methods. */
  datatype PyValue = PyNone | PyBool(b: bool) | PyInt(i: int) | PyFloat(f: F64) | PyStr(s: string)

  /** A parameter of a signature, with its default value if it is optional. */
  datatype Param = Param(name: string, default: Option<PyValue>)

  /** Why a call is refused before the method body runs. */
  datatype CallError =
    | TooManyPositional(given: nat, accepted: nat)
    | UnexpectedKeyword(name: string)
    | MultipleValues(name: string)
    | MissingRequired(names: seq<string>)
    | WrongType(name: string)
    | Overflow(name: string)

  /** Keyword arguments, in the order the caller gave them. */
  type Kwargs = seq<(string, PyValue)>

  /** Parameter names of a signature are pairwise distinct. */
  predicate DistinctNames(params: seq<Param>) {
    forall i, j :: 0 <= i < j < |params| ==> params[i].name != params[j].name
  }

  /** The position of the parameter called `name`. */
  function IndexOf(params: seq<Param>, name: string): (r: Option<nat>)
    ensures r.None? <==> forall i :: 0 <= i < |params| ==> params[i].name != name
    ensures r.Some? ==> r.value < |params| && params[r.value].name == name
    ensures r.Some? ==> forall i :: 0 <= i < r.value ==> params[i].name != name
  {
    if |params| == 0 then None
    else if params[0].name == name then Some(0)
    else match IndexOf(params[1..], name)
      case None => None
      case Some(k) => Some(k + 1)
  }

  /** In a signature with distinct names, a parameter's own name leads back to its position. */
  lemma IndexOfOwnName(params: seq<Param>, k: nat)
    requires DistinctNames(params) && k < |params|
    ensures IndexOf(params, params[k].name) == Some(k)
  {
  }

  /** Some keyword argument of the call names the parameter at position `j`. */
  predicate LandsOn(params: seq<Param>, kwargs: Kwargs, j: nat) {
    exists k :: 0 <= k < |kwargs| && IndexOf(params, kwargs[k].0) == Some(j)
  }

  /**
   * Keyword argument `k` is refused with `e`: its name is no parameter, or
   * the slot it names is already bound, by position or by an earlier keyword.
   */
  predicate Refused(params: seq<Param>, slots: seq<Option<PyValue>>, kwargs: Kwargs, k: nat, e: CallError)
    requires |slots| == |params| && k < |kwargs|
  {
    var name := kwargs[k].0;
    var pos := IndexOf(params, name);
    || (pos.None? && e == UnexpectedKeyword(name))
    || (pos.Some? && e == MultipleValues(name) &&
        (slots[pos.value].Some? || exists l :: 0 <= l < k && kwargs[l].0 == name))
  }

  /**
   * Places the keyword arguments, in order, into the slots of the parameters
   * they name. A name that is no parameter, or whose slot is already bound,
   * is refused (`ApplyKeywordsRefusal`); every slot no keyword names is left
   * as it was (`ApplyKeywordsFrame`).
   */
  function ApplyKeywords(params: seq<Param>, slots: seq<Option<PyValue>>, kwargs: Kwargs)
    : (r: Result<seq<Option<PyValue>>, CallError>)
    requires |slots| == |params|
    ensures r.Success? ==> |r.value| == |params|
    ensures r.Success? ==> forall i :: 0 <= i < |params| && slots[i].Some? ==> r.value[i] == slots[i]
    ensures r.Success? ==> forall k :: 0 <= k < |kwargs| ==>
              var pos := IndexOf(params, kwargs[k].0);
              pos.Some? && slots[pos.value].None? && r.value[pos.value] == Some(kwargs[k].1)
    ensures r.Failure? ==> r.error.UnexpectedKeyword? || r.error.MultipleValues?
    decreases |kwargs|
  {
    if |kwargs| == 0 then Success(slots)
    else
      var name := kwargs[0].0;
      match IndexOf(params, name)
      case None => Failure(UnexpectedKeyword(name))
      case Some(i) =>
        if slots[i].Some? then Failure(MultipleValues(name))
        else
          var r := ApplyKeywords(params, slots[i := Some(kwargs[0].1)], kwargs[1..]);
          assert r.Success? ==> forall k :: 1 <= k < |kwargs| ==> kwargs[k] == kwargs[1..][k - 1];
          r
  }

  /** Keyword arguments change no slot that none of them names. */
  lemma {:induction false} ApplyKeywordsFrame(params: seq<Param>, slots: seq<Option<PyValue>>, kwargs: Kwargs, j: nat)
    requires |slots| == |params| && j < |params|
    requires ApplyKeywords(params, slots, kwargs).Success? && !LandsOn(params, kwargs, j)
    ensures ApplyKeywords(params, slots, kwargs).value[j] == slots[j]
    decreases |kwargs|
  {
    if |kwargs| > 0 {
      var i := IndexOf(params, kwargs[0].0).value;
      assert i != j;
      ApplyKeywordsFrame(params, slots[i := Some(kwargs[0].1)], kwargs[1..], j);
    }
  }

  /** A call whose keyword arguments are accepted names no parameter twice. */
  lemma {:induction false} ApplyKeywordsDistinct(params: seq<Param>, slots: seq<Option<PyValue>>, kwargs: Kwargs)
    requires |slots| == |params| && ApplyKeywords(params, slots, kwargs).Success?
    ensures forall k, l :: 0 <= l < k < |kwargs| ==> kwargs[l].0 != kwargs[k].0
    decreases |kwargs|
  {
    if |kwargs| > 0 {
      var i := IndexOf(params, kwargs[0].0).value;
      var slots' := slots[i := Some(kwargs[0].1)];
      var r := ApplyKeywords(params, slots', kwargs[1..]);
      ApplyKeywordsDistinct(params, slots', kwargs[1..]);
      forall k, l | 0 <= l < k < |kwargs| ensures kwargs[l].0 != kwargs[k].0 {
        assert kwargs[k] == kwargs[1..][k - 1];
        if l > 0 {
          assert kwargs[l] == kwargs[1..][l - 1];
        } else {
          assert slots'[i].Some?;
        }
      }
    }
  }

  /** A refused call has a keyword argument that names no parameter or names an already bound one. */
  lemma {:induction false} ApplyKeywordsRefusal(params: seq<Param>, slots: seq<Option<PyValue>>, kwargs: Kwargs)
    requires |slots| == |params|
    ensures var r := ApplyKeywords(params, slots, kwargs);
            r.Failure? ==> exists k :: 0 <= k < |kwargs| && Refused(params, slots, kwargs, k, r.error)
    decreases |kwargs|
  {
    var r := ApplyKeywords(params, slots, kwargs);
    if r.Failure? {
      var name := kwargs[0].0;
      var pos := IndexOf(params, name);
      if pos.None? || slots[pos.value].Some? {
        assert Refused(params, slots, kwargs, 0, r.error);
      } else {
        var i := pos.value;
        var slots' := slots[i := Some(kwargs[0].1)];
        ApplyKeywordsRefusal(params, slots', kwargs[1..]);
        var k' :| 0 <= k' < |kwargs| - 1 && Refused(params, slots', kwargs[1..], k', r.error);
        var n := kwargs[k' + 1].0;
        assert kwargs[1..][k'] == kwargs[k' + 1];
        var p := IndexOf(params, n);
        if p.Some? && r.error == MultipleValues(n) {
          if slots'[p.value].Some? && slots[p.value].None? {
            assert p.value == i;
            assert kwargs[0].0 == n;
          } else if slots[p.value].None? {
            var l :| 0 <= l < k' && kwargs[1..][l].0 == n;
            assert kwargs[l + 1].0 == n;
          }
        }
        assert Refused(params, slots, kwargs, k' + 1, r.error);
      }
    }
  }

  /**
   * Keyword arguments with distinct names, each naming a parameter whose slot
   * is still unbound, are all accepted.
   */
  lemma {:induction false} ApplyKeywordsAccepts(params: seq<Param>, slots: seq<Option<PyValue>>, kwargs: Kwargs)
    requires |slots| == |params|
    requires forall k :: 0 <= k < |kwargs| ==>
               var pos := IndexOf(params, kwargs[k].0); pos.Some? && slots[pos.value].None?
    requires forall k, l :: 0 <= l < k < |kwargs| ==> kwargs[l].0 != kwargs[k].0
    ensures ApplyKeywords(params, slots, kwargs).Success?
    decreases |kwargs|
  {
    if |kwargs| > 0 {
      var i := IndexOf(params, kwargs[0].0).value;
      var slots' := slots[i := Some(kwargs[0].1)];
      forall k | 0 <= k < |kwargs| - 1
        ensures var pos := IndexOf(params, kwargs[1..][k].0); pos.Some? && slots'[pos.value].None?
      {
        assert kwargs[1..][k] == kwargs[k + 1];
        assert kwargs[0].0 != kwargs[k + 1].0;
      }
      forall k, l | 0 <= l < k < |kwargs| - 1 ensures kwargs[1..][l].0 != kwargs[1..][k].0 {
        assert kwargs[1..][l] == kwargs[l + 1] && kwargs[1..][k] == kwargs[k + 1];
      }
      ApplyKeywordsAccepts(params, slots', kwargs[1..]);
    }
  }

  /** Slot `i` can be given a value: it is bound, or its parameter has a default. */
  predicate Fillable(params: seq<Param>, slots: seq<Option<PyValue>>, i: nat)
    requires |slots| == |params| && i < |params|
  {
    slots[i].Some? || params[i].default.Some?
  }

  /** The value slot `i` ends up with. */
  function Filled(params: seq<Param>, slots: seq<Option<PyValue>>, i: nat): PyValue
    requires |slots| == |params| && i < |params| && Fillable(params, slots, i)
  {
    if slots[i].Some? then slots[i].value else params[i].default.value
  }

  /** The names of all required parameters left unbound at position `from` or later, in order. */
  function MissingFrom(params: seq<Param>, slots: seq<Option<PyValue>>, from: nat): (names: seq<string>)
    requires |slots| == |params| && from <= |params|
    ensures names == [] <==> forall i :: from <= i < |params| ==> Fillable(params, slots, i)
    ensures forall n :: n in names ==>
              exists i :: from <= i < |params| && !Fillable(params, slots, i) && params[i].name == n
    ensures forall i :: from <= i < |params| && !Fillable(params, slots, i) ==> params[i].name in names
    decreases |params| - from
  {
    if from == |params| then []
    else (if Fillable(params, slots, from) then [] else [params[from].name]) + MissingFrom(params, slots, from + 1)
  }

  /** The slots after the positional arguments: the first `|args|` bound, in order, the rest unbound. */
  function Slots(params: seq<Param>, args: seq<PyValue>): (slots: seq<Option<PyValue>>)
    requires |args| <= |params|
    ensures |slots| == |params|
    ensures forall i :: 0 <= i < |args| ==> slots[i] == Some(args[i])
    ensures forall i :: |args| <= i < |params| ==> slots[i] == None
  {
    seq(|params|, i requires 0 <= i < |params| => if i < |args| then Some(args[i]) else None)
  }

  /** What the slots hold once the keyword arguments are placed, in terms of the call. */
  lemma BoundSlots(params: seq<Param>, args: seq<PyValue>, kwargs: Kwargs)
    requires |args| <= |params| && ApplyKeywords(params, Slots(params, args), kwargs).Success?
    ensures var bound := ApplyKeywords(params, Slots(params, args), kwargs).value;
            && (forall i :: 0 <= i < |args| ==> bound[i] == Some(args[i]))
            && (forall i :: |args| <= i < |params| && !LandsOn(params, kwargs, i) ==> bound[i] == None)
  {
    forall i | |args| <= i < |params| && !LandsOn(params, kwargs, i)
      ensures ApplyKeywords(params, Slots(params, args), kwargs).value[i] == None
    {
      ApplyKeywordsFrame(params, Slots(params, args), kwargs, i);
    }
  }

  /**
   * The values a call binds to the parameters of a signature, or why the call
   * is refused: too many positional arguments, a bad keyword argument, or
   * required parameters left without a value (all of them named).
   */
  function Bind(params: seq<Param>, args: seq<PyValue>, kwargs: Kwargs): (r: Result<seq<PyValue>, CallError>)
    ensures |args| > |params| ==> r == Failure(TooManyPositional(|args|, |params|))
    ensures r.Success? ==> |r.value| == |params|
    ensures r.Success? ==> forall i :: 0 <= i < |args| ==> r.value[i] == args[i]
    ensures r.Success? ==> forall k :: 0 <= k < |kwargs| ==>
              var pos := IndexOf(params, kwargs[k].0);
              pos.Some? && r.value[pos.value] == kwargs[k].1
    ensures r.Success? ==> forall i :: |args| <= i < |params| && !LandsOn(params, kwargs, i) ==>
              params[i].default.Some? && r.value[i] == params[i].default.value
    ensures r.Failure? && r.error.MissingRequired? ==>
              r.error.names != [] &&
              forall n :: n in r.error.names ==>
                exists i :: |args| <= i < |params| && !LandsOn(params, kwargs, i) &&
                  params[i].name == n && params[i].default.None?
    ensures r.Failure? && r.error.MissingRequired? ==>
              forall i :: (|args| <= i < |params| && !LandsOn(params, kwargs, i) && params[i].default.None?) ==>
                params[i].name in r.error.names
  {
    if |args| > |params| then Failure(TooManyPositional(|args|, |params|))
    else
      var bound :- ApplyKeywords(params, Slots(params, args), kwargs);
      BoundSlots(params, args, kwargs);
      var missing := MissingFrom(params, bound, 0);
      if missing != [] then Failure(MissingRequired(missing))
      else Success(seq(|params|, i requires 0 <= i < |params| => Filled(params, bound, i)))
  }

  /**
   * A call binds exactly when it has no more positional arguments than the
   * signature has parameters, every keyword names a parameter after the
   * positional ones, no keyword is given twice, and every later parameter
   * that no keyword names has a default.
   */
  lemma BindSucceedsIff(params: seq<Param>, args: seq<PyValue>, kwargs: Kwargs)
    ensures Bind(params, args, kwargs).Success? <==>
              && |args| <= |params|
              && (forall k :: 0 <= k < |kwargs| ==>
                    var pos := IndexOf(params, kwargs[k].0); pos.Some? && |args| <= pos.value)
              && (forall k, l :: 0 <= l < k < |kwargs| ==> kwargs[l].0 != kwargs[k].0)
              && (forall i :: |args| <= i < |params| && !LandsOn(params, kwargs, i) ==> params[i].default.Some?)
  {
    if |args| <= |params| {
      var slots := Slots(params, args);
      var r := ApplyKeywords(params, slots, kwargs);
      if r.Success? {
        ApplyKeywordsDistinct(params, slots, kwargs);
        BoundSlots(params, args, kwargs);
      } else if (forall k :: 0 <= k < |kwargs| ==>
                   var pos := IndexOf(params, kwargs[k].0); pos.Some? && |args| <= pos.value)
             && (forall k, l :: 0 <= l < k < |kwargs| ==> kwargs[l].0 != kwargs[k].0) {
        ApplyKeywordsAccepts(params, slots, kwargs);
        assert false;
      }
    }
  }

  /**
   * The object a call supplies for parameter `j`: the positional argument at
   * `j`, a keyword argument that lands on `j`, or, when neither is given, the
   * parameter's default.
   */
  predicate Supplied(params: seq<Param>, args: seq<PyValue>, kwargs: Kwargs, j: nat, v: PyValue)
    requires j < |params|
  {
    || (j < |args| && args[j] == v)
    || (exists k :: 0 <= k < |kwargs| && IndexOf(params, kwargs[k].0) == Some(j) && kwargs[k].1 == v)
    || (|args| <= j && !LandsOn(params, kwargs, j) && params[j].default == Some(v))
  }

  /** A call that binds takes, for every parameter, exactly the object the call supplies for it. */
  lemma BoundIsSupplied(params: seq<Param>, args: seq<PyValue>, kwargs: Kwargs, j: nat, v: PyValue)
    requires Bind(params, args, kwargs).Success? && j < |params|
    ensures Supplied(params, args, kwargs, j, v) <==> Bind(params, args, kwargs).value[j] == v
  {
  }

  /**
   * A call with positional arguments only binds them in order and gives every
   * later parameter its default; it fails exactly when a later parameter has none.
   */
  lemma BindPositional(params: seq<Param>, args: seq<PyValue>)
    requires |args| <= |params|
    ensures var r := Bind(params, args, []);
            && (r.Success? <==> forall i :: |args| <= i < |params| ==> params[i].default.Some?)
            && (r.Success? ==> forall i :: |args| <= i < |params| ==> r.value[i] == params[i].default.value)
  {
    var slots := Slots(params, args);
    assert ApplyKeywords(params, slots, []) == Success(slots);
    var r := Bind(params, args, []);
    if forall i :: |args| <= i < |params| ==> params[i].default.Some? {
      assert forall i :: 0 <= i < |params| ==> Fillable(params, slots, i);
    } else {
      var i :| |args| <= i < |params| && params[i].default.None?;
      assert !Fillable(params, slots, i);
    }
  }

  /** The call that passes each value by the name of its parameter, in signature order. */
  function ByName(params: seq<Param>, values: seq<PyValue>): (kwargs: Kwargs)
    requires |values| == |params|
    ensures |kwargs| == |params|
    ensures forall i :: 0 <= i < |params| ==> kwargs[i].0 == params[i].name && kwargs[i].1 == values[i]
  {
    seq(|params|, i requires 0 <= i < |params| => (params[i].name, values[i]))
  }

  /** Passing every argument by keyword binds the same values as passing them by position. */
  lemma BindByName(params: seq<Param>, values: seq<PyValue>)
    requires DistinctNames(params) && |values| == |params|
    ensures Bind(params, [], ByName(params, values)) == Bind(params, values, []) == Success(values)
  {
    var none := Slots(params, []);
    var kwargs := ByName(params, values);
    var r := ApplyKeywords(params, none, kwargs);
    ApplyKeywordsByName(params, values, 0);
    assert none == Unfilled(params, values, 0);
    assert kwargs[0..] == kwargs;
    var full := seq(|params|, i requires 0 <= i < |params| => Some(values[i]));
    assert r == Success(full);
    assert forall i :: 0 <= i < |params| ==> Fillable(params, full, i);
    assert MissingFrom(params, full, 0) == [];
    assert seq(|params|, i requires 0 <= i < |params| => Filled(params, full, i)) == values;
    assert Bind(params, [], kwargs) == Success(values);
    BindPositional(params, values);
    var p := Bind(params, values, []);
    assert p.Success? && p.value == values;
  }

  /** Slots with the first `k` values bound and the rest unbound. */
  function Unfilled(params: seq<Param>, values: seq<PyValue>, k: nat): (slots: seq<Option<PyValue>>)
    requires |values| == |params| && k <= |params|
    ensures |slots| == |params|
  {
    seq(|params|, i requires 0 <= i < |params| => if i < k then Some(values[i]) else None)
  }

  lemma {:induction false} ApplyKeywordsByName(params: seq<Param>, values: seq<PyValue>, k: nat)
    requires DistinctNames(params) && |values| == |params| && k <= |params|
    ensures ApplyKeywords(params, Unfilled(params, values, k), ByName(params, values)[k..])
            == Success(seq(|params|, i requires 0 <= i < |params| => Some(values[i])))
    decreases |params| - k
  {
    var kwargs := ByName(params, values)[k..];
    var slots := Unfilled(params, values, k);
    if k == |params| {
      assert slots == seq(|params|, i requires 0 <= i < |params| => Some(values[i]));
    } else {
      IndexOfOwnName(params, k);
      assert kwargs[0] == (params[k].name, values[k]);
      assert slots[k := Some(values[k])] == Unfilled(params, values, k + 1);
      assert kwargs[1..] == ByName(params, values)[k + 1..];
      ApplyKeywordsByName(params, values, k + 1);
    }
  }
}
