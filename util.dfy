/**
 * `enum(names)`: a read-only object whose attributes map each name to its
 * position in `names`. It is built by a metaclass that writes the pairs of
 * `enumerate(names)` into the class dictionary one after the other, so a
 * name listed several times keeps the last position it appears at.
 */
module Util {
  import opened Wrappers

  /** The exceptions an enum object raises. */
  datatype EnumError =
    | NotImplemented              // any attribute assignment
    | AttributeMissing(name: string)

  /** `enumerate(names)`: each name paired with its position. */
  function Enumerate(names: seq<string>): (pairs: seq<(nat, string)>)
    ensures |pairs| == |names|
    ensures forall i :: 0 <= i < |names| ==> pairs[i] == (i, names[i])
  {
    seq(|names|, i requires 0 <= i < |names| => (i, names[i]))
  }

  /** The dictionary `foo` leaves behind after writing `dict[k] = v` for each
      pair `(v, k)` of `attribs`, in order. */
  function Assign(dict: map<string, nat>, attribs: seq<(nat, string)>): map<string, nat>
    decreases |attribs|
  {
    if attribs == [] then dict
    else
      var last := attribs[|attribs| - 1];
      Assign(dict, attribs[..|attribs| - 1])[last.1 := last.0]
  }

  /** The last position at which `n` occurs in `names`. */
  function LastIndex(names: seq<string>, n: string): (v: nat)
    requires n in names
    ensures v < |names| && names[v] == n
    ensures forall j :: v < j < |names| ==> names[j] != n
    decreases |names|
  {
    if names[|names| - 1] == n then |names| - 1
    else LastIndex(names[..|names| - 1], n)
  }

  /** The table an enum holds: every listed name, at its last position. */
  function Table(names: seq<string>): map<string, nat> {
    map n | n in names :: LastIndex(names, n)
  }

  /** `M_add_class_attribs(attribs)` applied to a class dictionary: the loop
      of `foo`, writing each pair in order. */
  method AddClassAttribs(attribs: seq<(nat, string)>, dict: map<string, nat>) returns (d: map<string, nat>)
    ensures d == Assign(dict, attribs)
  {
    d := dict;
    for i := 0 to |attribs|
      invariant d == Assign(dict, attribs[..i])
    {
      assert attribs[..i + 1][..i] == attribs[..i];
      d := d[attribs[i].1 := attribs[i].0];
    }
    assert attribs[..|attribs|] == attribs;
  }

  /** Writing the enumerated names in order into an empty dictionary yields
      the table of last positions. */
  lemma {:induction false} AssignEnumerate(names: seq<string>)
    ensures Assign(map[], Enumerate(names)) == Table(names)
    decreases |names|
  {
    if names != [] {
      var n := |names| - 1;
      var init := names[..n];
      assert Enumerate(names)[..n] == Enumerate(init);
      AssignEnumerate(init);
      var t := Table(init)[names[n] := n];
      assert Assign(map[], Enumerate(names)) == t;
      forall k | k in names
        ensures k in t && t[k] == LastIndex(names, k)
      {
        if k != names[n] {
          var i :| 0 <= i < |names| && names[i] == k;
          assert init[i] == k;
        }
      }
      forall k | k in t
        ensures k in names
      {
        if k != names[n] {
          var i :| 0 <= i < |init| && init[i] == k;
          assert names[i] == k;
        }
      }
    }
  }

  /** The object `enum(names)` returns. Its table is a `const`: nothing can
      change it once the object exists. */
  class EnumObject {
    const attrs: map<string, nat>

    /** `enum(names)`. */
    constructor (names: seq<string>)
      ensures attrs == Table(names)
    {
      var d := AddClassAttribs(Enumerate(names), map[]);
      AssignEnumerate(names);
      attrs := d;
    }

    /** Reading the attribute `name`. */
    function Get(name: string): (r: Result<nat, EnumError>)
      ensures name in attrs <==> r.Ok?
      ensures r.Ok? ==> r.value == attrs[name]
      ensures r.Err? ==> r.error == AttributeMissing(name)
    {
      if name in attrs then Ok(attrs[name]) else Err(AttributeMissing(name))
    }

    /** `__setattr__`: every assignment raises, and the table stays as it was. */
    method SetAttr(name: string, value: nat) returns (r: Outcome<EnumError>)
      ensures r == Fail(NotImplemented)
    {
      r := Fail(NotImplemented);
    }
  }

  /** What an enum promises: exactly the listed names have a value; each
      value is a position in `names` holding that name, the last such
      position; distinct names have distinct values. */
  lemma TableLastIndex(names: seq<string>)
    ensures Table(names).Keys == set n | n in names
    ensures forall n :: n in Table(names) ==>
              && Table(names)[n] < |names|
              && names[Table(names)[n]] == n
              && forall j :: Table(names)[n] < j < |names| ==> names[j] != n
    ensures forall n, m :: n in Table(names) && m in Table(names) && n != m ==>
              Table(names)[n] != Table(names)[m]
  {
  }

  /** A name's value is the position of its last occurrence. */
  lemma TableLast(names: seq<string>, i: nat)
    requires i < |names|
    requires names[i] !in names[i + 1..]
    ensures names[i] in Table(names) && Table(names)[names[i]] == i
  {
  }
}
