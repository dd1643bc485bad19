/**
 A header set as a JavaScript object: names in insertion order. A JavaScript
 object holds each name at most once; here that is the condition
 `DistinctNames`, not a property of the type, and the lemmas that need it say
 so. Assigning to a property (`headers[name] = value`, index.js:119) overwrites
 the value of the first entry with that name in place when there is one and
 appends the name otherwise.
 */
module Headers {
  import opened Wrappers

  type Header = (string, string)

  predicate DistinctNames(h: seq<Header>) {
    forall i, j :: 0 <= i < j < |h| ==> h[i].0 != h[j].0
  }

  function Names(h: seq<Header>): (r: seq<string>)
    ensures |r| == |h| && forall i :: 0 <= i < |h| ==> r[i] == h[i].0
  {
    if h == [] then [] else [h[0].0] + Names(h[1..])
  }

  /** Property read `h[name]`. */
  function Get(h: seq<Header>, name: string): (r: Option<string>)
    ensures r.None? <==> name !in Names(h)
  {
    if h == [] then None
    else if h[0].0 == name then Some(h[0].1)
    else Get(h[1..], name)
  }

  /** Property assignment `h[name] = value`. */
  function SetHeader(h: seq<Header>, name: string, value: string): (r: seq<Header>)
    ensures |r| == if name in Names(h) then |h| else |h| + 1
  {
    if h == [] then [(name, value)]
    else if h[0].0 == name then [(name, value)] + h[1..]
    else [h[0]] + SetHeader(h[1..], name, value)
  }

  /** After the assignment the name reads back the new value. */
  lemma {:induction false} GetAfterSet(h: seq<Header>, name: string, value: string)
    ensures Get(SetHeader(h, name, value), name) == Some(value)
  {
    if h != [] && h[0].0 != name {
      GetAfterSet(h[1..], name, value);
    }
  }

  /** The assignment leaves every other name as it was. */
  lemma {:induction false} GetOtherAfterSet(h: seq<Header>, name: string, value: string, other: string)
    requires other != name
    ensures Get(SetHeader(h, name, value), other) == Get(h, other)
  {
    if h != [] && h[0].0 != name {
      GetOtherAfterSet(h[1..], name, value, other);
    }
  }

  /**
   An existing name keeps its position and only its value changes; a new name
   is appended at the end.
   */
  lemma {:induction false} SetKeepsOrder(h: seq<Header>, name: string, value: string)
    ensures name in Names(h) ==> Names(SetHeader(h, name, value)) == Names(h)
    ensures name !in Names(h) ==> SetHeader(h, name, value) == h + [(name, value)]
  {
    if h != [] && h[0].0 != name {
      SetKeepsOrder(h[1..], name, value);
      assert Names(h) == [h[0].0] + Names(h[1..]);
      assert h == [h[0]] + h[1..];
    }
  }

  /** The assignment never introduces a duplicate name. */
  lemma SetKeepsDistinct(h: seq<Header>, name: string, value: string)
    requires DistinctNames(h)
    ensures DistinctNames(SetHeader(h, name, value))
  {
    SetKeepsOrder(h, name, value);
    var r := SetHeader(h, name, value);
    if name in Names(h) {
      assert Names(r) == Names(h);
      forall i, j | 0 <= i < j < |r| ensures r[i].0 != r[j].0 {
        assert r[i].0 == Names(r)[i] && r[j].0 == Names(r)[j];
      }
    }
  }

  /** The headers object of one response, updated in place. */
  class HeaderSet {
    var entries: seq<Header>

    constructor (initial: seq<Header>)
      ensures entries == initial
    {
      entries := initial;
    }

    function Lookup(name: string): (r: Option<string>)
      reads this
    {
      Get(entries, name)
    }

    /** `headers[name] = value`. */
    method Set(name: string, value: string)
      modifies this
      ensures entries == SetHeader(old(entries), name, value)
      ensures Lookup(name) == Some(value)
      ensures forall other :: other != name ==> Lookup(other) == old(Lookup(other))
      ensures DistinctNames(old(entries)) ==> DistinctNames(entries)
    {
      ghost var before := entries;
      entries := SetHeader(entries, name, value);
      forall other | other != name ensures Get(entries, other) == Get(before, other) {
        GetOtherAfterSet(before, name, value, other);
      }
      GetAfterSet(before, name, value);
      if DistinctNames(before) {
        SetKeepsDistinct(before, name, value);
      }
    }
  }
}
