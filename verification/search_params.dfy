/** The query string of a `URL` object as the authorization endpoints build it: an ordered
    list of name/value pairs changed by successive `searchParams.set` calls and read by
    `searchParams.get`, as the URL Standard's `URLSearchParams` defines them. */
module SearchParams {
  import opened Wrappers
  import opened Seqs

  type Pair = (string, string)

  function Named(name: string): Pair -> bool {
    (p: Pair) => p.0 == name
  }

  function NotNamed(name: string): Pair -> bool {
    (p: Pair) => p.0 != name
  }

  /** `get(name)`: the value of the first pair with that name. */
  function Get(pairs: seq<Pair>, name: string): (r: Option<string>)
    ensures r.Some? ==> (name, r.value) in pairs
    ensures r.None? <==> forall i :: 0 <= i < |pairs| ==> pairs[i].0 != name
  {
    var named := Filter(pairs, Named(name));
    FilterEmpty(pairs, Named(name));
    if named == [] then None
    else
      FilterMembership(pairs, Named(name), named[0]);
      Some(named[0].1)
  }

  /** `set(name, value)`: the first pair with that name takes the value and the later ones
      are removed; without such a pair, the pair is appended. */
  function SetParam(pairs: seq<Pair>, name: string, value: string): seq<Pair> {
    match FindIndex(pairs, Named(name))
    case None => pairs + [(name, value)]
    case Some(i) => pairs[..i] + [(name, value)] + Filter(pairs[i + 1..], NotNamed(name))
  }

  /** After `set`, the name occurs exactly once and `get` returns the value set. */
  lemma {:induction false} GetAfterSet(pairs: seq<Pair>, name: string, value: string)
    ensures Get(SetParam(pairs, name, value), name) == Some(value)
    ensures Count(SetParam(pairs, name, value), Named(name)) == 1
  {
    var r := SetParam(pairs, name, value);
    match FindIndex(pairs, Named(name))
    case None =>
      FilterEmpty(pairs, Named(name));
      FilterAppend(pairs, [(name, value)], Named(name));
      assert [(name, value)][..0] == [];
    case Some(i) =>
      var head, tail := pairs[..i], Filter(pairs[i + 1..], NotNamed(name));
      FilterEmpty(head, Named(name));
      FilterEmpty(tail, Named(name));
      FilterAppend(head + [(name, value)], tail, Named(name));
      FilterAppend(head, [(name, value)], Named(name));
      assert [(name, value)][..0] == [];
  }

  /** `set` leaves every other name's value as it was. */
  lemma {:induction false} SetLeavesOthers(pairs: seq<Pair>, name: string, value: string, other: string)
    requires other != name
    ensures Get(SetParam(pairs, name, value), other) == Get(pairs, other)
  {
    match FindIndex(pairs, Named(name))
    case None =>
      FilterAppend(pairs, [(name, value)], Named(other));
      assert [(name, value)][..0] == [];
    case Some(i) =>
      var head, rest := pairs[..i], pairs[i + 1..];
      assert pairs == head + [pairs[i]] + rest;
      FilterAppend(head + [pairs[i]], rest, Named(other));
      FilterAppend(head, [pairs[i]], Named(other));
      assert [pairs[i]][..0] == [];
      FilterFilter(rest, NotNamed(name), Named(other));
      FilterAppend(head + [(name, value)], Filter(rest, NotNamed(name)), Named(other));
      FilterAppend(head, [(name, value)], Named(other));
      assert [(name, value)][..0] == [];
  }

  /** Setting a name the list does not hold yet appends it. */
  lemma {:induction false} SetNewName(pairs: seq<Pair>, name: string, value: string)
    requires forall i :: 0 <= i < |pairs| ==> pairs[i].0 != name
    ensures SetParam(pairs, name, value) == pairs + [(name, value)]
  {
  }

  /** `get` finds a pair when no earlier pair has its name. */
  lemma {:induction false} GetFirst(pairs: seq<Pair>, k: nat)
    requires k < |pairs|
    requires forall j :: 0 <= j < k ==> pairs[j].0 != pairs[k].0
    ensures Get(pairs, pairs[k].0) == Some(pairs[k].1)
  {
    var name := pairs[k].0;
    var head, rest := pairs[..k], pairs[k + 1..];
    assert pairs == head + [pairs[k]] + rest;
    FilterAppend(head + [pairs[k]], rest, Named(name));
    FilterAppend(head, [pairs[k]], Named(name));
    FilterEmpty(head, Named(name));
    assert [pairs[k]][..0] == [];
  }

  /** The `searchParams` of one `URL` object. */
  class Query {
    var pairs: seq<Pair>

    /** A URL without a query string. */
    constructor ()
      ensures pairs == []
    {
      pairs := [];
    }

    method Set(name: string, value: string)
      modifies this
      ensures pairs == SetParam(old(pairs), name, value)
    {
      pairs := SetParam(pairs, name, value);
    }
  }
}
