/** A query string as `URLSearchParams` holds it: an ordered list of name/value pairs. */
module SearchParams {
  import opened Wrappers

  datatype Param = Param(name: string, value: string)

  /** `params.get(name)`: the value of the first pair with that name. */
  function Get(params: seq<Param>, name: string): (r: Option<string>)
    ensures r.None? <==> forall i :: 0 <= i < |params| ==> params[i].name != name
    ensures r.Some? ==> exists i :: 0 <= i < |params| && params[i] == Param(name, r.value)
    ensures r.Some? ==> FirstIndex(params, name) < |params| && r.value == params[FirstIndex(params, name)].value
  {
    if params == [] then None
    else if params[0].name == name then Some(params[0].value)
    else
      var r := Get(params[1..], name);
      assert r.Some? ==> exists i :: 0 <= i < |params[1..]| && params[1..][i] == Param(name, r.value);
      r
  }

  /** The pairs with the given name, in order. */
  function Named(params: seq<Param>, name: string): seq<Param> {
    if params == [] then []
    else (if params[0].name == name then [params[0]] else []) + Named(params[1..], name)
  }

  /** `Named` distributes over concatenation. */
  lemma {:induction false} NamedAppend(a: seq<Param>, b: seq<Param>, name: string)
    ensures Named(a + b, name) == Named(a, name) + Named(b, name)
  {
    if a == [] {
      assert a + b == b;
    } else {
      var head := if a[0].name == name then [a[0]] else [];
      assert (a + b)[0] == a[0];
      assert (a + b)[1..] == a[1..] + b;
      assert Named(a + b, name) == head + Named(a[1..] + b, name);
      NamedAppend(a[1..], b, name);
      assert head + (Named(a[1..], name) + Named(b, name))
          == (head + Named(a[1..], name)) + Named(b, name);
    }
  }

  /** The pairs without the given name, in order. */
  function Without(params: seq<Param>, name: string): (r: seq<Param>)
    ensures Named(r, name) == []
    ensures forall other :: other != name ==> Named(r, other) == Named(params, other)
  {
    if params == [] then []
    else
      var head := if params[0].name == name then [] else [params[0]];
      var rest := Without(params[1..], name);
      NamedAppend(head, rest, name);
      forall other | other != name ensures Named(head + rest, other) == Named(params, other) {
        NamedAppend(head, rest, other);
        NamedAppend([params[0]], params[1..], other);
        assert params == [params[0]] + params[1..];
      }
      head + rest
  }

  /** Removing a name twice is removing it once. */
  lemma {:induction false} WithoutTwice(params: seq<Param>, name: string)
    ensures Without(Without(params, name), name) == Without(params, name)
  {
    if params != [] {
      WithoutTwice(params[1..], name);
      var rest := Without(params[1..], name);
      if params[0].name == name {
        assert Without(params, name) == [] + rest == rest;
      } else {
        var w := [params[0]] + rest;
        assert Without(params, name) == w;
        assert w[0] == params[0] && w[1..] == rest;
        assert Without(w, name) == [params[0]] + Without(rest, name);
      }
    }
  }

  /** The index of the first pair with the name, or the length when there is none. */
  function FirstIndex(params: seq<Param>, name: string): (k: nat)
    ensures k <= |params|
    ensures forall i :: 0 <= i < k ==> params[i].name != name
    ensures k < |params| ==> params[k].name == name
  {
    if params == [] || params[0].name == name then 0
    else 1 + FirstIndex(params[1..], name)
  }

  /** Putting back the head in front of a split of the tail splits the whole list. */
  lemma ConsShape(params: seq<Param>, k: nat, mid: seq<Param>, tail: seq<Param>)
    requires 1 <= k < |params|
    ensures [params[0]] + (params[1..][..k - 1] + mid + tail) == params[..k] + mid + tail
    ensures params[k + 1..] == params[1..][k..]
  {
    assert params[..k] == [params[0]] + params[1..][..k - 1];
  }

  /**
   * The set operation as the URL standard words it: the first pair with the name takes the
   * value and the later pairs with the name are removed; with no such pair, one is appended.
   */
  function SetSpec(params: seq<Param>, name: string, value: string): seq<Param> {
    var k := FirstIndex(params, name);
    if k < |params| then params[..k] + [Param(name, value)] + Without(params[k + 1..], name)
    else params + [Param(name, value)]
  }

  /** Everything `Set` promises about its result `r`, gathered for the two recursive cases. */
  ghost predicate SetsName(params: seq<Param>, name: string, value: string, r: seq<Param>) {
    Named(r, name) == [Param(name, value)] &&
    Get(r, name) == Some(value) &&
    (forall other :: other != name ==> Named(r, other) == Named(params, other)) &&
    Without(r, name) == Without(params, name) &&
    r == SetSpec(params, name, value)
  }

  /** With no pairs at all, the one pair is appended. */
  lemma SetOnEmpty(name: string, value: string)
    ensures SetsName([], name, value, [Param(name, value)])
  {
    var r := [Param(name, value)];
    assert r[1..] == [];
    assert Without(r, name) == [];
  }

  /** The first pair has the name: it takes the value and the later ones go. */
  lemma SetAtHead(params: seq<Param>, name: string, value: string)
    requires params != [] && params[0].name == name
    ensures SetsName(params, name, value, [Param(name, value)] + Without(params[1..], name))
  {
    var r := [Param(name, value)] + Without(params[1..], name);
    NamedAppend([Param(name, value)], Without(params[1..], name), name);
    forall other | other != name ensures Named(r, other) == Named(params, other) {
      NamedAppend([Param(name, value)], Without(params[1..], name), other);
      NamedAppend([params[0]], params[1..], other);
      assert params == [params[0]] + params[1..];
    }
    assert r[1..] == Without(params[1..], name);
    WithoutTwice(params[1..], name);
    assert params[..0] + [Param(name, value)] + Without(params[1..], name) == r;
  }

  /** The first pair has another name: it stays in front of the tail's result. */
  lemma SetPastHead(params: seq<Param>, name: string, value: string, rest: seq<Param>)
    requires params != [] && params[0].name != name
    requires SetsName(params[1..], name, value, rest)
    ensures SetsName(params, name, value, [params[0]] + rest)
  {
    PastHeadNames(params, name, rest);
    PastHeadWithout(params, name, rest);
    PastHeadShape(params, name, value, rest);
  }

  /** Keeping the head keeps the pairs of the other names, given the tail's. */
  lemma PastHeadWithout(params: seq<Param>, name: string, rest: seq<Param>)
    requires params != [] && params[0].name != name
    requires Without(rest, name) == Without(params[1..], name)
    ensures Without([params[0]] + rest, name) == Without(params, name)
  {
    var r := [params[0]] + rest;
    assert r[0] == params[0] && r[1..] == rest;
    assert Without(r, name) == [params[0]] + Without(rest, name);
  }

  /** Keeping the head keeps every name's pairs, given the tail's. */
  lemma PastHeadNames(params: seq<Param>, name: string, rest: seq<Param>)
    requires params != [] && params[0].name != name
    requires forall other :: other != name ==> Named(rest, other) == Named(params[1..], other)
    ensures Named([params[0]] + rest, name) == Named(rest, name)
    ensures forall other :: other != name ==> Named([params[0]] + rest, other) == Named(params, other)
  {
    NamedAppend([params[0]], rest, name);
    forall other | other != name ensures Named([params[0]] + rest, other) == Named(params, other) {
      NamedAppend([params[0]], rest, other);
      NamedAppend([params[0]], params[1..], other);
      assert params == [params[0]] + params[1..];
    }
  }

  /** Keeping the head keeps the place of the set pair, given the tail's. */
  lemma PastHeadShape(params: seq<Param>, name: string, value: string, rest: seq<Param>)
    requires params != [] && params[0].name != name
    requires rest == SetSpec(params[1..], name, value)
    ensures [params[0]] + rest == SetSpec(params, name, value)
  {
    var k := FirstIndex(params, name);
    assert k == 1 + FirstIndex(params[1..], name);
    if k < |params| {
      var tail := Without(params[1..][k..], name);
      assert rest == params[1..][..k - 1] + [Param(name, value)] + tail;
      ConsShape(params, k, [Param(name, value)], tail);
    } else {
      assert params == [params[0]] + params[1..];
    }
  }

  /**
   * `params.set(name, value)`: the first pair with that name takes the value and the
   * other pairs with that name are removed; with no such pair, one is appended.
   * The pairs of every other name keep their places.
   */
  function Set(params: seq<Param>, name: string, value: string): (r: seq<Param>)
    ensures Named(r, name) == [Param(name, value)]
    ensures Get(r, name) == Some(value)
    ensures forall other :: other != name ==> Named(r, other) == Named(params, other)
    ensures Without(r, name) == Without(params, name)
    ensures r == SetSpec(params, name, value)
  {
    var r :=
      if params == [] then
        SetOnEmpty(name, value);
        [Param(name, value)]
      else if params[0].name == name then
        SetAtHead(params, name, value);
        [Param(name, value)] + Without(params[1..], name)
      else
        (var rest := Set(params[1..], name, value);
         SetPastHead(params, name, value, rest);
         [params[0]] + rest);
    assert SetsName(params, name, value, r);
    r
  }
}
