/**
 * A URL's query as the ordered name/value list of the URLSearchParams class
 * (section 6.2 of the WHATWG URL Standard): `get` returns the first value,
 * `set` rewrites the first pair and removes the others (or appends), and
 * `delete` removes every pair with the name.
 */
module QueryParams {
  import opened Wrappers

  datatype Param = Param(name: string, value: string)

  /** A URL: everything but the query is kept as one opaque string. */
  datatype Url = Url(base: string, query: seq<Param>)

  /** `a || b` on `string | null`: null and "" are falsy. */
  function Or(a: Option<string>, b: Option<string>): (r: Option<string>)
    ensures r == if a.Some? && a.value != "" then a else b
  {
    match a
    case Some(v) => if v != "" then a else b
    case None => b
  }

  predicate Filled(v: Option<string>) {
    v.Some? && v.value != ""
  }

  /** Some pair has the name. */
  predicate Has(ps: seq<Param>, name: string)
    decreases |ps|
  {
    |ps| > 0 && (ps[0].name == name || Has(ps[1..], name))
  }

  lemma {:induction false} HasAt(ps: seq<Param>, name: string)
    ensures Has(ps, name) <==> exists i :: 0 <= i < |ps| && ps[i].name == name
  {
    if |ps| > 0 {
      HasAt(ps[1..], name);
      if Has(ps[1..], name) {
        var i :| 0 <= i < |ps[1..]| && ps[1..][i].name == name;
        assert ps[i + 1].name == name;
      }
      if exists i :: 0 <= i < |ps| && ps[i].name == name {
        var i :| 0 <= i < |ps| && ps[i].name == name;
        if i > 0 {
          assert ps[1..][i - 1].name == name;
        }
      }
    }
  }

  /** `get(name)`: the value of the first pair with the name, or null. */
  function Get(ps: seq<Param>, name: string): (r: Option<string>)
    ensures r.None? <==> !Has(ps, name)
    ensures r.Some? ==> Param(name, r.value) in ps
    ensures r.Some? ==> exists i :: 0 <= i < |ps| && ps[i] == Param(name, r.value) &&
                                    forall j :: 0 <= j < i ==> ps[j].name != name
    decreases |ps|
  {
    if |ps| == 0 then None
    else if ps[0].name == name then Some(ps[0].value)
    else
      var r := Get(ps[1..], name);
      assert r.Some? ==> Param(name, r.value) in ps[1..];
      assert r.Some? ==> exists i :: 0 <= i < |ps| && ps[i] == Param(name, r.value) &&
                                     forall j :: 0 <= j < i ==> ps[j].name != name by {
        if r.Some? {
          var i :| 0 <= i < |ps[1..]| && ps[1..][i] == Param(name, r.value) &&
            forall j :: 0 <= j < i ==> ps[1..][j].name != name;
          assert ps[i + 1] == Param(name, r.value);
          assert forall j :: 0 < j < i + 1 ==> ps[j] == ps[1..][j - 1];
        }
      }
      r
  }

  /** `delete(name)`: every pair with the name is removed, the rest keep their order. */
  function Delete(ps: seq<Param>, name: string): (r: seq<Param>)
    ensures !Has(r, name)
    ensures |r| <= |ps|
    decreases |ps|
  {
    if |ps| == 0 then []
    else if ps[0].name == name then Delete(ps[1..], name)
    else
      var rest := Delete(ps[1..], name);
      assert ([ps[0]] + rest)[1..] == rest;
      [ps[0]] + rest
  }

  /** Rewrites the first pair with the name and removes the later ones. */
  function ReplaceFirst(ps: seq<Param>, name: string, value: string): seq<Param>
    decreases |ps|
  {
    if |ps| == 0 then []
    else if ps[0].name == name then [Param(name, value)] + Delete(ps[1..], name)
    else [ps[0]] + ReplaceFirst(ps[1..], name, value)
  }

  /** `set(name, value)`. */
  function Set(ps: seq<Param>, name: string, value: string): seq<Param> {
    if Has(ps, name) then ReplaceFirst(ps, name, value) else ps + [Param(name, value)]
  }

  /** A pair survives `delete` exactly when it is in the list under another name. */
  lemma {:induction false} DeleteKeeps(ps: seq<Param>, name: string, p: Param)
    ensures p in Delete(ps, name) <==> p in ps && p.name != name
    decreases |ps|
  {
    if |ps| > 0 {
      DeleteKeeps(ps[1..], name, p);
      assert ps == [ps[0]] + ps[1..];
    }
  }

  lemma {:induction false} DeleteAbsent(ps: seq<Param>, name: string)
    requires !Has(ps, name)
    ensures Delete(ps, name) == ps
    decreases |ps|
  {
    if |ps| > 0 {
      DeleteAbsent(ps[1..], name);
      assert [ps[0]] + ps[1..] == ps;
    }
  }

  lemma {:induction false} DeleteAppend(a: seq<Param>, b: seq<Param>, name: string)
    ensures Delete(a + b, name) == Delete(a, name) + Delete(b, name)
    decreases |a|
  {
    if |a| > 0 {
      assert (a + b)[1..] == a[1..] + b;
      DeleteAppend(a[1..], b, name);
      if a[0].name != name {
        assert [a[0]] + (Delete(a[1..], name) + Delete(b, name))
            == ([a[0]] + Delete(a[1..], name)) + Delete(b, name);
      }
    } else {
      assert a + b == b;
    }
  }

  /** Deleting one name and then another is the same in either order. */
  lemma {:induction false} DeleteCommutes(ps: seq<Param>, a: string, b: string)
    ensures Delete(Delete(ps, a), b) == Delete(Delete(ps, b), a)
    decreases |ps|
  {
    if |ps| > 0 {
      DeleteCommutes(ps[1..], a, b);
      var rest := ps[1..];
      if ps[0].name != a {
        assert ([ps[0]] + Delete(rest, a))[1..] == Delete(rest, a);
      }
      if ps[0].name != b {
        assert ([ps[0]] + Delete(rest, b))[1..] == Delete(rest, b);
      }
    }
  }

  /** Deleting a name does not change what `get` returns for another one. */
  lemma {:induction false} GetAfterDelete(ps: seq<Param>, name: string, other: string)
    requires other != name
    ensures Get(Delete(ps, name), other) == Get(ps, other)
    decreases |ps|
  {
    if |ps| > 0 {
      GetAfterDelete(ps[1..], name, other);
      if ps[0].name != name {
        assert ([ps[0]] + Delete(ps[1..], name))[1..] == Delete(ps[1..], name);
      }
    }
  }

  lemma {:induction false} ReplaceFirstDelete(ps: seq<Param>, name: string, value: string)
    ensures Delete(ReplaceFirst(ps, name, value), name) == Delete(ps, name)
    decreases |ps|
  {
    if |ps| > 0 {
      var rest := ps[1..];
      if ps[0].name == name {
        DeleteAbsent(Delete(rest, name), name);
        assert ([Param(name, value)] + Delete(rest, name))[1..] == Delete(rest, name);
      } else {
        ReplaceFirstDelete(rest, name, value);
        assert ([ps[0]] + ReplaceFirst(rest, name, value))[1..] == ReplaceFirst(rest, name, value);
      }
    }
  }

  lemma {:induction false} ReplaceFirstGet(ps: seq<Param>, name: string, value: string)
    requires Has(ps, name)
    ensures Get(ReplaceFirst(ps, name, value), name) == Some(value)
    decreases |ps|
  {
    if ps[0].name != name {
      ReplaceFirstGet(ps[1..], name, value);
      assert ([ps[0]] + ReplaceFirst(ps[1..], name, value))[1..] == ReplaceFirst(ps[1..], name, value);
    }
  }

  /** Exactly one pair has the name, and it holds the value. */
  predicate Single(ps: seq<Param>, name: string, value: string) {
    exists i :: 0 <= i < |ps| && ps[i] == Param(name, value) &&
      forall j :: 0 <= j < |ps| && j != i ==> ps[j].name != name
  }

  lemma {:induction false} ReplaceFirstSingle(ps: seq<Param>, name: string, value: string)
    requires Has(ps, name)
    ensures Single(ReplaceFirst(ps, name, value), name, value)
    decreases |ps|
  {
    var r := ReplaceFirst(ps, name, value);
    if ps[0].name == name {
      var rest := Delete(ps[1..], name);
      HasAt(rest, name);
      assert r == [Param(name, value)] + rest;
      assert forall j :: 0 < j < |r| ==> r[j] == rest[j - 1];
      assert r[0] == Param(name, value);
    } else {
      ReplaceFirstSingle(ps[1..], name, value);
      SingleCons(ps[0], ReplaceFirst(ps[1..], name, value), name, value);
    }
  }

  /** Appending a pair under an absent name leaves exactly one pair with it. */
  lemma SingleAppend(ps: seq<Param>, name: string, value: string)
    requires !Has(ps, name)
    ensures Single(ps + [Param(name, value)], name, value)
  {
    HasAt(ps, name);
    var r := ps + [Param(name, value)];
    assert forall j :: 0 <= j < |ps| ==> r[j] == ps[j];
    assert r[|ps|] == Param(name, value);
  }

  /** A pair with another name in front keeps exactly one pair with the name. */
  lemma SingleCons(p: Param, t: seq<Param>, name: string, value: string)
    requires p.name != name && Single(t, name, value)
    ensures Single([p] + t, name, value)
  {
    var r := [p] + t;
    var i :| 0 <= i < |t| && t[i] == Param(name, value) &&
      forall j :: 0 <= j < |t| && j != i ==> t[j].name != name;
    assert forall j :: 0 < j < |r| ==> r[j] == t[j - 1];
    assert r[i + 1] == Param(name, value);
  }

  /**
   * After `set`: `get` returns the new value, exactly one pair has the name,
   * and the pairs with other names are those of before, in the same order.
   */
  lemma SetProperties(ps: seq<Param>, name: string, value: string)
    ensures Get(Set(ps, name, value), name) == Some(value)
    ensures Single(Set(ps, name, value), name, value)
    ensures Delete(Set(ps, name, value), name) == Delete(ps, name)
  {
    if Has(ps, name) {
      ReplaceFirstGet(ps, name, value);
      ReplaceFirstSingle(ps, name, value);
      ReplaceFirstDelete(ps, name, value);
    } else {
      GetPrefixAbsent(ps, [Param(name, value)], name);
      SingleAppend(ps, name, value);
      DeleteAppend(ps, [Param(name, value)], name);
      assert Delete([Param(name, value)], name) == [];
    }
  }

  /** `set` on a name that is absent appends; on one that is present it keeps the length or shrinks. */
  lemma {:induction false} SetLength(ps: seq<Param>, name: string, value: string)
    ensures !Has(ps, name) ==> Set(ps, name, value) == ps + [Param(name, value)]
    ensures Has(ps, name) ==> |Set(ps, name, value)| <= |ps|
    decreases |ps|
  {
    if Has(ps, name) && ps[0].name != name {
      SetLength(ps[1..], name, value);
    }
  }

  lemma {:induction false} GetPrefixAbsent(a: seq<Param>, b: seq<Param>, name: string)
    requires !Has(a, name)
    ensures Get(a + b, name) == Get(b, name)
    decreases |a|
  {
    if |a| > 0 {
      assert (a + b)[1..] == a[1..] + b;
      GetPrefixAbsent(a[1..], b, name);
    } else {
      assert a + b == b;
    }
  }

  /** `set` leaves `get` of every other name as it was. */
  lemma GetAfterSet(ps: seq<Param>, name: string, value: string, other: string)
    requires other != name
    ensures Get(Set(ps, name, value), other) == Get(ps, other)
  {
    if Has(ps, name) {
      GetAfterReplaceFirst(ps, name, value, other);
    } else {
      GetAppendOther(ps, Param(name, value), other);
    }
  }

  lemma {:induction false} GetAfterReplaceFirst(ps: seq<Param>, name: string, value: string, other: string)
    requires other != name
    ensures Get(ReplaceFirst(ps, name, value), other) == Get(ps, other)
    decreases |ps|
  {
    if |ps| > 0 {
      if ps[0].name == name {
        GetAfterDelete(ps[1..], name, other);
        assert ([Param(name, value)] + Delete(ps[1..], name))[1..] == Delete(ps[1..], name);
      } else {
        GetAfterReplaceFirst(ps[1..], name, value, other);
        assert ([ps[0]] + ReplaceFirst(ps[1..], name, value))[1..] == ReplaceFirst(ps[1..], name, value);
      }
    }
  }

  lemma {:induction false} GetAppendOther(ps: seq<Param>, p: Param, other: string)
    requires p.name != other
    ensures Get(ps + [p], other) == Get(ps, other)
    decreases |ps|
  {
    if |ps| > 0 {
      assert (ps + [p])[1..] == ps[1..] + [p];
      GetAppendOther(ps[1..], p, other);
    } else {
      assert ps + [p] == [p];
    }
  }
}
