/** The ordered list of name-value pairs behind `URLSearchParams`, and the two
    operations the pagination control applies to it, as the WHATWG URL Standard
    defines them (section 6.2, "URLSearchParams class"):
    `delete(name)` removes every pair with that name; `set(name, value)` gives
    the first pair with that name the new value and removes the others, or
    appends the pair when there is none. */
module QueryParams {
  import opened UrlEncoded

  /** The list after `delete(name)`. */
  function Deleted(ps: seq<Pair>, name: string): seq<Pair>
  {
    if ps == [] then []
    else (if ps[0].0 == name then [] else [ps[0]]) + Deleted(ps[1..], name)
  }

  /** The list after `set(name, value)`. */
  function SetParam(ps: seq<Pair>, name: string, value: string): seq<Pair>
  {
    if ps == [] then [(name, value)]
    else if ps[0].0 == name then [(name, value)] + Deleted(ps[1..], name)
    else [ps[0]] + SetParam(ps[1..], name, value)
  }

  /** `getAll(name)`: the values of the pairs named `name`, in order. */
  function ValuesOf(ps: seq<Pair>, name: string): seq<string>
  {
    if ps == [] then []
    else (if ps[0].0 == name then [ps[0].1] else []) + ValuesOf(ps[1..], name)
  }

  /** The pairs whose names are not in `names`, in their order. */
  function Without(ps: seq<Pair>, names: set<string>): seq<Pair>
  {
    if ps == [] then []
    else (if ps[0].0 in names then [] else [ps[0]]) + Without(ps[1..], names)
  }

  // ---------------------------------------------------------------------------
  // What delete and set do to each name
  // ---------------------------------------------------------------------------

  /** After `delete(name)` no pair carries `name`; every other name keeps its
      values in order. */
  lemma {:induction false} DeletedValues(ps: seq<Pair>, name: string, other: string)
    ensures ValuesOf(Deleted(ps, name), name) == []
    ensures other != name ==> ValuesOf(Deleted(ps, name), other) == ValuesOf(ps, other)
  {
    if ps != [] {
      DeletedValues(ps[1..], name, other);
      var head := if ps[0].0 == name then [] else [ps[0]];
      ValuesOfAppend(head, Deleted(ps[1..], name), name);
      ValuesOfAppend(head, Deleted(ps[1..], name), other);
    }
  }

  /** After `set(name, value)` exactly one pair carries `name`, with `value`;
      every other name keeps its values in order. */
  lemma {:induction false} SetValues(ps: seq<Pair>, name: string, value: string, other: string)
    ensures ValuesOf(SetParam(ps, name, value), name) == [value]
    ensures other != name ==> ValuesOf(SetParam(ps, name, value), other) == ValuesOf(ps, other)
  {
    if ps == [] {
    } else if ps[0].0 == name {
      DeletedValues(ps[1..], name, other);
      ValuesOfAppend([(name, value)], Deleted(ps[1..], name), name);
      ValuesOfAppend([(name, value)], Deleted(ps[1..], name), other);
    } else {
      SetValues(ps[1..], name, value, other);
      ValuesOfAppend([ps[0]], SetParam(ps[1..], name, value), name);
      ValuesOfAppend([ps[0]], SetParam(ps[1..], name, value), other);
    }
  }

  lemma {:induction false} ValuesOfAppend(a: seq<Pair>, b: seq<Pair>, name: string)
    ensures ValuesOf(a + b, name) == ValuesOf(a, name) + ValuesOf(b, name)
  {
    if a != [] {
      ValuesOfAppend(a[1..], b, name);
      assert (a + b)[1..] == a[1..] + b;
    } else {
      assert a + b == b;
    }
  }

  lemma {:induction false} WithoutAppend(a: seq<Pair>, b: seq<Pair>, names: set<string>)
    ensures Without(a + b, names) == Without(a, names) + Without(b, names)
  {
    if a != [] {
      WithoutAppend(a[1..], b, names);
      assert (a + b)[1..] == a[1..] + b;
    } else {
      assert a + b == b;
    }
  }

  /** Deleting a name in `names` leaves the pairs outside `names` and their order
      as they were. */
  lemma {:induction false} DeletedKeepsOthers(ps: seq<Pair>, name: string, names: set<string>)
    requires name in names
    ensures Without(Deleted(ps, name), names) == Without(ps, names)
  {
    if ps != [] {
      DeletedKeepsOthers(ps[1..], name, names);
      var head := if ps[0].0 == name then [] else [ps[0]];
      WithoutAppend(head, Deleted(ps[1..], name), names);
    }
  }

  /** Setting a name in `names` leaves the pairs outside `names` and their order
      as they were. */
  lemma {:induction false} SetKeepsOthers(ps: seq<Pair>, name: string, value: string, names: set<string>)
    requires name in names
    ensures Without(SetParam(ps, name, value), names) == Without(ps, names)
  {
    if ps == [] {
    } else if ps[0].0 == name {
      DeletedKeepsOthers(ps[1..], name, names);
      WithoutAppend([(name, value)], Deleted(ps[1..], name), names);
    } else {
      SetKeepsOthers(ps[1..], name, value, names);
      WithoutAppend([ps[0]], SetParam(ps[1..], name, value), names);
    }
  }

  /** `set` puts the new pair where the first pair with that name was; the
      pairs before it stay as they were. */
  lemma {:induction false} SetPosition(ps: seq<Pair>, name: string, value: string, i: nat)
    requires i < |ps| && ps[i].0 == name
    requires forall j :: 0 <= j < i ==> ps[j].0 != name
    ensures |SetParam(ps, name, value)| > i
    ensures SetParam(ps, name, value)[..i] == ps[..i]
    ensures SetParam(ps, name, value)[i] == (name, value)
  {
    if i > 0 {
      SetPosition(ps[1..], name, value, i - 1);
    }
  }

  /** `set` appends the pair when no pair has that name. */
  lemma {:induction false} SetAppendsWhenAbsent(ps: seq<Pair>, name: string, value: string)
    requires ValuesOf(ps, name) == []
    ensures SetParam(ps, name, value) == ps + [(name, value)]
  {
    if ps != [] {
      ValuesOfAppend([ps[0]], ps[1..], name);
      assert [ps[0]] + ps[1..] == ps;
      SetAppendsWhenAbsent(ps[1..], name, value);
    }
  }

  /** Deleting a name that is absent changes nothing. */
  lemma {:induction false} DeletedAbsent(ps: seq<Pair>, name: string)
    requires ValuesOf(ps, name) == []
    ensures Deleted(ps, name) == ps
  {
    if ps != [] {
      ValuesOfAppend([ps[0]], ps[1..], name);
      assert [ps[0]] + ps[1..] == ps;
      DeletedAbsent(ps[1..], name);
    }
  }

  /** Setting the same pair twice is the same as setting it once. */
  lemma {:induction false} SetIdempotent(ps: seq<Pair>, name: string, value: string)
    ensures SetParam(SetParam(ps, name, value), name, value) == SetParam(ps, name, value)
  {
    if ps == [] {
    } else if ps[0].0 == name {
      DeletedValues(ps[1..], name, name);
      DeletedAbsent(Deleted(ps[1..], name), name);
      assert ([(name, value)] + Deleted(ps[1..], name))[1..] == Deleted(ps[1..], name);
    } else {
      SetIdempotent(ps[1..], name, value);
      assert ([ps[0]] + SetParam(ps[1..], name, value))[1..] == SetParam(ps[1..], name, value);
    }
  }

  // ---------------------------------------------------------------------------
  // The object
  // ---------------------------------------------------------------------------

  /** A `URLSearchParams` object: its list is replaced by each operation. */
  class SearchParams {
    var list: seq<Pair>

    constructor (init: seq<Pair>)
      ensures list == init
    {
      list := init;
    }

    /** `delete(name)`: walk the list once and keep the pairs with other names. */
    method Delete(name: string)
      modifies this
      ensures list == Deleted(old(list), name)
    {
      var kept: seq<Pair> := [];
      var i := 0;
      while i < |list|
        invariant 0 <= i <= |list|
        invariant Deleted(list, name) == kept + Deleted(list[i..], name)
      {
        var p := list[i];
        ghost var next := list[i + 1..];
        assert list[i..] == [p] + next;
        if p.0 != name {
          assert Deleted(list[i..], name) == [p] + Deleted(next, name);
          kept := kept + [p];
        } else {
          assert Deleted(list[i..], name) == Deleted(next, name);
        }
        i := i + 1;
      }
      assert list[i..] == [];
      list := kept;
    }

    /** `set(name, value)`: overwrite the first pair named `name`, drop the
        later ones, append when there was none. */
    method Set(name: string, value: string)
      modifies this
      ensures list == SetParam(old(list), name, value)
    {
      var out: seq<Pair> := [];
      var found := false;
      var i := 0;
      while i < |list|
        invariant 0 <= i <= |list|
        invariant !found ==> SetParam(list, name, value) == out + SetParam(list[i..], name, value)
        invariant found ==> SetParam(list, name, value) == out + Deleted(list[i..], name)
      {
        var p := list[i];
        ghost var next := list[i + 1..];
        assert list[i..] == [p] + next;
        if p.0 == name {
          if !found {
            assert SetParam(list[i..], name, value) == [(name, value)] + Deleted(next, name);
            out := out + [(name, value)];
            found := true;
          } else {
            assert Deleted(list[i..], name) == Deleted(next, name);
          }
        } else {
          if found {
            assert Deleted(list[i..], name) == [p] + Deleted(next, name);
          } else {
            assert SetParam(list[i..], name, value) == [p] + SetParam(next, name, value);
          }
          out := out + [p];
        }
        i := i + 1;
      }
      assert list[i..] == [];
      if !found {
        out := out + [(name, value)];
      }
      list := out;
    }

    /** `toString()`: the urlencoded serializer, written as the standard states
        it, one pair at a time. */
    method ToString() returns (output: string)
      ensures output == Serialize(list)
    {
      output := "";
      var i := 0;
      while i < |list|
        invariant 0 <= i <= |list|
        invariant output == Serialize(list[..i])
      {
        assert list[..i + 1][..i] == list[..i];
        if output != "" {
          output := output + "&";
        }
        output := output + SerializePair(list[i]);
        i := i + 1;
      }
      assert list[..i] == list;
    }
  }
}
