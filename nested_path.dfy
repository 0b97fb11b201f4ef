/** Safe nested lookup (`_get_nested`): descend through dicts one key at a time, or give the default. */
module NestedPath {
  import opened Wrappers
  import opened JsonValue

  /** What `_get_nested(d, path, default)` returns, stated by recursion on the first key. */
  function PathValue(d: Json, path: seq<string>, default: Json): Json
  {
    if path == [] then d
    else if d.JObj? && path[0] in d.fields then PathValue(d.fields[path[0]], path[1..], default)
    else default
  }

  /** An independent reference walk that extends a prefix of the path one key at a time from
      the left, as the loop does: `Some(v)` when every step finds a dict holding the key,
      `None` as soon as one does not. */
  function Walk(d: Json, path: seq<string>): Option<Json>
    decreases |path|
  {
    if path == [] then Some(d)
    else
      var prefix := Walk(d, path[..|path| - 1]);
      var key := path[|path| - 1];
      if prefix.Some? && prefix.value.JObj? && key in prefix.value.fields
      then Some(prefix.value.fields[key])
      else None
  }

  /** The `for key in path` loop of `_get_nested`, with its early `return default`. */
  method GetNested(d: Json, path: seq<string>, default: Json) returns (r: Json)
    ensures r == PathValue(d, path, default)
  {
    var cur := d;
    var i := 0;
    while i < |path|
      invariant 0 <= i <= |path|
      invariant PathValue(d, path, default) == PathValue(cur, path[i..], default)
    {
      var key := path[i];
      assert path[i..][0] == key && path[i..][1..] == path[i + 1..];
      if !cur.JObj? || key !in cur.fields {
        return default;
      }
      cur := cur.fields[key];
      i := i + 1;
    }
    return cur;
  }

  /** The empty path gives the input itself; a path `[k] + rest` continues from `d[k]` when
      `d` is a dict holding `k`, and gives the default otherwise. */
  lemma PathValueStep(d: Json, k: string, rest: seq<string>, default: Json)
    ensures PathValue(d, [], default) == d
    ensures d.JObj? && k in d.fields ==> PathValue(d, [k] + rest, default) == PathValue(d.fields[k], rest, default)
    ensures !(d.JObj? && k in d.fields) ==> PathValue(d, [k] + rest, default) == default
  {
    assert ([k] + rest)[0] == k && ([k] + rest)[1..] == rest;
  }

  /** Walking `[k] + rest` is walking `rest` from `d[k]`, or a failure when `d[k]` is not there. */
  lemma {:induction false} WalkCons(d: Json, k: string, rest: seq<string>)
    ensures Walk(d, [k] + rest) == if d.JObj? && k in d.fields then Walk(d.fields[k], rest) else None
    decreases |rest|
  {
    var p := [k] + rest;
    if rest == [] {
      assert p[..|p| - 1] == [];
    } else {
      var init := rest[..|rest| - 1];
      assert p[..|p| - 1] == [k] + init;
      assert p[|p| - 1] == rest[|rest| - 1];
      WalkCons(d, k, init);
    }
  }

  /** `_get_nested` returns the walked value when every step succeeds and the default otherwise. */
  lemma {:induction false} PathValueIsWalk(d: Json, path: seq<string>, default: Json)
    ensures Walk(d, path).Some? ==> PathValue(d, path, default) == Walk(d, path).value
    ensures Walk(d, path).None? ==> PathValue(d, path, default) == default
    decreases |path|
  {
    if path != [] {
      var k, rest := path[0], path[1..];
      assert path == [k] + rest;
      WalkCons(d, k, rest);
      if d.JObj? && k in d.fields {
        PathValueIsWalk(d.fields[k], rest, default);
      }
    }
  }

  /** Once a prefix of the path has failed, every longer prefix fails too. */
  lemma {:induction false} WalkStaysFailed(d: Json, path: seq<string>, i: nat, j: nat)
    requires i <= j <= |path|
    requires Walk(d, path[..i]).None?
    ensures Walk(d, path[..j]).None?
    decreases j - i
  {
    if i < j {
      assert path[..i + 1][..i] == path[..i];
      WalkStaysFailed(d, path, i + 1, j);
    }
  }

  /** `_get_nested` gives the default as soon as some prefix of the path reaches a value that is
      not a dict, or a dict without the next key; it never fails. */
  lemma PathValueDefaultWhenBroken(d: Json, path: seq<string>, default: Json, i: nat)
    requires i < |path|
    requires Walk(d, path[..i]).Some?
    requires !(Walk(d, path[..i]).value.JObj? && path[i] in Walk(d, path[..i]).value.fields)
    ensures PathValue(d, path, default) == default
  {
    assert path[..i + 1][..i] == path[..i];
    assert path[..|path|] == path;
    WalkStaysFailed(d, path, i + 1, |path|);
    PathValueIsWalk(d, path, default);
  }

  /** A falsy value (`None`, `{}`, `0`, ...) never yields anything but the default on a nonempty path. */
  lemma FalsyPathValue(d: Json, path: seq<string>, default: Json)
    requires !Truthy(d) && path != []
    ensures PathValue(d, path, default) == default
  {
  }
}
