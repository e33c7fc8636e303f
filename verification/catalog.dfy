/**
 The static endpoint catalog and the lookup of a dotted target name in it
 (Region.prototype._getEndpoint). The catalog is a nested object whose leaves
 are endpoint descriptors `{url, limit}`; the lookup reads one property per
 dot-separated segment, the way a JavaScript property walk does.
 */
module Catalog {
  import opened Js

  /** A catalog node: a group of named children, or an endpoint descriptor with
      its URL template and its default method limit string. */
  datatype Entry = Group(children: map<string, Entry>) | Endpoint(url: string, limit: string)

  /** What the walk's cursor can hold: `undefined`, a catalog node, or one of a
      descriptor's string properties. */
  datatype Cursor = Undef | At(entry: Entry) | Text(s: string)

  /** The outcome of a lookup: the walk threw a TypeError, or it ended on a cursor. */
  datatype Lookup = Threw | Found(cursor: Cursor)

  /** `cursor[key]`; reading a property of `undefined` throws (None), a group
      answers the child of that name or `undefined` when it has none, and a
      descriptor answers its `url` and `limit` strings and `undefined` for any
      other name. */
  function Index(c: Cursor, key: string): (r: Option<Cursor>)
    ensures r.None? <==> c == Undef
    ensures c.At? && c.entry.Group? ==> (r == Some(Undef) <==> key !in c.entry.children)
    ensures c.At? && c.entry.Group? && key in c.entry.children ==> r == Some(At(c.entry.children[key]))
    ensures c.At? && c.entry.Endpoint? && key == "url" ==> r == Some(Text(c.entry.url))
    ensures c.At? && c.entry.Endpoint? && key == "limit" ==> r == Some(Text(c.entry.limit))
    ensures c.At? && c.entry.Endpoint? && key != "url" && key != "limit" ==> r == Some(Undef)
    ensures c.Text? ==> r == Some(Undef)
  {
    match c
    case Undef => None
    case Text(_) => Some(Undef)
    case At(Group(m)) => Some(if key in m then At(m[key]) else Undef)
    case At(Endpoint(u, l)) =>
      Some(if key == "url" then Text(u) else if key == "limit" then Text(l) else Undef)
  }

  /** The loop of `_getEndpoint`: advance the cursor one segment at a time. */
  function Walk(c: Cursor, path: seq<string>): (r: Lookup)
    ensures path == [] ==> r == Found(c)
    ensures c == Undef && path != [] ==> r == Threw
    decreases |path|
  {
    if path == [] then Found(c)
    else
      match Index(c, path[0])
      case None => Threw
      case Some(d) => Walk(d, path[1..])
  }

  /** `_getEndpoint(target)`: walk the segments of `target.split('.')` from the catalog root. */
  function GetEndpoint(endpoints: Entry, target: string): (r: Lookup)
    ensures '.' !in target ==> r == Found(Index(At(endpoints), target).value)
  {
    assert '.' !in target ==> Split(target, ".") == [target] by {
      if '.' !in target { SplitWhole(target, '.'); }
    }
    Walk(At(endpoints), Split(target, "."))
  }

  /** Walking one more segment reads one more property from where the walk ended. */
  lemma {:induction false} WalkSnoc(c: Cursor, path: seq<string>, key: string)
    ensures Walk(c, path + [key]) ==
      match Walk(c, path)
      case Threw => Threw
      case Found(d) => (match Index(d, key) case None => Threw case Some(e) => Found(e))
    decreases |path|
  {
    if path == [] {
      assert path + [key] == [key];
    } else {
      assert (path + [key])[1..] == path[1..] + [key];
      match Index(c, path[0])
      case None =>
      case Some(d) => WalkSnoc(d, path[1..], key);
    }
  }

  /** The walk throws exactly when some segment is read from an `undefined` cursor,
      that is, when an earlier segment was missing. */
  lemma {:induction false} WalkThrows(c: Cursor, path: seq<string>)
    ensures Walk(c, path) == Threw <==> exists i :: 0 <= i < |path| && Walk(c, path[..i]) == Found(Undef)
    decreases |path|
  {
    if path == [] {
    } else {
      assert Walk(c, path[..0]) == Found(c);
      match Index(c, path[0])
      case None =>
        assert c == Undef;
      case Some(d) =>
        WalkThrows(d, path[1..]);
        forall i | 1 <= i <= |path|
          ensures Walk(c, path[..i]) == Walk(d, path[1..][..i - 1])
        {
          assert path[..i][0] == path[0];
          assert path[..i][1..] == path[1..][..i - 1];
        }
        if Walk(c, path) == Threw {
          var j :| 0 <= j < |path| - 1 && Walk(d, path[1..][..j]) == Found(Undef);
          assert Walk(c, path[..j + 1]) == Found(Undef);
        }
        if exists i :: 0 <= i < |path| && Walk(c, path[..i]) == Found(Undef) {
          var i :| 0 <= i < |path| && Walk(c, path[..i]) == Found(Undef);
          assert c != Undef;
          assert i >= 1;
          assert Walk(d, path[1..][..i - 1]) == Found(Undef);
        }
    }
  }

  /** `_getEndpoint` answers `undefined` only when every segment but the last
      resolves and the last one is missing. */
  lemma GetEndpointUndefined(endpoints: Entry, target: string)
    ensures var segs := Split(target, ".");
            var init := Walk(At(endpoints), segs[..|segs| - 1]);
            GetEndpoint(endpoints, target) == Found(Undef) <==>
              init.Found? && Index(init.cursor, segs[|segs| - 1]) == Some(Undef)
  {
    var segs := Split(target, ".");
    assert segs == segs[..|segs| - 1] + [segs[|segs| - 1]];
    WalkSnoc(At(endpoints), segs[..|segs| - 1], segs[|segs| - 1]);
  }

  /** Some segment other than the last one leads to `undefined`. */
  ghost predicate MissingBeforeLast(endpoints: Entry, segs: seq<string>) {
    exists i :: 1 <= i < |segs| && Walk(At(endpoints), segs[..i]) == Found(Undef)
  }

  /** `_getEndpoint` throws exactly when a segment before the last is missing:
      the walk reached `undefined` after one of the first `|segs| - 1` segments. */
  lemma GetEndpointThrows(endpoints: Entry, target: string)
    ensures GetEndpoint(endpoints, target) == Threw <==> MissingBeforeLast(endpoints, Split(target, "."))
  {
    var segs := Split(target, ".");
    assert GetEndpoint(endpoints, target) == Walk(At(endpoints), segs);
    WalkThrows(At(endpoints), segs);
    assert Walk(At(endpoints), segs[..0]) == Found(At(endpoints));
    if Walk(At(endpoints), segs) == Threw {
      var i :| 0 <= i < |segs| && Walk(At(endpoints), segs[..i]) == Found(Undef);
      assert 1 <= i < |segs| && Walk(At(endpoints), segs[..i]) == Found(Undef);
    }
    if exists i :: 1 <= i < |segs| && Walk(At(endpoints), segs[..i]) == Found(Undef) {
      var i :| 1 <= i < |segs| && Walk(At(endpoints), segs[..i]) == Found(Undef);
      assert 0 <= i < |segs| && Walk(At(endpoints), segs[..i]) == Found(Undef);
      assert Walk(At(endpoints), segs) == Threw;
    }
  }

  /** The path `names` leads from the node `e` through groups, one child per
      name, to the node `d`. */
  ghost predicate Reaches(e: Entry, names: seq<string>, d: Entry)
    decreases |names|
  {
    if names == [] then d == e
    else e.Group? && names[0] in e.children && Reaches(e.children[names[0]], names[1..], d)
  }

  /** Once the cursor is `undefined` or a string, no walk leads back to a catalog node. */
  lemma {:induction false} WalkOffCatalog(c: Cursor, path: seq<string>)
    requires !c.At?
    ensures !(Walk(c, path).Found? && Walk(c, path).cursor.At?)
    decreases |path|
  {
    if path != [] {
      match Index(c, path[0])
      case None =>
      case Some(d) => WalkOffCatalog(d, path[1..]);
    }
  }

  /** A walk from a catalog node ends on the node `d` exactly when the path
      leads there through groups. */
  lemma {:induction false} WalkReaches(e: Entry, names: seq<string>, d: Entry)
    ensures Walk(At(e), names) == Found(At(d)) <==> Reaches(e, names, d)
    decreases |names|
  {
    if names != [] {
      if e.Group? && names[0] in e.children {
        WalkReaches(e.children[names[0]], names[1..], d);
      } else {
        WalkOffCatalog(Index(At(e), names[0]).value, names[1..]);
      }
    }
  }

  /** Looking up the dotted name of a path of dot-free names walks exactly that path. */
  lemma GetEndpointOfPath(endpoints: Entry, names: seq<string>)
    requires |names| >= 1
    requires forall i :: 0 <= i < |names| ==> '.' !in names[i]
    ensures GetEndpoint(endpoints, Join(names, ".")) == Walk(At(endpoints), names)
  {
    SplitJoin(names, '.');
  }

  /** `_getEndpoint` of a dotted name of dot-free segments returns the node `d`
      exactly when the segments lead from the catalog root to `d`. */
  lemma GetEndpointFinds(endpoints: Entry, names: seq<string>, d: Entry)
    requires |names| >= 1
    requires forall i :: 0 <= i < |names| ==> '.' !in names[i]
    ensures GetEndpoint(endpoints, Join(names, ".")) == Found(At(d)) <==> Reaches(endpoints, names, d)
  {
    GetEndpointOfPath(endpoints, names);
    WalkReaches(endpoints, names, d);
  }
}
