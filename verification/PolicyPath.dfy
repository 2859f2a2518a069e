/** JSON values as the policy forms see them. Objects are finite maps: key order is not modelled. */
module Json {
  datatype Json =
    | Null
    | Bool(b: bool)
    | Num(n: real)
    | Str(s: string)
    | Arr(items: seq<Json>)
    | Obj(fields: map<string, Json>)

  type JsonObject = map<string, Json>
}

/** Dotted paths. The forms write "a.b.c"; everything else works on the key sequence ["a", "b", "c"]. */
module DottedPath {

  type Path = p: seq<string> | 0 < |p| witness [""]

  /** `path.split(".")`: never empty, and "" gives one empty key. */
  function Split(s: string): Path {
    if s == "" then [""]
    else
      var rest := Split(s[1..]);
      if s[0] == '.' then [""] + rest else [[s[0]] + rest[0]] + rest[1..]
  }

  /** `keys.join(".")` */
  function Join(p: Path): string {
    if |p| == 1 then p[0] else p[0] + "." + Join(p[1..])
  }

  lemma {:induction false} JoinConsChar(c: char, p: Path)
    ensures Join([[c] + p[0]] + p[1..]) == [c] + Join(p)
  {
    var q := [[c] + p[0]] + p[1..];
    if |p| > 1 {
      assert q[1..] == p[1..];
      assert q[0] + "." + Join(p[1..]) == [c] + (p[0] + "." + Join(p[1..]));
    }
  }

  lemma {:induction false} JoinSplit(s: string)
    ensures Join(Split(s)) == s
  {
    if s != "" {
      JoinSplit(s[1..]);
      var rest := Split(s[1..]);
      if s[0] == '.' {
        assert ([""] + rest)[1..] == rest;
        assert "" + "." + s[1..] == s;
      } else {
        JoinConsChar(s[0], rest);
        assert [s[0]] + s[1..] == s;
      }
    }
  }

  /** Two dotted strings name the same key sequence only if they are the same string, so comparing
      paths as strings (as the registries do) and comparing them as key sequences agree. */
  lemma {:induction false} SplitInjective(s: string, t: string)
    requires Split(s) == Split(t)
    ensures s == t
  {
    JoinSplit(s);
    JoinSplit(t);
  }

  /** `s.startsWith(root + ".")`, read on key sequences. */
  lemma {:induction false} SplitStartsWith(s: string, root: string)
    requires '.' !in root
    ensures root + "." <= s <==> |Split(s)| >= 2 && Split(s)[0] == root
    decreases |root|
  {
    if root == "" {
      assert root + "." == ".";
      if s != "" {
        var rest := Split(s[1..]);
        assert "." <= s <==> s[0] == '.';
        assert s[0] != '.' ==> Split(s)[0][0] == s[0];
      }
    } else if s != "" && s[0] == root[0] {
      assert root == [root[0]] + root[1..];
      assert s == [s[0]] + s[1..];
      SplitStartsWith(s[1..], root[1..]);
      assert root + "." == [root[0]] + (root[1..] + ".");
      assert root + "." <= s <==> root[1..] + "." <= s[1..] by {
        if root + "." <= s {
          assert s[..|root| + 1] == root + ".";
          assert s[1..][..|root|] == (root + ".")[1..];
        }
      }
      assert Split(s)[0] == [s[0]] + Split(s[1..])[0];
    } else {
      assert (root + ".")[0] == root[0];
      if s != "" {
        assert Split(s)[0] == "" || Split(s)[0][0] == s[0];
      }
    }
  }

  ghost predicate Related(p: Path, q: Path) {
    p <= q || q <= p
  }

  lemma TailsUnrelated(p: Path, q: Path)
    requires !Related(p, q) && p[0] == q[0]
    ensures |p| > 1 && |q| > 1 && !Related(p[1..], q[1..])
  {
    assert p == [p[0]] + p[1..];
    assert q == [q[0]] + q[1..];
  }

  lemma TailsRelated(p: Path, q: Path)
    requires p <= q && |p| > 1
    ensures p[0] == q[0] && p[1..] <= q[1..]
  {}
}

/** `getPolicyPath` and `setPolicyPath`: a lens on nested JSON in which clearing a path also deletes
    the ancestors that become empty. */
module PolicyPath {
  import opened Wrappers
  import opened Json
  import opened DottedPath

  function Get(obj: JsonObject, path: Path): Option<Json>
    decreases |path|
  {
    if path[0] !in obj then None
    else if |path| == 1 then Some(obj[path[0]])
    else if obj[path[0]].Obj? then Get(obj[path[0]].fields, path[1..])
    else None
  }

  /** The object an update descends into: `isJsonObject(next[key]) ? next[key] : {}`. */
  function Child(obj: JsonObject, key: string): JsonObject {
    if key in obj && obj[key].Obj? then obj[key].fields else map[]
  }

  /** Stores an updated child, dropping the key when nothing is left of the child. */
  function Attach(obj: JsonObject, key: string, child: JsonObject): JsonObject {
    if child != map[] then obj[key := Obj(child)] else obj - {key}
  }

  /** `setPolicyPath`; `None` is JavaScript's `undefined` and clears the path. */
  function Set(obj: JsonObject, path: Path, value: Option<Json>): JsonObject
    decreases |path|
  {
    if |path| == 1 then
      match value
      case None => obj - {path[0]}
      case Some(v) => obj[path[0] := v]
    else
      Attach(obj, path[0], Set(Child(obj, path[0]), path[1..], value))
  }

  function Clear(obj: JsonObject, path: Path): JsonObject {
    Set(obj, path, None)
  }

  lemma AttachLaws(obj: JsonObject, key: string, child: JsonObject)
    ensures Child(Attach(obj, key, child), key) == child
    ensures forall next :: Attach(Attach(obj, key, child), key, next) == Attach(obj, key, next)
    ensures forall other :: other != key ==>
      Child(Attach(obj, key, child), other) == Child(obj, other)
  {
    forall next
      ensures Attach(Attach(obj, key, child), key, next) == Attach(obj, key, next)
    {
      var attached := Attach(obj, key, child);
      assert attached - {key} == obj - {key};
    }
  }

  // ---- Lens laws ----

  lemma {:induction false} GetSet(obj: JsonObject, path: Path, value: Option<Json>)
    ensures Get(Set(obj, path, value), path) == value
    decreases |path|
  {
    if |path| > 1 {
      GetSet(Child(obj, path[0]), path[1..], value);
      AttachLaws(obj, path[0], Set(Child(obj, path[0]), path[1..], value));
      if Set(Child(obj, path[0]), path[1..], value) == map[] {
        assert Get(map[], path[1..]) == None;
      }
    }
  }

  lemma {:induction false} SetSet(obj: JsonObject, path: Path, first: Option<Json>, second: Option<Json>)
    ensures Set(Set(obj, path, first), path, second) == Set(obj, path, second)
    decreases |path|
  {
    if |path| > 1 {
      var child := Child(obj, path[0]);
      SetSet(child, path[1..], first, second);
      AttachLaws(obj, path[0], Set(child, path[1..], first));
    }
  }

  lemma {:induction false} SetGet(obj: JsonObject, path: Path)
    requires Get(obj, path).Some?
    ensures Set(obj, path, Get(obj, path)) == obj
    decreases |path|
  {
    if |path| > 1 {
      SetGet(Child(obj, path[0]), path[1..]);
      assert path[1] in Child(obj, path[0]);
    }
  }

  /** Writing back an absent value is the identity exactly when no strict ancestor of the path holds a
      scalar, an array or an empty object: those are deleted by the clear. */
  lemma {:induction false} ClearAbsentIdentity(obj: JsonObject, path: Path)
    requires Get(obj, path) == None
    ensures Clear(obj, path) == obj <==>
            forall i :: 1 <= i < |path| ==>
              (Get(obj, path[..i]) == None
               || (Get(obj, path[..i]).value.Obj? && Get(obj, path[..i]).value.fields != map[]))
    decreases |path|
  {
    if |path| > 1 {
      var key, child := path[0], Child(obj, path[0]);
      assert path[..1] == [key];
      if key in obj && obj[key].Obj? && child != map[] {
        ClearAbsentIdentity(child, path[1..]);
        forall i | 2 <= i < |path|
          ensures Get(obj, path[..i]) == Get(child, path[1..][..i - 1])
        {
          assert path[..i][1..] == path[1..][..i - 1];
        }
        if Clear(child, path[1..]) == child {
          forall i | 1 <= i < |path|
            ensures Get(obj, path[..i]) == None
                    || (Get(obj, path[..i]).value.Obj? && Get(obj, path[..i]).value.fields != map[])
          {
            if i > 1 {
              var j := i - 1;
              assert Get(obj, path[..i]) == Get(child, path[1..][..j]);
            }
          }
        } else {
          var j :| 1 <= j < |path[1..]| && Get(child, path[1..][..j]) != None
                   && !(Get(child, path[1..][..j]).value.Obj? && Get(child, path[1..][..j]).value.fields != map[]);
          var i := j + 1;
          assert Get(obj, path[..i]) == Get(child, path[1..][..i - 1]);
          assert Clear(obj, path) != obj by {
            AttachLaws(obj, key, Clear(child, path[1..]));
          }
        }
      } else if key in obj {
        assert Get(obj, path[..1]) == Some(obj[key]);
        ClearEmpty(path[1..]);
      } else {
        ClearEmpty(path[1..]);
        forall i | 1 <= i < |path| ensures Get(obj, path[..i]) == None {}
      }
    }
  }

  /** A clear below a scalar deletes the scalar. */
  lemma ClearBelowScalar()
    ensures var obj: JsonObject := map["a" := Str("x")];
            Get(obj, ["a", "b"]) == None && Clear(obj, ["a", "b"]) == map[] && Clear(obj, ["a", "b"]) != obj
  {
    var obj: JsonObject := map["a" := Str("x")];
    assert ["a", "b"][1..] == ["b"];
    assert Child(obj, "a") == map[];
    assert Clear(obj, ["a", "b"]) == obj - {"a"};
    assert "a" in obj && "a" !in Clear(obj, ["a", "b"]);
  }

  lemma {:induction false} ClearEmpty(path: Path)
    ensures Clear(map[], path) == map[]
    decreases |path|
  {
    if |path| > 1 {
      ClearEmpty(path[1..]);
    }
  }

  /** A write leaves every path that is no ancestor and no descendant of it alone, whatever ancestors
      the write creates or deletes. */
  lemma {:induction false} SetFrame(obj: JsonObject, path: Path, value: Option<Json>, other: Path)
    requires !Related(path, other)
    ensures Get(Set(obj, path, value), other) == Get(obj, other)
    decreases |path|
  {
    if path[0] == other[0] {
      TailsUnrelated(path, other);
      var child := Child(obj, path[0]);
      SetFrame(child, path[1..], value, other[1..]);
      AttachLaws(obj, path[0], Set(child, path[1..], value));
      GetViaChild(obj, other);
      GetViaChild(Set(obj, path, value), other);
    }
  }

  lemma GetViaChild(obj: JsonObject, path: Path)
    requires |path| > 1
    ensures Get(obj, path) == Get(Child(obj, path[0]), path[1..])
  {}

  lemma {:induction false} SetCommutes(obj: JsonObject, p: Path, v: Option<Json>, q: Path, w: Option<Json>)
    requires !Related(p, q)
    ensures Set(Set(obj, p, v), q, w) == Set(Set(obj, q, w), p, v)
    decreases |p|
  {
    if p[0] == q[0] {
      TailsUnrelated(p, q);
      var child := Child(obj, p[0]);
      SetCommutes(child, p[1..], v, q[1..], w);
      AttachLaws(obj, p[0], Set(child, p[1..], v));
      AttachLaws(obj, p[0], Set(child, q[1..], w));
    } else {
      SetAtHeadCommutes(obj, p, v, q, w);
    }
  }

  /** A write is an update of the one entry its first key names. */
  function Entry(obj: JsonObject, path: Path, value: Option<Json>): Option<Json> {
    if |path| == 1 then value
    else
      var child := Set(Child(obj, path[0]), path[1..], value);
      if child != map[] then Some(Obj(child)) else None
  }

  function WriteEntry(obj: JsonObject, key: string, entry: Option<Json>): JsonObject {
    match entry
    case None => obj - {key}
    case Some(v) => obj[key := v]
  }

  lemma SetIsWriteEntry(obj: JsonObject, path: Path, value: Option<Json>)
    ensures Set(obj, path, value) == WriteEntry(obj, path[0], Entry(obj, path, value))
  {}

  lemma WriteEntriesCommute(obj: JsonObject, k: string, a: Option<Json>, l: string, b: Option<Json>)
    requires k != l
    ensures WriteEntry(WriteEntry(obj, k, a), l, b) == WriteEntry(WriteEntry(obj, l, b), k, a)
  {}

  lemma EntryDependsOnHead(obj: JsonObject, next: JsonObject, path: Path, value: Option<Json>)
    requires Child(obj, path[0]) == Child(next, path[0])
    ensures Entry(obj, path, value) == Entry(next, path, value)
  {}

  lemma SetAtHeadCommutes(obj: JsonObject, p: Path, v: Option<Json>, q: Path, w: Option<Json>)
    requires p[0] != q[0]
    ensures Set(Set(obj, p, v), q, w) == Set(Set(obj, q, w), p, v)
  {
    var a, b := Entry(obj, p, v), Entry(obj, q, w);
    var op, oq := Set(obj, p, v), Set(obj, q, w);
    SetIsWriteEntry(obj, p, v);
    SetIsWriteEntry(obj, q, w);
    EntryDependsOnHead(obj, op, q, w);
    EntryDependsOnHead(obj, oq, p, v);
    SetIsWriteEntry(op, q, w);
    SetIsWriteEntry(oq, p, v);
    WriteEntriesCommute(obj, p[0], a, q[0], b);
  }

  // ---- Clearing ----

  /** Clearing never makes a path defined. What a cleared object still holds at any path is what was
      there before, or an object where an object was before. */
  lemma {:induction false} ClearShrinks(obj: JsonObject, path: Path, other: Path)
    ensures Get(Clear(obj, path), other).Some? ==>
              Get(obj, other).Some?
              && (Get(Clear(obj, path), other) == Get(obj, other)
                  || (Get(Clear(obj, path), other).value.Obj? && Get(obj, other).value.Obj?))
    decreases |path|
  {
    if path[0] == other[0] && |path| > 1 {
      var child := Child(obj, path[0]);
      AttachLaws(obj, path[0], Clear(child, path[1..]));
      if |other| > 1 {
        ClearShrinks(child, path[1..], other[1..]);
        GetViaChild(obj, other);
        GetViaChild(Clear(obj, path), other);
      } else if path[0] !in obj || !obj[path[0]].Obj? {
        ClearEmpty(path[1..]);
      }
    }
  }

  /** Clearing below a path does not change what clearing the path itself gives. */
  lemma {:induction false} ClearAbsorbs(obj: JsonObject, p: Path, q: Path)
    requires p <= q
    ensures Clear(Clear(obj, q), p) == Clear(obj, p)
    decreases |p|
  {
    if |p| == 1 {
      if |q| > 1 {
        AttachLaws(obj, p[0], Clear(Child(obj, p[0]), q[1..]));
      }
      assert Clear(obj, q) - {p[0]} == obj - {p[0]};
    } else {
      TailsRelated(p, q);
      var child := Child(obj, p[0]);
      ClearAbsorbs(child, p[1..], q[1..]);
      AttachLaws(obj, p[0], Clear(child, q[1..]));
    }
  }

  /** Once a path at or below `p` was cleared and `p` is gone, clearing `p` changes nothing. */
  lemma {:induction false} ClearedIsClean(obj: JsonObject, p: Path, q: Path)
    requires p <= q && Get(Clear(obj, q), p) == None
    ensures Clear(Clear(obj, q), p) == Clear(obj, q)
    decreases |p|
  {
    if |p| > 1 {
      TailsRelated(p, q);
      var child := Child(obj, p[0]);
      AttachLaws(obj, p[0], Clear(child, q[1..]));
      GetViaChild(Clear(obj, q), p);
      ClearedIsClean(child, p[1..], q[1..]);
      if Clear(child, q[1..]) == map[] {
        assert p[0] !in Clear(obj, q);
      }
    }
  }

  /** If clearing below `p` empties `p` away, it did the same as clearing `p`. */
  lemma {:induction false} ClearBelowEmpties(obj: JsonObject, p: Path, q: Path)
    requires p <= q && Get(Clear(obj, q), p) == None
    ensures Clear(obj, q) == Clear(obj, p)
  {
    ClearAbsorbs(obj, p, q);
    ClearedIsClean(obj, p, q);
  }

  /** No clear leaves an empty object at an ancestor of the cleared path. */
  lemma {:induction false} ClearLeavesNoEmptyAncestor(obj: JsonObject, path: Path, i: nat)
    requires 1 <= i < |path|
    ensures Get(Clear(obj, path), path[..i]) != Some(Obj(map[]))
    decreases |path|
  {
    var child := Clear(Child(obj, path[0]), path[1..]);
    AttachLaws(obj, path[0], child);
    if i > 1 {
      ClearLeavesNoEmptyAncestor(Child(obj, path[0]), path[1..], i - 1);
      assert path[..i][1..] == path[1..][..i - 1];
      GetViaChild(Clear(obj, path), path[..i]);
    }
  }
}
