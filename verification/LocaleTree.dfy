/**
 Translation files (frontend/scripts/extract-i18n.ts): a tree of objects whose leaves are
 texts, the dotted keys of its leaves, insertion of a dotted key, and sorting.
 */
module LocaleTree {
  import opened Basics

  // An object's own fields in insertion order; a leaf stands for any non-object value.
  datatype Tree = Leaf(value: string) | Node(fields: Fields)
  datatype Fields = Nil | Cons(key: string, tree: Tree, rest: Fields)

  type Path = seq<string>

  function Find(f: Fields, k: string): Option<Tree> {
    match f case Nil => None case Cons(key, tree, rest) => if key == k then Some(tree) else Find(rest, k)
  }

  // Every object has its keys once.
  predicate WellFormed(f: Fields) {
    match f
    case Nil => true
    case Cons(k, t, rest) => Find(rest, k) == None && (t.Node? ==> WellFormed(t.fields)) && WellFormed(rest)
  }

  // The leaf at a path.
  function Get(f: Fields, p: Path): Option<string>
    decreases |p|
  {
    if p == [] then None
    else
      match Find(f, p[0])
      case Some(Leaf(v)) => if |p| == 1 then Some(v) else None
      case Some(Node(sub)) => Get(sub, p[1..])
      case None => None
  }

  // ---------------------------------------------------------------- insertion

  // obj[k] = t: an existing key keeps its place.
  function Put(f: Fields, k: string, t: Tree): Fields {
    match f
    case Nil => Cons(k, t, Nil)
    case Cons(key, tree, rest) => if key == k then Cons(k, t, rest) else Cons(key, tree, Put(rest, k, t))
  }

  // setNestedValue; None is the TypeError of descending into a value that is no object.
  function SetAt(f: Fields, p: Path, v: string): Option<Fields>
    requires p != []
    decreases |p|
  {
    if |p| == 1 then Some(Put(f, p[0], Leaf(v)))
    else
      match Find(f, p[0])
      case Some(Leaf(_)) => None
      case Some(Node(sub)) => Wrap(f, p[0], SetAt(sub, p[1..], v))
      case None => Wrap(f, p[0], SetAt(Nil, p[1..], v))
  }

  function Wrap(f: Fields, k: string, sub: Option<Fields>): Option<Fields> {
    match sub case None => None case Some(s) => Some(Put(f, k, Node(s)))
  }

  lemma {:induction false} PutFind(f: Fields, k: string, t: Tree, j: string)
    ensures Find(Put(f, k, t), j) == if j == k then Some(t) else Find(f, j)
  {
    if f.Cons? && f.key != k { PutFind(f.rest, k, t, j); }
  }

  lemma {:induction false} PutWellFormed(f: Fields, k: string, t: Tree)
    requires WellFormed(f) && (t.Node? ==> WellFormed(t.fields))
    ensures WellFormed(Put(f, k, t))
  {
    if f.Cons? && f.key != k {
      PutWellFormed(f.rest, k, t);
      PutFind(f.rest, k, t, f.key);
    }
  }

  lemma {:induction false} FindWellFormed(f: Fields, k: string)
    requires WellFormed(f)
    ensures Find(f, k).Some? && Find(f, k).value.Node? ==> WellFormed(Find(f, k).value.fields)
  {
    if f.Cons? && f.key != k { FindWellFormed(f.rest, k); }
  }

  lemma {:induction false} SetWellFormed(f: Fields, p: Path, v: string)
    requires p != [] && WellFormed(f) && SetAt(f, p, v).Some?
    ensures WellFormed(SetAt(f, p, v).value)
    decreases |p|
  {
    if |p| == 1 {
      PutWellFormed(f, p[0], Leaf(v));
    } else {
      FindWellFormed(f, p[0]);
      var sub := if Find(f, p[0]).Some? then Find(f, p[0]).value.fields else Nil;
      SetWellFormed(sub, p[1..], v);
      PutWellFormed(f, p[0], Node(SetAt(sub, p[1..], v).value));
    }
  }

  predicate ProperPrefix(p: Path, q: Path) { |p| < |q| && q[..|p|] == p }

  lemma GetNil(q: Path)
    ensures Get(Nil, q) == None
  {}

  // Insertion fails exactly when a leaf stands in the way.
  lemma {:induction false} SetFailsIff(f: Fields, p: Path, v: string)
    requires p != []
    ensures SetAt(f, p, v) == None <==> exists n: nat :: 0 < n < |p| && Get(f, p[..n]).Some?
    decreases |p|
  {
    if |p| > 1 {
      var tail := p[1..];
      match Find(f, p[0])
      case Some(Leaf(x)) => assert Get(f, p[..1]) == Some(x);
      case Some(Node(sub)) =>
        SetFailsIff(sub, tail, v);
        BlockedBelow(f, p, sub);
      case None =>
        SetFailsIff(Nil, tail, v);
        forall n: nat | 0 < n < |tail| ensures Get(Nil, tail[..n]).None? { GetNil(tail[..n]); }
        forall n: nat | 0 < n < |p| ensures Get(f, p[..n]).None? { assert p[..n][0] == p[0]; }
    }
  }

  lemma BlockedBelow(f: Fields, p: Path, sub: Fields)
    requires |p| > 1 && Find(f, p[0]) == Some(Node(sub))
    ensures (exists n: nat :: 0 < n < |p| && Get(f, p[..n]).Some?)
            <==> (exists n: nat :: 0 < n < |p[1..]| && Get(sub, p[1..][..n]).Some?)
  {
    forall n: nat | 0 < n < |p| ensures Get(f, p[..n]) == Get(sub, p[1..][..n - 1]) {
      assert p[..n][1..] == p[1..][..n - 1] && p[..n][0] == p[0];
    }
    if n: nat :| 0 < n < |p| && Get(f, p[..n]).Some? {
      assert Get(sub, p[1..][..n - 1]).Some?;
      assert n - 1 > 0;
    }
    if n: nat :| 0 < n < |p[1..]| && Get(sub, p[1..][..n]).Some? {
      assert Get(f, p[..n + 1]).Some?;
    }
  }

  // After an insertion the new path holds the value, what lay below it is gone, and every
  // other leaf is as before.
  lemma {:induction false} SetGet(f: Fields, p: Path, v: string, q: Path)
    requires p != [] && SetAt(f, p, v).Some?
    ensures Get(SetAt(f, p, v).value, q) == if q == p then Some(v) else if ProperPrefix(p, q) then None else Get(f, q)
    decreases |p|
  {
    if q != [] {
      if |p| == 1 {
        PutFind(f, p[0], Leaf(v), q[0]);
        if q[0] == p[0] { assert q[..1] == p; }
      } else {
        var sub := if Find(f, p[0]).Some? then Find(f, p[0]).value.fields else Nil;
        var sub' := SetAt(sub, p[1..], v).value;
        PutFind(f, p[0], Node(sub'), q[0]);
        if q[0] == p[0] {
          SetGet(sub, p[1..], v, q[1..]);
          SameHead(p, q);
          GetNil(q[1..]);
        } else {
          assert !ProperPrefix(p, q) by { if |p| < |q| { assert q[..|p|][0] == q[0]; } }
        }
      }
    }
  }

  lemma SameHead(p: Path, q: Path)
    requires p != [] && q != [] && p[0] == q[0]
    ensures p == q <==> p[1..] == q[1..]
    ensures ProperPrefix(p, q) <==> ProperPrefix(p[1..], q[1..])
  {
    assert p == [p[0]] + p[1..] && q == [q[0]] + q[1..];
    if |p| < |q| {
      assert q[..|p|] == [q[0]] + q[1..][..|p| - 1];
    }
  }

  // ---------------------------------------------------------------- dotted keys

  function Split(s: string): (r: seq<string>)
    ensures r != []
  {
    if s == "" then [""]
    else if s[0] == '.' then [""] + Split(s[1..])
    else
      var r := Split(s[1..]);
      [[s[0]] + r[0]] + r[1..]
  }

  function Join(p: Path): string
    requires p != []
  {
    if |p| == 1 then p[0] else p[0] + "." + Join(p[1..])
  }

  lemma JoinPrepend(c: char, r: seq<string>)
    requires r != []
    ensures Join([[c] + r[0]] + r[1..]) == [c] + Join(r)
  {
    var p := [[c] + r[0]] + r[1..];
    if |r| > 1 {
      assert p[1..] == r[1..];
      PrependThrough(c, r[0], Join(r[1..]));
    }
  }

  lemma PrependThrough(c: char, a: string, b: string)
    ensures ([c] + a) + "." + b == [c] + (a + "." + b)
  {}

  lemma JoinEmptyFirst(r: seq<string>)
    requires r != []
    ensures Join([""] + r) == "." + Join(r)
  {
    assert ([""] + r)[1..] == r;
  }

  lemma {:induction false} JoinSplit(s: string)
    ensures Join(Split(s)) == s
  {
    if s != "" {
      JoinSplit(s[1..]);
      JoinPrepend(s[0], Split(s[1..]));
      JoinEmptyFirst(Split(s[1..]));
    }
  }

  // `${prefix}.${key}`, but a bare key behind an empty prefix.
  function FullKey(prefix: string, key: string): string { if prefix != "" then prefix + "." + key else key }

  function FullPath(prefix: string, p: Path): string
    requires p != []
    decreases |p|
  {
    if |p| == 1 then FullKey(prefix, p[0]) else FullPath(FullKey(prefix, p[0]), p[1..])
  }

  lemma {:induction false} FullPathBehind(prefix: string, p: Path)
    requires p != [] && prefix != ""
    ensures FullPath(prefix, p) == prefix + "." + Join(p)
    decreases |p|
  {
    if |p| > 1 {
      FullPathBehind(prefix + "." + p[0], p[1..]);
      assert prefix + "." + p[0] + "." + Join(p[1..]) == prefix + "." + (p[0] + "." + Join(p[1..]));
    }
  }

  // The flattened key of a path is its dotted form exactly when the path is a single key
  // or does not start with an empty one.
  lemma FullPathIff(p: Path)
    requires p != []
    ensures FullPath("", p) == Join(p) <==> |p| == 1 || p[0] != ""
  {
    if |p| > 1 {
      if p[0] != "" {
        FullPathBehind(p[0], p[1..]);
      } else {
        FullPathShort(p[1..]);
      }
    }
  }

  lemma {:induction false} FullPathShort(p: Path)
    requires p != []
    ensures |FullPath("", p)| <= |Join(p)|
    decreases |p|
  {
    if |p| > 1 {
      if p[0] == "" { FullPathShort(p[1..]); } else { FullPathBehind(p[0], p[1..]); }
    }
  }

  // getAllKeys
  function AllKeys(f: Fields, prefix: string): set<string> {
    match f
    case Nil => {}
    case Cons(k, Leaf(_), rest) => {FullKey(prefix, k)} + AllKeys(rest, prefix)
    case Cons(k, Node(sub), rest) => AllKeys(sub, FullKey(prefix, k)) + AllKeys(rest, prefix)
  }

  ghost predicate IsLeafKey(f: Fields, prefix: string, key: string) {
    exists p: Path :: p != [] && Get(f, p).Some? && FullPath(prefix, p) == key
  }

  lemma GetSkips(f: Fields, p: Path)
    requires f.Cons? && Find(f.rest, f.key) == None && p != []
    ensures p[0] != f.key ==> Get(f, p) == Get(f.rest, p)
    ensures p[0] == f.key ==> Get(f.rest, p) == None
    ensures p[0] == f.key && f.tree.Node? ==> Get(f, p) == Get(f.tree.fields, p[1..])
    ensures p[0] == f.key && f.tree.Leaf? ==> Get(f, p) == if |p| == 1 then Some(f.tree.value) else None
  {}

  // The flattened keys are the dotted forms of the leaf paths.
  lemma {:induction false} AllKeysAreLeafKeys(f: Fields, prefix: string, key: string)
    requires WellFormed(f)
    ensures key in AllKeys(f, prefix) <==> IsLeafKey(f, prefix, key)
    decreases f
  {
    if f.Cons? {
      AllKeysAreLeafKeys(f.rest, prefix, key);
      if IsLeafKey(f.rest, prefix, key) {
        var p: Path :| p != [] && Get(f.rest, p).Some? && FullPath(prefix, p) == key;
        GetSkips(f, p);
        assert Get(f, p).Some?;
      }
      if f.tree.Node? {
        var inner := FullKey(prefix, f.key);
        AllKeysAreLeafKeys(f.tree.fields, inner, key);
        if IsLeafKey(f.tree.fields, inner, key) {
          var p: Path :| p != [] && Get(f.tree.fields, p).Some? && FullPath(inner, p) == key;
          var q := [f.key] + p;
          assert q[1..] == p;
          GetSkips(f, q);
          assert FullPath(prefix, q) == key;
        }
      } else if key == FullKey(prefix, f.key) {
        var q := [f.key];
        GetSkips(f, q);
        assert FullPath(prefix, q) == key;
      }
      if IsLeafKey(f, prefix, key) {
        var p: Path :| p != [] && Get(f, p).Some? && FullPath(prefix, p) == key;
        GetSkips(f, p);
        if p[0] == f.key && f.tree.Node? {
          assert p[1..] != [] && Get(f.tree.fields, p[1..]).Some?;
          assert FullPath(FullKey(prefix, f.key), p[1..]) == key;
        }
      }
    } else {
      forall p: Path ensures Get(Nil, p).None? { GetNil(p); }
    }
  }

  predicate DotFree(s: string) { forall i :: 0 <= i < |s| ==> s[i] != '.' }

  lemma DotFreePrepend(c: char, s: string)
    requires c != '.' && DotFree(s)
    ensures DotFree([c] + s)
  {}

  lemma {:induction false} SplitDotFree(s: string)
    ensures forall i :: 0 <= i < |Split(s)| ==> DotFree(Split(s)[i])
  {
    if s != "" {
      var rest := Split(s[1..]);
      SplitDotFree(s[1..]);
      forall i | 0 <= i < |Split(s)| ensures DotFree(Split(s)[i]) {
        if s[0] == '.' {
          if i > 0 { assert Split(s)[i] == rest[i - 1]; }
        } else if i == 0 {
          DotFreePrepend(s[0], rest[0]);
        } else {
          assert Split(s)[i] == rest[i];
        }
      }
    }
  }

  // Dot-free keys are found again.
  lemma {:induction false} SplitJoin(p: Path)
    requires p != [] && forall i :: 0 <= i < |p| ==> DotFree(p[i])
    ensures Split(Join(p)) == p
  {
    if |p| == 1 {
      SplitPlain(p[0]);
    } else {
      SplitJoin(p[1..]);
      SplitFirst(p[0], Join(p[1..]));
      assert [p[0]] + p[1..] == p;
    }
  }

  lemma {:induction false} SplitPlain(s: string)
    requires DotFree(s)
    ensures Split(s) == [s]
  {
    if s != "" {
      SplitPlain(s[1..]);
      assert [s[0]] + s[1..] == s;
    }
  }

  lemma {:induction false} SplitFirst(s: string, rest: string)
    requires DotFree(s)
    ensures Split(s + "." + rest) == [s] + Split(rest)
  {
    var t := s + "." + rest;
    if s == "" {
      assert t[1..] == rest;
    } else {
      SplitFirst(s[1..], rest);
      assert t[1..] == s[1..] + "." + rest;
      assert [s[0]] + s[1..] == s;
      assert ([s[1..]] + Split(rest))[1..] == Split(rest);
    }
  }

  // A path as the script makes and prints them: no dots inside its keys, and no empty key
  // in front of others.
  predicate PlainPath(p: Path) {
    p != [] && (forall i :: 0 <= i < |p| ==> DotFree(p[i])) && (|p| == 1 || p[0] != "")
  }

  // A key names such a path unless it starts with a dot.
  predicate PlainKey(key: string) { key == "" || key[0] != '.' }

  lemma PlainKeyIff(key: string)
    ensures PlainKey(key) <==> PlainPath(Split(key))
  {
    SplitDotFree(key);
  }

  ghost predicate PlainTree(f: Fields) { forall q :: Get(f, q).Some? ==> PlainPath(q) }

  // In a plain tree the flattened keys are the keys that lead to a leaf.
  lemma PlainKeys(f: Fields, key: string)
    requires WellFormed(f) && PlainTree(f) && PlainPath(Split(key))
    ensures key in AllKeys(f, "") <==> Get(f, Split(key)).Some?
  {
    AllKeysAreLeafKeys(f, "", key);
    FullPathIff(Split(key));
    JoinSplit(key);
    if IsLeafKey(f, "", key) {
      var q: Path :| q != [] && Get(f, q).Some? && FullPath("", q) == key;
      FullPathIff(q);
      SplitJoin(q);
    }
  }

  lemma PlainInsert(f: Fields, key: string, v: string)
    requires PlainTree(f) && PlainPath(Split(key)) && SetAt(f, Split(key), v).Some?
    ensures PlainTree(SetAt(f, Split(key), v).value)
  {
    var f' := SetAt(f, Split(key), v).value;
    forall q | Get(f', q).Some? ensures PlainPath(q) { SetGet(f, Split(key), v, q); }
  }

  // Inserting a key adds exactly itself to the flattened keys if and only if no leaf lies
  // below it.
  lemma InsertedKeysIff(f: Fields, key: string, v: string)
    requires WellFormed(f) && PlainTree(f) && PlainKey(key) && SetAt(f, Split(key), v).Some?
    ensures AllKeys(SetAt(f, Split(key), v).value, "") == AllKeys(f, "") + {key}
            <==> forall q :: Get(f, q).Some? ==> !ProperPrefix(Split(key), q)
  {
    var p, f' := Split(key), SetAt(f, Split(key), v).value;
    PlainKeyIff(key);
    SetWellFormed(f, p, v);
    PlainInsert(f, key, v);
    if forall q :: Get(f, q).Some? ==> !ProperPrefix(p, q) {
      forall k ensures k in AllKeys(f', "") <==> k in AllKeys(f, "") + {key} { InsertedKey(f, key, v, k); }
    }
    if q :| Get(f, q).Some? && ProperPrefix(p, q) { CoveredKey(f, key, v, q); }
  }

  lemma InsertedKey(f: Fields, key: string, v: string, k: string)
    requires WellFormed(f) && PlainTree(f) && PlainPath(Split(key)) && SetAt(f, Split(key), v).Some?
    requires WellFormed(SetAt(f, Split(key), v).value)
    requires forall q :: Get(f, q).Some? ==> !ProperPrefix(Split(key), q)
    ensures k in AllKeys(SetAt(f, Split(key), v).value, "") <==> k in AllKeys(f, "") + {key}
  {
    var p, f' := Split(key), SetAt(f, Split(key), v).value;
    FullPathIff(p);
    JoinSplit(key);
    AllKeysAreLeafKeys(f, "", k);
    AllKeysAreLeafKeys(f', "", k);
    forall q ensures Get(f', q) == if q == p then Some(v) else Get(f, q) { SetGet(f, p, v, q); }
    if IsLeafKey(f', "", k) {
      var q: Path :| q != [] && Get(f', q).Some? && FullPath("", q) == k;
      assert q == p || Get(f, q).Some?;
    }
    if IsLeafKey(f, "", k) {
      var q: Path :| q != [] && Get(f, q).Some? && FullPath("", q) == k;
      assert Get(f', q).Some?;
    }
    if k == key { assert Get(f', p).Some?; }
  }

  // A leaf below the inserted key loses its flattened key.
  lemma CoveredKey(f: Fields, key: string, v: string, q: Path)
    requires WellFormed(f) && PlainTree(f) && PlainPath(Split(key)) && SetAt(f, Split(key), v).Some?
    requires WellFormed(SetAt(f, Split(key), v).value) && PlainTree(SetAt(f, Split(key), v).value)
    requires Get(f, q).Some? && ProperPrefix(Split(key), q)
    ensures Join(q) in AllKeys(f, "") && Join(q) !in AllKeys(SetAt(f, Split(key), v).value, "")
  {
    SplitJoin(q);
    PlainKeys(f, Join(q));
    PlainKeys(SetAt(f, Split(key), v).value, Join(q));
    SetGet(f, Split(key), v, q);
  }

  // ---------------------------------------------------------------- the add loops

  // Below a leaf there is no leaf.
  lemma {:induction false} LeavesArePrefixFree(f: Fields, q: Path, p: Path)
    requires Get(f, q).Some? && ProperPrefix(q, p)
    ensures Get(f, p).None?
    decreases |p|
  {
    assert p[0] == q[0] by { assert p[..|q|][0] == q[0]; }
    if Find(f, p[0]).Some? && Find(f, p[0]).value.Node? {
      SameHead(q, p);
      LeavesArePrefixFree(Find(f, p[0]).value.fields, q[1..], p[1..]);
    }
  }

  // Setting the keys one after the other, each to the placeholder and the key itself.
  function AddAll(f: Fields, keys: seq<string>, placeholder: string): Option<Fields>
    decreases |keys|
  {
    if keys == [] then Some(f)
    else
      match SetAt(f, Split(keys[0]), placeholder + keys[0])
      case None => None
      case Some(g) => AddAll(g, keys[1..], placeholder)
  }

  // A leaf of the tree stands on the way to p.
  ghost predicate Blocked(f: Fields, p: Path) { exists q :: Get(f, q).Some? && ProperPrefix(q, p) }

  // Insertions never clear the way.
  lemma {:induction false} BlockedStays(f: Fields, keys: seq<string>, placeholder: string, p: Path)
    requires Blocked(f, p) && AddAll(f, keys, placeholder).Some?
    ensures Get(AddAll(f, keys, placeholder).value, p).None?
    decreases |keys|
  {
    var q :| Get(f, q).Some? && ProperPrefix(q, p);
    if keys == [] {
      LeavesArePrefixFree(f, q, p);
    } else {
      var k, v := Split(keys[0]), placeholder + keys[0];
      var g := SetAt(f, k, v).value;
      SetGet(f, k, v, q);
      SetGet(f, k, v, k);
      if ProperPrefix(k, q) {
        assert p[..|q|][..|k|] == p[..|k|];
        assert ProperPrefix(k, p);
      }
      assert Blocked(g, p);
      BlockedStays(g, keys[1..], placeholder, p);
    }
  }

  // No key overwrites what the path p leads to.
  predicate NoneCovers(keys: seq<string>, p: Path) {
    forall i :: 0 <= i < |keys| ==> !ProperPrefix(Split(keys[i]), p)
  }

  lemma NoneCoversTail(keys: seq<string>, p: Path)
    requires keys != [] && NoneCovers(keys, p)
    ensures !ProperPrefix(Split(keys[0]), p) && NoneCovers(keys[1..], p)
  {
    assert forall i :: 0 <= i < |keys[1..]| ==> keys[1..][i] == keys[i + 1];
  }

  // What the loops leave at a path that no key covers: the text of the key that names it,
  // or what was there.
  lemma {:induction false} AddAllGet(f: Fields, keys: seq<string>, placeholder: string, p: Path)
    requires p != [] && (forall i :: 0 <= i < |p| ==> DotFree(p[i]))
    requires NoneCovers(keys, p) && AddAll(f, keys, placeholder).Some?
    ensures Get(AddAll(f, keys, placeholder).value, p)
            == if Join(p) in keys then Some(placeholder + Join(p)) else Get(f, p)
    decreases |keys|
  {
    if keys != [] {
      var g := SetAt(f, Split(keys[0]), placeholder + keys[0]).value;
      NoneCoversTail(keys, p);
      AddAllGet(g, keys[1..], placeholder, p);
      SetGet(f, Split(keys[0]), placeholder + keys[0], p);
      JoinSplit(keys[0]);
      SplitJoin(p);
      assert keys == [keys[0]] + keys[1..];
    }
  }

  // The loops go through if no leaf blocks a key and no key covers another.
  lemma {:induction false} AddAllSucceeds(f: Fields, keys: seq<string>, placeholder: string)
    requires forall i :: 0 <= i < |keys| ==> !Blocked(f, Split(keys[i])) && NoneCovers(keys, Split(keys[i]))
    ensures AddAll(f, keys, placeholder).Some?
    decreases |keys|
  {
    if keys != [] {
      var k, v, rest := Split(keys[0]), placeholder + keys[0], keys[1..];
      SetFailsIff(f, k, v);
      forall n: nat | 0 < n < |k| ensures Get(f, k[..n]).None? {
        assert ProperPrefix(k[..n], k);
      }
      var g := SetAt(f, k, v).value;
      forall i | 0 <= i < |rest| ensures !Blocked(g, Split(rest[i])) && NoneCovers(rest, Split(rest[i])) {
        assert rest[i] == keys[i + 1];
        NoneCoversTail(keys, Split(rest[i]));
        forall q | Get(g, q).Some? ensures !ProperPrefix(q, Split(rest[i])) { SetGet(f, k, v, q); }
      }
      AddAllSucceeds(g, rest, placeholder);
    }
  }

  // The extracted keys a file lacks.
  function MissingOf(extracted: seq<string>, existing: set<string>): seq<string> {
    if extracted == [] then []
    else
      var before, last := MissingOf(extracted[..|extracted| - 1], existing), extracted[|extracted| - 1];
      if last in existing then before else before + [last]
  }

  lemma {:induction false} MissingFacts(extracted: seq<string>, existing: set<string>)
    ensures forall k :: k in MissingOf(extracted, existing) <==> k in extracted && k !in existing
  {
    if extracted != [] {
      var init, last := extracted[..|extracted| - 1], extracted[|extracted| - 1];
      MissingFacts(init, existing);
      assert extracted == init + [last];
    }
  }

  // The condition under which a file can take all its missing keys.
  ghost predicate Addable(f: Fields, extracted: seq<string>) {
    var missing := MissingOf(extracted, AllKeys(f, ""));
    && (forall i :: 0 <= i < |missing| ==> !Blocked(f, Split(missing[i])))
    && (forall i :: 0 <= i < |extracted| ==> NoneCovers(missing, Split(extracted[i])))
  }

  // Every extracted key leads to a leaf.
  ghost predicate HasAll(f: Option<Fields>, extracted: seq<string>) {
    f.Some? && forall i :: 0 <= i < |extracted| ==> Get(f.value, Split(extracted[i])).Some?
  }

  // After the loops every extracted key is present if and only if no leaf of the file
  // stands on the way to a missing key and no missing key lies above an extracted one.
  lemma ExtractedKeysPresentIff(f: Fields, extracted: seq<string>, placeholder: string)
    requires WellFormed(f) && PlainTree(f) && forall i :: 0 <= i < |extracted| ==> PlainKey(extracted[i])
    ensures HasAll(AddAll(f, MissingOf(extracted, AllKeys(f, "")), placeholder), extracted) <==> Addable(f, extracted)
  {
    var missing := MissingOf(extracted, AllKeys(f, ""));
    MissingFacts(extracted, AllKeys(f, ""));
    forall i | 0 <= i < |extracted| ensures PlainPath(Split(extracted[i])) { PlainKeyIff(extracted[i]); }
    if Addable(f, extracted) {
      AddableHasAll(f, extracted, missing, placeholder);
    } else if AddAll(f, missing, placeholder).Some? {
      var g := AddAll(f, missing, placeholder).value;
      if HasAll(Some(g), extracted) {
        HasAllAddable(f, extracted, missing, placeholder, g);
      }
    }
  }

  lemma AddableHasAll(f: Fields, extracted: seq<string>, missing: seq<string>, placeholder: string)
    requires WellFormed(f) && PlainTree(f) && forall i :: 0 <= i < |extracted| ==> PlainPath(Split(extracted[i]))
    requires forall k :: k in missing <==> k in extracted && k !in AllKeys(f, "")
    requires forall i :: 0 <= i < |missing| ==> !Blocked(f, Split(missing[i]))
    requires forall i :: 0 <= i < |extracted| ==> NoneCovers(missing, Split(extracted[i]))
    ensures HasAll(AddAll(f, missing, placeholder), extracted)
  {
    forall i | 0 <= i < |missing| ensures NoneCovers(missing, Split(missing[i])) {
      assert missing[i] in missing;
    }
    AddAllSucceeds(f, missing, placeholder);
    forall i | 0 <= i < |extracted|
      ensures Get(AddAll(f, missing, placeholder).value, Split(extracted[i])).Some?
    {
      AddAllGet(f, missing, placeholder, Split(extracted[i]));
      JoinSplit(extracted[i]);
      PlainKeys(f, extracted[i]);
    }
  }

  lemma HasAllAddable(f: Fields, extracted: seq<string>, missing: seq<string>, placeholder: string, g: Fields)
    requires AddAll(f, missing, placeholder) == Some(g) && HasAll(Some(g), extracted)
    requires forall k :: k in missing ==> k in extracted
    ensures forall i :: 0 <= i < |missing| ==> !Blocked(f, Split(missing[i]))
    ensures forall i :: 0 <= i < |extracted| ==> NoneCovers(missing, Split(extracted[i]))
  {
    forall i | 0 <= i < |missing| ensures Get(g, Split(missing[i])).Some? && !Blocked(f, Split(missing[i])) {
      assert missing[i] in extracted;
      if Blocked(f, Split(missing[i])) { BlockedStays(f, missing, placeholder, Split(missing[i])); }
    }
    forall i, j | 0 <= i < |extracted| && 0 <= j < |missing|
      ensures !ProperPrefix(Split(missing[j]), Split(extracted[i]))
    {
      if ProperPrefix(Split(missing[j]), Split(extracted[i])) {
        LeavesArePrefixFree(g, Split(missing[j]), Split(extracted[i]));
      }
    }
  }

  // A leaf that was there is still there, as it was, if and only if no missing key is it
  // or covers it.
  lemma OldLeafKeptIff(f: Fields, keys: seq<string>, placeholder: string, q: Path)
    requires Get(f, q).Some? && PlainPath(q) && Join(q) !in keys && AddAll(f, keys, placeholder).Some?
    ensures Get(AddAll(f, keys, placeholder).value, q) == Get(f, q) <==> NoneCovers(keys, q)
  {
    if NoneCovers(keys, q) {
      AddAllGet(f, keys, placeholder, q);
    } else {
      CoveredIsLost(f, keys, placeholder, q);
    }
  }

  lemma {:induction false} CoveredIsLost(f: Fields, keys: seq<string>, placeholder: string, q: Path)
    requires !NoneCovers(keys, q) && PlainPath(q) && Join(q) !in keys && AddAll(f, keys, placeholder).Some?
    ensures Get(AddAll(f, keys, placeholder).value, q).None?
    decreases |keys|
  {
    var k, v := Split(keys[0]), placeholder + keys[0];
    var g := SetAt(f, k, v).value;
    if ProperPrefix(k, q) {
      SetGet(f, k, v, k);
      assert Get(g, k).Some?;
      BlockedStays(g, keys[1..], placeholder, q);
    } else {
      var i :| 0 <= i < |keys| && ProperPrefix(Split(keys[i]), q);
      assert keys[1..][i - 1] == keys[i];
      CoveredIsLost(g, keys[1..], placeholder, q);
    }
  }

  // An object the walk has passed, and the key it went on with.
  datatype Passed = Passed(fields: Fields, key: string)

  // What the objects passed become when the one below them becomes f.
  function Around(passed: seq<Passed>, f: Option<Fields>): Option<Fields> {
    if passed == [] then f
    else
      var last := passed[|passed| - 1];
      Around(passed[..|passed| - 1], Wrap(last.fields, last.key, f))
  }

  lemma AroundOneMore(passed: seq<Passed>, last: Passed, f: Option<Fields>)
    ensures Around(passed + [last], f) == Around(passed, Wrap(last.fields, last.key, f))
  {
    assert (passed + [last])[..|passed|] == passed;
  }

  lemma {:induction false} AroundNone(passed: seq<Passed>)
    ensures Around(passed, None) == None
  {
    if passed != [] { AroundNone(passed[..|passed| - 1]); }
  }

  lemma {:induction false} AroundSome(passed: seq<Passed>, f: Fields)
    ensures Around(passed, Some(f)).Some?
  {
    if passed != [] {
      var last := passed[|passed| - 1];
      AroundSome(passed[..|passed| - 1], Put(last.fields, last.key, Node(f)));
    }
  }

  lemma {:induction false} PutTwice(f: Fields, k: string, t: Tree, u: Tree)
    ensures Put(Put(f, k, t), k, u) == Put(f, k, u)
  {
    if f.Cons? && f.key != k { PutTwice(f.rest, k, t, u); }
  }

  // Making an empty object first does not change what an insertion through it gives.
  lemma MadeOnTheWay(f: Fields, p: Path, v: string)
    requires |p| > 1 && Find(f, p[0]).None?
    ensures Find(Put(f, p[0], Node(Nil)), p[0]) == Some(Node(Nil))
    ensures SetAt(Put(f, p[0], Node(Nil)), p, v) == SetAt(f, p, v)
  {
    PutFind(f, p[0], Node(Nil), p[0]);
    var sub := SetAt(Nil, p[1..], v);
    if sub.Some? { PutTwice(f, p[0], Node(Nil), Node(sub.value)); }
  }

  // A translation file in memory.
  class Locale {
    var tree: Fields

    constructor (content: Fields)
      ensures tree == content
    {
      tree := content;
    }

    // `current` walks down the parts of the key, and an object is made where one is missing;
    // the script's write is seen from the objects passed on the way.  False where the
    // script throws.
    method SetNestedValue(key: string, value: string) returns (ok: bool)
      modifies this
      ensures ok == SetAt(old(tree), Split(key), value).Some?
      ensures tree == if ok then SetAt(old(tree), Split(key), value).value else old(tree)
    {
      var parts := Split(key);
      var current := tree;
      var passed: seq<Passed> := [];
      assert parts[0..] == parts;
      for i := 0 to |parts| - 1
        invariant Around(passed, SetAt(current, parts[i..], value)) == SetAt(tree, parts, value)
        invariant tree == old(tree)
      {
        assert parts[i..][1..] == parts[i + 1..];
        if Find(current, parts[i]).None? {
          MadeOnTheWay(current, parts[i..], value);
          current := Put(current, parts[i], Node(Nil));
        }
        var child := Find(current, parts[i]).value;
        if child.Leaf? {
          AroundNone(passed);
          return false;
        }
        AroundOneMore(passed, Passed(current, parts[i]), SetAt(child.fields, parts[i + 1..], value));
        passed := passed + [Passed(current, parts[i])];
        current := child.fields;
      }
      current := Put(current, parts[|parts| - 1], Leaf(value));
      AroundSome(passed, current);
      tree := Around(passed, Some(current)).value;
      return true;
    }

    method AddKeys(keys: seq<string>, placeholder: string) returns (ok: bool)
      modifies this
      ensures ok == AddAll(old(tree), keys, placeholder).Some?
      ensures ok ==> tree == AddAll(old(tree), keys, placeholder).value
    {
      ok := true;
      assert keys[0..] == keys;
      for i := 0 to |keys|
        invariant AddAll(tree, keys[i..], placeholder) == AddAll(old(tree), keys, placeholder)
      {
        assert keys[i..][1..] == keys[i + 1..];
        ok := SetNestedValue(keys[i], placeholder + keys[i]);
        if !ok { return; }
      }
    }

    method FindMissing(extracted: seq<string>) returns (missing: seq<string>)
      ensures missing == MissingOf(extracted, AllKeys(tree, ""))
    {
      var existing := AllKeys(tree, "");
      missing := [];
      for i := 0 to |extracted|
        invariant missing == MissingOf(extracted[..i], existing)
      {
        assert extracted[..i + 1][..i] == extracted[..i];
        if extracted[i] !in existing { missing := missing + [extracted[i]]; }
      }
      assert extracted[..|extracted|] == extracted;
    }

    // One locale's share of the update: it succeeds with every extracted key present
    // exactly on an addable file.
    method Update(extracted: seq<string>, placeholder: string) returns (ok: bool)
      requires WellFormed(tree) && PlainTree(tree)
      requires forall i :: 0 <= i < |extracted| ==> PlainKey(extracted[i])
      modifies this
      ensures ok && HasAll(Some(tree), extracted) <==> Addable(old(tree), extracted)
    {
      ExtractedKeysPresentIff(tree, extracted, placeholder);
      var missing := FindMissing(extracted);
      ok := AddKeys(missing, placeholder);
    }
  }

  // ---------------------------------------------------------------- sorting

  // The UTF-16 code units of a text.
  function Units(s: string): seq<nat> {
    if s == "" then [] else UnitsOf(s[0] as nat) + Units(s[1..])
  }

  function UnitsOf(c: nat): seq<nat> {
    if c < 0x10000 then [c] else [0xD800 + (c - 0x10000) / 0x400, 0xDC00 + (c - 0x10000) % 0x400]
  }

  predicate Less(a: seq<nat>, b: seq<nat>) {
    b != [] && (a == [] || a[0] < b[0] || (a[0] == b[0] && Less(a[1..], b[1..])))
  }

  // The order of texts: lexicographic, by code unit.
  predicate Before(a: string, b: string) { Less(Units(a), Units(b)) }

  // The units are the UTF-16 form (section 2 of RFC 2781).
  lemma UnitsDenote(c: nat)
    requires c <= 0x10FFFF
    ensures c < 0x10000 ==> UnitsOf(c) == [c]
    ensures c >= 0x10000 ==>
              var u := UnitsOf(c);
              && |u| == 2 && 0xD800 <= u[0] < 0xDC00 <= u[1] < 0xE000
              && 0x10000 + (u[0] - 0xD800) * 0x400 + (u[1] - 0xDC00) == c
  {}

  lemma {:induction false} UnitsAppend(a: string, b: string)
    ensures Units(a + b) == Units(a) + Units(b)
  {
    if a == "" {
      AppendEmpty(b);
      AppendEmpty(Units(b));
    } else {
      TailOfAppend(a, b);
      UnitsAppend(a[1..], b);
      Assoc(UnitsOf(a[0] as nat), Units(a[1..]), Units(b));
    }
  }

  lemma {:induction false} LessAppend(p: seq<nat>, a: seq<nat>, b: seq<nat>)
    ensures Less(p + a, p + b) <==> Less(a, b)
  {
    if p == [] {
      AppendEmpty(a);
      AppendEmpty(b);
    } else {
      TailOfAppend(p, a);
      TailOfAppend(p, b);
      LessAppend(p[1..], a, b);
    }
  }

  // The first difference decides, and a text comes before its continuations.
  lemma FirstDifference(p: string, a: string, b: string)
    requires (a != "" && b != "" && a[0] < b[0] && b[0] as nat < 0x10000) || (a == "" && b != "")
    ensures Before(p + a, p + b) && !Before(p + b, p + a)
  {
    UnitsAppend(p, a);
    UnitsAppend(p, b);
    LessAppend(Units(p), Units(a), Units(b));
    LessAppend(Units(p), Units(b), Units(a));
    assert a != "" ==> Units(a)[0] == a[0] as nat;
    assert Units(b) != [];
  }

  function Insert(f: Fields, k: string, t: Tree): Fields {
    match f
    case Nil => Cons(k, t, Nil)
    case Cons(key, tree, rest) => if Before(k, key) then Cons(k, t, f) else Cons(key, tree, Insert(rest, k, t))
  }

  // sortObjectKeys
  function SortKeys(f: Fields): Fields {
    match f
    case Nil => Nil
    case Cons(k, t, rest) => Insert(SortKeys(rest), k, SortTree(t))
  }

  function SortTree(t: Tree): Tree { match t case Leaf(_) => t case Node(f) => Node(SortKeys(f)) }

  predicate Ordered(f: Fields) {
    match f
    case Nil => true
    case Cons(k, t, rest) => (rest.Cons? ==> !Before(rest.key, k)) && (t.Node? ==> Ordered(t.fields)) && Ordered(rest)
  }

  lemma {:induction false} LessAsymmetric(a: seq<nat>, b: seq<nat>)
    requires Less(a, b)
    ensures !Less(b, a)
  {
    if a != [] && b != [] && a[0] == b[0] { LessAsymmetric(a[1..], b[1..]); }
  }

  lemma {:induction false} InsertOrdered(f: Fields, k: string, t: Tree)
    requires Ordered(f) && (t.Node? ==> Ordered(t.fields))
    ensures Ordered(Insert(f, k, t))
    ensures var r := Insert(f, k, t); r.Cons? && (r.key == k || (f.Cons? && r.key == f.key))
  {
    if f.Cons? {
      if Before(k, f.key) {
        LessAsymmetric(Units(k), Units(f.key));
      } else {
        InsertOrdered(f.rest, k, t);
      }
    }
  }

  lemma {:induction false} InsertFind(f: Fields, k: string, t: Tree, j: string)
    requires Find(f, k) == None
    ensures Find(Insert(f, k, t), j) == if j == k then Some(t) else Find(f, j)
  {
    if f.Cons? && !Before(k, f.key) { InsertFind(f.rest, k, t, j); }
  }

  lemma {:induction false} SortFind(f: Fields, j: string)
    requires WellFormed(f)
    ensures Find(SortKeys(f), j) == match Find(f, j) case None => None case Some(t) => Some(SortTree(t))
  {
    if f.Cons? {
      SortFind(f.rest, f.key);
      SortFind(f.rest, j);
      InsertFind(SortKeys(f.rest), f.key, SortTree(f.tree), j);
    }
  }

  // Sorting preserves every leaf under its path.
  lemma {:induction false} SortPreservesLeaves(f: Fields, p: Path)
    requires WellFormed(f)
    ensures Get(SortKeys(f), p) == Get(f, p)
    decreases |p|
  {
    if p != [] {
      SortFind(f, p[0]);
      FindWellFormed(f, p[0]);
      match Find(f, p[0])
      case Some(Node(sub)) => SortPreservesLeaves(sub, p[1..]);
      case _ =>
    }
  }

  lemma {:induction false} SortIsOrdered(f: Fields)
    ensures Ordered(SortKeys(f))
    decreases f
  {
    if f.Cons? {
      if f.tree.Node? { SortIsOrdered(f.tree.fields); }
      SortIsOrdered(f.rest);
      InsertOrdered(SortKeys(f.rest), f.key, SortTree(f.tree));
    }
  }

  lemma {:induction false} InsertWellFormed(f: Fields, k: string, t: Tree)
    requires WellFormed(f) && Find(f, k) == None && (t.Node? ==> WellFormed(t.fields))
    ensures WellFormed(Insert(f, k, t))
  {
    if f.Cons? && !Before(k, f.key) {
      InsertWellFormed(f.rest, k, t);
      InsertFind(f.rest, k, t, f.key);
    }
  }

  lemma {:induction false} SortWellFormed(f: Fields)
    requires WellFormed(f)
    ensures WellFormed(SortKeys(f))
    decreases f
  {
    if f.Cons? {
      if f.tree.Node? { SortWellFormed(f.tree.fields); }
      SortWellFormed(f.rest);
      SortFind(f.rest, f.key);
      InsertWellFormed(SortKeys(f.rest), f.key, SortTree(f.tree));
    }
  }

  // So a sorted file has the same flattened keys.
  lemma SortPreservesKeys(f: Fields)
    requires WellFormed(f)
    ensures AllKeys(SortKeys(f), "") == AllKeys(f, "")
  {
    SortWellFormed(f);
    forall k ensures k in AllKeys(SortKeys(f), "") <==> k in AllKeys(f, "") {
      AllKeysAreLeafKeys(f, "", k);
      AllKeysAreLeafKeys(SortKeys(f), "", k);
      forall p: Path ensures Get(SortKeys(f), p) == Get(f, p) { SortPreservesLeaves(f, p); }
    }
  }
}
