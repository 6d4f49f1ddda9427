/** Editing a server as a JSON tree: the diff and the dotted patch of `draft.rs`. */
module Draft {
  import opened Wrappers

  datatype Json =
    | Null
    | Bool(b: bool)
    | Number(literal: string)
    | Text(text: string)
    | Array(items: seq<Json>)
    | Object(fields: Fields)

  type Fields = map<string, Json>

  /** A position in a tree: the keys to follow, outermost first. */
  type Path = seq<string>

  /** The value a key has, an absent one reading as null. */
  function Get(f: Fields, key: string): Json {
    if key in f then f[key] else Null
  }

  predicate BothObjects(b: Fields, a: Fields, key: string) {
    key in b && key in a && b[key].Object? && a[key].Object?
  }

  // ---------------------------------------------------------------- keys

  predicate IsPlain(key: string) { '.' !in key }

  predicate AllPlain(path: Path) {
    forall i :: 0 <= i < |path| ==> IsPlain(path[i])
  }

  function FindDot(key: string): (at: nat)
    ensures at <= |key| && (at < |key| ==> key[at] == '.')
    ensures forall i :: 0 <= i < at ==> key[i] != '.'
  {
    if key == [] || key[0] == '.' then 0 else 1 + FindDot(key[1..])
  }

  /** The parts of an override key: `split('.')`. */
  function Split(key: string): (path: Path)
    ensures path != []
    decreases |key|
  {
    var at := FindDot(key);
    if at == |key| then [key[..at]] else [key[..at]] + Split(key[at + 1..])
  }

  /** How the diff spells a position. */
  function Join(path: Path): string
    requires path != []
  {
    if |path| == 1 then path[0] else path[0] + "." + Join(path[1..])
  }

  lemma {:induction false} SplitIsPlain(key: string)
    ensures AllPlain(Split(key))
    decreases |key|
  {
    var at := FindDot(key);
    if at < |key| {
      SplitIsPlain(key[at + 1..]);
    }
  }

  lemma {:induction false} FindDotAfter(head: string, rest: string)
    requires IsPlain(head)
    ensures FindDot(head) == |head|
    ensures FindDot(head + "." + rest) == |head|
  {
    var key := head + "." + rest;
    if head != [] {
      FindDotAfter(head[1..], rest);
      assert key[1..] == head[1..] + "." + rest;
    }
  }

  lemma SplitHead(head: string, rest: string)
    requires IsPlain(head)
    ensures Split(head) == [head]
    ensures Split(head + "." + rest) == [head] + Split(rest)
  {
    FindDotAfter(head, rest);
    var key := head + "." + rest;
    assert head[..|head|] == head && key[..|head|] == head && key[|head| + 1..] == rest;
  }

  function Dots(key: string): nat {
    if key == [] then 0 else (if key[0] == '.' then 1 else 0) + Dots(key[1..])
  }

  lemma {:induction false} DotsAdd(x: string, y: string)
    ensures Dots(x + y) == Dots(x) + Dots(y)
  {
    if x == [] {
      assert x + y == y;
    } else {
      assert (x + y)[1..] == x[1..] + y;
      DotsAdd(x[1..], y);
    }
  }

  lemma {:induction false} PlainHasNoDots(key: string)
    ensures IsPlain(key) <==> Dots(key) == 0
  {
    if key != [] {
      PlainHasNoDots(key[1..]);
      assert '.' in key <==> key[0] == '.' || '.' in key[1..];
    }
  }

  /** A key has one part more than it has dots. */
  lemma {:induction false} SplitCounts(key: string)
    ensures |Split(key)| == 1 + Dots(key)
    decreases |key|
  {
    var at := FindDot(key);
    PlainHasNoDots(key[..at]);
    assert key == key[..at] + key[at..];
    DotsAdd(key[..at], key[at..]);
    if at < |key| {
      assert key[at..][1..] == key[at + 1..];
      SplitCounts(key[at + 1..]);
    }
  }

  lemma {:induction false} SplitJoinPlain(path: Path)
    requires path != [] && AllPlain(path)
    ensures Split(Join(path)) == path
  {
    var head := path[0];
    if |path| > 1 {
      SplitJoinPlain(path[1..]);
      SplitHead(head, Join(path[1..]));
      assert Join(path) == head + "." + Join(path[1..]);
      assert path == [head] + path[1..];
    } else {
      SplitHead(head, "");
      assert Join(path) == head && path == [head];
    }
  }

  /** A position survives its dotted spelling exactly when no key on it has a dot. */
  lemma SplitUndoesJoin(path: Path)
    requires path != []
    ensures Split(Join(path)) == path <==> AllPlain(path)
  {
    SplitIsPlain(Join(path));
    if AllPlain(path) {
      SplitJoinPlain(path);
    }
  }

  lemma {:induction false} JoinUndoesSplit(key: string)
    ensures Join(Split(key)) == key
    decreases |key|
  {
    var at := FindDot(key);
    if at < |key| {
      JoinUndoesSplit(key[at + 1..]);
      assert key == key[..at] + "." + key[at + 1..];
    } else {
      assert key[..at] == key;
    }
  }

  lemma PlainHeads(x: string, s: string, y: string, t: string)
    requires IsPlain(x) && IsPlain(y) && x + "." + s == y + "." + t
    ensures x == y && s == t
  {
    var whole := x + "." + s;
    FindDotAfter(x, s);
    FindDotAfter(y, t);
    assert whole[..|x|] == x && whole[..|y|] == y;
    assert whole[|x| + 1..] == s && whole[|y| + 1..] == t;
  }

  lemma Reassociate(head: string, tail: string, rest: string)
    ensures (head + "." + tail) + "." + rest == head + "." + (tail + "." + rest)
  {
  }

  /** One spelling extends another by a dot only when its position does. */
  lemma {:induction false} JoinExtends(p: Path, rest: string, q: Path)
    requires p != [] && q != [] && AllPlain(p) && AllPlain(q)
    requires Join(p) + "." + rest == Join(q)
    ensures p <= q
  {
    assert |q| > 1 by {
      assert Join(q)[|Join(p)|] == '.';
    }
    if |p| == 1 {
      PlainHeads(p[0], rest, q[0], Join(q[1..]));
    } else {
      Reassociate(p[0], Join(p[1..]), rest);
      PlainHeads(p[0], Join(p[1..]) + "." + rest, q[0], Join(q[1..]));
      JoinExtends(p[1..], rest, q[1..]);
    }
  }

  /** A spelling with a dotted key in it splits into more parts than it had keys. */
  lemma {:induction false} SplitLengthens(path: Path)
    requires path != []
    ensures |Split(Join(path))| >= |path|
    ensures !AllPlain(path) ==> |Split(Join(path))| > |path|
  {
    SplitCounts(Join(path));
    PlainHasNoDots(path[0]);
    if |path| > 1 {
      SplitLengthens(path[1..]);
      SplitCounts(Join(path[1..]));
      DotsAdd(path[0] + ".", Join(path[1..]));
      DotsAdd(path[0], ".");
      assert Dots(".") == 1;
      assert IsPlain(path[0]) && AllPlain(path[1..]) ==> AllPlain(path);
    }
  }

  // ---------------------------------------------------------------- diff

  /** What the diff records at a position, if anything. */
  function Change(b: Fields, a: Fields, path: Path): Option<Json>
    decreases |path|
  {
    if path == [] then None
    else
      var key := path[0];
      if key in a then
        if key in b && b[key] == a[key] then None
        else if BothObjects(b, a, key) then Change(b[key].fields, a[key].fields, path[1..])
        else if |path| == 1 then Some(a[key]) else None
      else if key in b && |path| == 1 then Some(Null) else None
  }

  ghost predicate IsChange(b: Fields, a: Fields, path: Path) {
    Change(b, a, path).Some?
  }

  /** `changed` spells every change below `prefix`, and nothing else that is new. */
  ghost predicate Records(prefix: string, b: Fields, a: Fields, was: Fields, changed: Fields) {
    && was.Keys <= changed.Keys
    && (forall path :: path != [] && IsChange(b, a, path) ==> prefix + Join(path) in changed)
    && (forall key :: key in changed ==>
          || (key in was && changed[key] == was[key])
          || exists path :: path != [] && key == prefix + Join(path) && Change(b, a, path) == Some(changed[key]))
  }

  /** The same for the keys looked at so far. */
  ghost predicate RecordsWithin(keys: set<string>, prefix: string, b: Fields, a: Fields, was: Fields, changed: Fields) {
    && was.Keys <= changed.Keys
    && (forall path :: path != [] && path[0] in keys && IsChange(b, a, path) ==> prefix + Join(path) in changed)
    && (forall key :: key in changed ==>
          || (key in was && changed[key] == was[key])
          || exists path :: path != [] && key == prefix + Join(path) && Change(b, a, path) == Some(changed[key]))
  }

  /** The map a diff accumulates into. */
  class Changes {
    var changed: Fields

    constructor ()
      ensures changed == map[]
    {
      changed := map[];
    }

    method DiffObjects(prefix: string, before: Json, after: Json)
      modifies this
      ensures before.Object? && after.Object? ==> Records(prefix, before.fields, after.fields, old(changed), changed)
      ensures !(before.Object? && after.Object?) ==> changed == old(changed)
      decreases after
    {
      if !before.Object? || !after.Object? {
        return;
      }
      var b, a := before.fields, after.fields;
      ghost var was := changed;
      var todo := a.Keys;
      while todo != {}
        invariant todo <= a.Keys
        invariant RecordsWithin(a.Keys - todo, prefix, b, a, was, changed)
        decreases todo
      {
        var key :| key in todo;
        todo := todo - {key};
        ghost var now := changed;
        if key in b && b[key] == a[key] {
        } else if key in b && b[key].Object? && a[key].Object? {
          DiffObjects(prefix + key + ".", b[key], a[key]);
          NestedRecords(a.Keys - todo - {key}, prefix, b, a, was, now, changed, key);
        } else {
          changed := changed[prefix + key := a[key]];
          LeafRecords(a.Keys - todo - {key}, prefix, b, a, was, now, changed, key, a[key]);
        }
        assert a.Keys - todo == a.Keys - todo - {key} + {key};
      }
      todo := b.Keys - a.Keys;
      while todo != {}
        invariant todo <= b.Keys - a.Keys
        invariant RecordsWithin(a.Keys + b.Keys - todo, prefix, b, a, was, changed)
        decreases todo
      {
        var key :| key in todo;
        todo := todo - {key};
        ghost var now := changed;
        changed := changed[prefix + key := Null];
        LeafRecords(a.Keys + b.Keys - todo - {key}, prefix, b, a, was, now, changed, key, Null);
        assert a.Keys + b.Keys - todo == a.Keys + b.Keys - todo - {key} + {key};
      }
    }
  }

  lemma LeafRecords(keys: set<string>, prefix: string, b: Fields, a: Fields,
                    was: Fields, now: Fields, next: Fields, key: string, value: Json)
    requires RecordsWithin(keys, prefix, b, a, was, now)
    requires next == now[prefix + key := value] && Change(b, a, [key]) == Some(value)
    requires forall path :: path != [] && path[0] == key && IsChange(b, a, path) ==> path == [key]
    ensures RecordsWithin(keys + {key}, prefix, b, a, was, next)
  {
  }

  lemma NestedChange(prefix: string, b: Fields, a: Fields, key: string, path: Path)
    requires BothObjects(b, a, key) && path != [] && path[0] == key && IsChange(b, a, path)
    ensures path[1..] != [] && IsChange(b[key].fields, a[key].fields, path[1..])
    ensures prefix + Join(path) == prefix + key + "." + Join(path[1..])
  {
    assert IsChange(b[key].fields, a[key].fields, path[1..]);
    assert path[1..] != [];
    assert Join(path) == key + "." + Join(path[1..]);
  }

  lemma NestedSource(prefix: string, b: Fields, a: Fields, key: string, value: Json, k: string) returns (path: Path)
    requires BothObjects(b, a, key) && b[key] != a[key]
    requires exists rest :: rest != [] && k == prefix + key + "." + Join(rest)
                         && Change(b[key].fields, a[key].fields, rest) == Some(value)
    ensures path != [] && k == prefix + Join(path) && Change(b, a, path) == Some(value)
  {
    var rest :| rest != [] && k == prefix + key + "." + Join(rest)
             && Change(b[key].fields, a[key].fields, rest) == Some(value);
    path := [key] + rest;
    assert path[1..] == rest;
  }

  lemma NestedRecords(keys: set<string>, prefix: string, b: Fields, a: Fields,
                      was: Fields, now: Fields, next: Fields, key: string)
    requires RecordsWithin(keys, prefix, b, a, was, now)
    requires BothObjects(b, a, key) && b[key] != a[key]
    requires Records(prefix + key + ".", b[key].fields, a[key].fields, now, next)
    ensures RecordsWithin(keys + {key}, prefix, b, a, was, next)
  {
    forall path | path != [] && path[0] in keys + {key} && IsChange(b, a, path)
      ensures prefix + Join(path) in next
    {
      if path[0] == key {
        NestedChange(prefix, b, a, key, path);
      }
    }
    forall k | k in next && !(k in was && next[k] == was[k])
      ensures exists path :: path != [] && k == prefix + Join(path) && Change(b, a, path) == Some(next[k])
    {
      if !(k in now && next[k] == now[k]) {
        var path := NestedSource(prefix, b, a, key, next[k], k);
      }
    }
  }

  /** `diff`, on the trees two drafts serialize to. */
  method Diff(before: Json, after: Json) returns (changed: Fields)
    ensures before.Object? && after.Object? ==> IsDiff(before.fields, after.fields, changed)
  {
    var changes := new Changes();
    changes.DiffObjects("", before, after);
    changed := changes.changed;
    if before.Object? && after.Object? {
      forall key | key in changed
        ensures exists path :: path != [] && key == Join(path) &&
                               Change(before.fields, after.fields, path) == Some(changed[key])
      {
        var path :| path != [] && key == "" + Join(path)
            && Change(before.fields, after.fields, path) == Some(changed[key]);
      }
      forall path | path != [] && IsChange(before.fields, after.fields, path)
        ensures Join(path) in changed
      {
        assert "" + Join(path) == Join(path);
      }
    }
  }

  /** `changed` is what `diff` returns: every change, spelled with dots. */
  ghost predicate IsDiff(b: Fields, a: Fields, changed: Fields) {
    && (forall path :: path != [] && IsChange(b, a, path) ==> Join(path) in changed)
    && (forall key :: key in changed ==>
          exists path :: path != [] && key == Join(path) && Change(b, a, path) == Some(changed[key]))
  }

  /** The diff is empty exactly when nothing changed. */
  lemma DiffEmptyIffEqual(b: Fields, a: Fields, changed: Fields)
    requires IsDiff(b, a, changed)
    ensures changed == map[] <==> b == a
  {
    if b != a {
      var path := SomeChange(b, a);
    }
  }

  lemma {:induction false} SomeChange(b: Fields, a: Fields) returns (path: Path)
    requires b != a
    ensures path != [] && IsChange(b, a, path)
    decreases Object(a)
  {
    if key :| key in a && !(key in b && b[key] == a[key]) {
      if BothObjects(b, a, key) {
        assert a[key] == Object(a[key].fields) && b[key] == Object(b[key].fields);
        var rest := SomeChange(b[key].fields, a[key].fields);
        path := [key] + rest;
        assert path[1..] == rest;
      } else {
        path := [key];
      }
    } else {
      assert forall k :: k in a ==> k in b && b[k] == a[k];
      assert b.Keys <= a.Keys ==> b == a;
      var key :| key in b && key !in a;
      path := [key];
    }
  }

  /** No change lies below another. */
  lemma {:induction false} ChangesPrefixFree(b: Fields, a: Fields, p: Path, q: Path)
    requires IsChange(b, a, p) && IsChange(b, a, q) && p <= q
    ensures p == q
    decreases |p|
  {
    if BothObjects(b, a, p[0]) {
      assert p[1..] <= q[1..];
      ChangesPrefixFree(b[p[0]].fields, a[p[0]].fields, p[1..], q[1..]);
      assert p == [p[0]] + p[1..] && q == [q[0]] + q[1..];
    }
  }

  /** Every key on the way to a change is free of dots. */
  ghost predicate PlainChanges(b: Fields, a: Fields) {
    forall path :: IsChange(b, a, path) ==> AllPlain(path)
  }

  /** A diff of plain changes maps their spellings one to one. */
  lemma DiffKeyIsChange(b: Fields, a: Fields, changed: Fields, key: string)
    requires IsDiff(b, a, changed) && PlainChanges(b, a) && key in changed
    ensures Change(b, a, Split(key)) == Some(changed[key])
  {
    var path :| path != [] && key == Join(path) && Change(b, a, path) == Some(changed[key]);
    assert IsChange(b, a, path);
    SplitUndoesJoin(path);
  }

  /** No key of such a diff is a dotted prefix of another. */
  lemma DiffKeysIndependent(b: Fields, a: Fields, changed: Fields, key: string, other: string)
    requires IsDiff(b, a, changed) && PlainChanges(b, a) && key in changed && other in changed
    ensures !(key + "." <= other)
  {
    var p :| p != [] && key == Join(p) && Change(b, a, p) == Some(changed[key]);
    var q :| q != [] && other == Join(q) && Change(b, a, q) == Some(changed[other]);
    assert IsChange(b, a, p) && IsChange(b, a, q);
    if key + "." <= other {
      var rest := other[|key| + 1..];
      assert key + "." + rest == other;
      JoinExtends(p, rest, q);
      ChangesPrefixFree(b, a, p, q);
    }
  }

  // ---------------------------------------------------------------- patch

  /** Writing a value at a position, making objects of whatever is in the way. */
  function SetPath(f: Fields, path: Path, value: Json): Fields
    requires path != []
    decreases |path|
  {
    if |path| == 1 then f[path[0] := value]
    else
      var nested := if path[0] in f && f[path[0]].Object? then f[path[0]].fields else map[];
      f[path[0] := Object(SetPath(nested, path[1..], value))]
  }

  lemma SplitStep(key: string)
    ensures var at := FindDot(key);
            Split(key) == if at == |key| then [key[..at]] else [key[..at]] + Split(key[at + 1..])
  {
  }

  lemma SetPathStep(f: Fields, first: string, rest: Path, value: Json)
    ensures SetPath(f, [first], value) == f[first := value]
    ensures rest != [] ==>
              var nested := if first in f && f[first].Object? then f[first].fields else map[];
              SetPath(f, [first] + rest, value) == f[first := Object(SetPath(nested, rest, value))]
  {
    assert ([first] + rest)[1..] == rest;
  }

  method SetDotted(target: Fields, key: string, value: Json) returns (updated: Fields)
    ensures updated == SetPath(target, Split(key), value)
    decreases |key|
  {
    hide Split, SetPath;
    var at := FindDot(key);
    var first := key[..at];
    SplitStep(key);
    if at == |key| {
      SetPathStep(target, first, [], value);
      return target[first := value];
    }
    var entry := if first in target then target[first] else Object(map[]);
    if !entry.Object? {
      entry := Object(map[]);
    }
    var nested := SetDotted(entry.fields, key[at + 1..], value);
    SetPathStep(target, first, Split(key[at + 1..]), value);
    updated := target[first := Object(nested)];
  }

  /** Applying the values of `changed` one key after another. */
  function Patch(f: Fields, order: seq<string>, changed: Fields): Fields
    requires forall i :: 0 <= i < |order| ==> order[i] in changed
  {
    if order == [] then f
    else
      var last := order[|order| - 1];
      SetPath(Patch(f, order[..|order| - 1], changed), Split(last), changed[last])
  }

  ghost predicate IsOrder(order: seq<string>, keys: set<string>) {
    && (forall i :: 0 <= i < |order| ==> order[i] in keys)
    && (forall key :: key in keys ==> key in order)
    && (forall i, j :: 0 <= i < j < |order| ==> order[i] != order[j])
  }

  /** The loop of `apply_overrides`, in whatever order the map yields its keys. */
  method ApplyOverrides(base: Fields, values: Fields) returns (patched: Fields)
    ensures exists order :: IsOrder(order, values.Keys) && patched == Patch(base, order, values)
  {
    ghost var order: seq<string> := [];
    patched := base;
    var todo := values.Keys;
    while todo != {}
      invariant todo <= values.Keys && IsOrder(order, values.Keys - todo)
      invariant patched == Patch(base, order, values)
      decreases todo
    {
      var key :| key in todo;
      patched := SetDotted(patched, key, values[key]);
      ghost var longer := order + [key];
      assert longer[..|order|] == order;
      forall k | k in values.Keys - (todo - {key})
        ensures k in longer
      {
        assert k == key ==> longer[|order|] == key;
        assert k != key ==> k in order;
      }
      todo, order := todo - {key}, longer;
    }
  }

  // ------------------------------------------------- what a patched tree is

  /** `before` with `after` laid over it; keys `after` lacks become null. */
  function Merged(b: Fields, a: Fields): Fields
    decreases Object(b)
  {
    map key | key in b.Keys + a.Keys ::
      if key !in a then Null
      else if BothObjects(b, a, key) then
        assert b[key] == Object(b[key].fields);
        Object(Merged(b[key].fields, a[key].fields))
      else a[key]
  }

  /** Equal, a null field and an absent one not being told apart. */
  predicate EqUpToNull(x: Json, y: Json)
    decreases x
  {
    if x.Object? && y.Object? then
      forall key :: key in x.fields.Keys + y.fields.Keys ==>
        if BothObjects(x.fields, y.fields, key) then EqUpToNull(x.fields[key], y.fields[key])
        else Get(x.fields, key) == Get(y.fields, key)
    else x == y
  }

  lemma {:induction false} EqUpToNullReflexive(x: Json)
    ensures EqUpToNull(x, x)
    decreases x
  {
    if x.Object? {
      forall key | BothObjects(x.fields, x.fields, key)
        ensures EqUpToNull(x.fields[key], x.fields[key])
      {
        EqUpToNullReflexive(x.fields[key]);
      }
    }
  }

  lemma {:induction false} MergedIsAfter(b: Fields, a: Fields)
    ensures EqUpToNull(Object(Merged(b, a)), Object(a))
    decreases Object(b)
  {
    var m := Merged(b, a);
    forall key | BothObjects(m, a, key)
      ensures EqUpToNull(m[key], a[key])
    {
      if BothObjects(b, a, key) {
        assert b[key] == Object(b[key].fields) && a[key] == Object(a[key].fields);
        MergedIsAfter(b[key].fields, a[key].fields);
      } else {
        EqUpToNullReflexive(a[key]);
      }
    }
  }

  lemma {:induction false} MergedWithItself(f: Fields)
    ensures Merged(f, f) == f
    decreases Object(f)
  {
    forall key | BothObjects(f, f, key)
      ensures Object(Merged(f[key].fields, f[key].fields)) == f[key]
    {
      assert f[key] == Object(f[key].fields);
      MergedWithItself(f[key].fields);
    }
  }

  /** The positions of `done` that lie below `key`, relative to it. */
  function Below(done: set<Path>, key: string): (below: set<Path>)
    ensures forall rest :: rest in below <==> rest != [] && [key] + rest in done
  {
    var below := set path | path in done && |path| > 1 && path[0] == key :: path[1..];
    forall rest | rest != [] && [key] + rest in done
      ensures rest in below
    {
      assert ([key] + rest)[1..] == rest;
    }
    forall rest | rest in below
      ensures rest != [] && [key] + rest in done
    {
      var path :| path in done && |path| > 1 && path[0] == key && path[1..] == rest;
      assert path == [key] + rest;
    }
    below
  }

  /** `before` with the changes at the positions in `done` applied. */
  function MergedAt(b: Fields, a: Fields, done: set<Path>): Fields
    decreases Object(b)
  {
    map key | key in b.Keys + (set k | k in a.Keys && [k] in done) ::
      if [key] in done then Get(a, key)
      else if BothObjects(b, a, key) then
        assert b[key] == Object(b[key].fields);
        Object(MergedAt(b[key].fields, a[key].fields, Below(done, key)))
      else b[key]
  }

  lemma {:induction false} MergedAtNothing(b: Fields, a: Fields)
    ensures MergedAt(b, a, {}) == b
    decreases Object(b)
  {
    forall key | BothObjects(b, a, key)
      ensures Object(MergedAt(b[key].fields, a[key].fields, Below({}, key))) == b[key]
    {
      assert b[key] == Object(b[key].fields) && Below({}, key) == {};
      MergedAtNothing(b[key].fields, a[key].fields);
    }
  }

  lemma ObjectsAreNoLeaf(b: Fields, a: Fields, key: string)
    requires BothObjects(b, a, key)
    ensures !IsChange(b, a, [key])
  {
    assert [key][1..] == [];
    assert Change(b[key].fields, a[key].fields, []) == None;
  }

  lemma ChangesBelow(b: Fields, a: Fields, done: set<Path>, key: string)
    requires forall path :: path in done <==> IsChange(b, a, path)
    requires BothObjects(b, a, key)
    ensures [key] !in done
    ensures forall rest :: rest in Below(done, key) <==>
              b[key] != a[key] && IsChange(b[key].fields, a[key].fields, rest)
  {
    ObjectsAreNoLeaf(b, a, key);
    forall rest
      ensures rest in Below(done, key) <==> b[key] != a[key] && IsChange(b[key].fields, a[key].fields, rest)
    {
      assert ([key] + rest)[1..] == rest;
    }
  }

  lemma {:induction false} MergedAtEverything(b: Fields, a: Fields, done: set<Path>)
    requires forall path :: path in done <==> IsChange(b, a, path)
    ensures MergedAt(b, a, done) == Merged(b, a)
    decreases Object(b)
  {
    forall key | BothObjects(b, a, key)
      ensures [key] !in done
      ensures MergedAt(b[key].fields, a[key].fields, Below(done, key)) == Merged(b[key].fields, a[key].fields)
    {
      assert b[key] == Object(b[key].fields) && a[key] == Object(a[key].fields);
      ChangesBelow(b, a, done, key);
      if b[key] == a[key] {
        assert Below(done, key) == {};
        MergedAtNothing(b[key].fields, a[key].fields);
        MergedWithItself(b[key].fields);
      } else {
        MergedAtEverything(b[key].fields, a[key].fields, Below(done, key));
      }
    }
    forall key | !BothObjects(b, a, key)
      ensures [key] in done <==> (key in a && !(key in b && b[key] == a[key])) || (key in b && key !in a)
    {
      assert [key] in done <==> IsChange(b, a, [key]);
    }
    assert MergedAt(b, a, done).Keys == Merged(b, a).Keys;
  }

  lemma BelowAfter(done: set<Path>, path: Path, key: string)
    requires path != []
    ensures Below(done + {path}, key) ==
            if |path| > 1 && path[0] == key then Below(done, key) + {path[1..]} else Below(done, key)
  {
  }

  lemma SetPathAppliesLeaf(b: Fields, a: Fields, done: set<Path>, key: string)
    requires IsChange(b, a, [key])
    ensures SetPath(MergedAt(b, a, done), [key], Change(b, a, [key]).value) == MergedAt(b, a, done + {[key]})
  {
    var next := done + {[key]};
    if BothObjects(b, a, key) {
      ObjectsAreNoLeaf(b, a, key);
    }
    forall k
      ensures Below(next, k) == Below(done, k)
    {
      BelowAfter(done, [key], k);
    }
    assert MergedAt(b, a, next).Keys == MergedAt(b, a, done).Keys + {key};
  }

  /** Writing one more change, wherever it comes in the order. */
  lemma {:induction false} SetPathAppliesChange(b: Fields, a: Fields, done: set<Path>, path: Path)
    requires path != [] && IsChange(b, a, path)
    requires forall p :: p in done ==> IsChange(b, a, p)
    ensures SetPath(MergedAt(b, a, done), path, Change(b, a, path).value) == MergedAt(b, a, done + {path})
    decreases |path|
  {
    var key, next := path[0], done + {path};
    if |path| == 1 {
      assert path == [key];
      SetPathAppliesLeaf(b, a, done, key);
    } else {
      assert b[key] == Object(b[key].fields);
      ObjectsAreNoLeaf(b, a, key);
      forall k
        ensures Below(next, k) == if k == key then Below(done, key) + {path[1..]} else Below(done, k)
      {
        BelowAfter(done, path, k);
      }
      forall rest | rest in Below(done, key)
        ensures IsChange(b[key].fields, a[key].fields, rest)
      {
        assert ([key] + rest)[1..] == rest;
      }
      SetPathAppliesChange(b[key].fields, a[key].fields, Below(done, key), path[1..]);
      MergedAtOneKey(b, a, done, next, key);
    }
  }

  lemma MergedAtAgrees(b: Fields, a: Fields, done: set<Path>, next: set<Path>, k: string)
    requires [k] in next <==> [k] in done
    requires Below(next, k) == Below(done, k)
    ensures k in MergedAt(b, a, next) <==> k in MergedAt(b, a, done)
    ensures k in MergedAt(b, a, done) ==> MergedAt(b, a, next)[k] == MergedAt(b, a, done)[k]
  {
  }

  lemma MergedAtNested(b: Fields, a: Fields, done: set<Path>, key: string)
    requires BothObjects(b, a, key) && [key] !in done
    ensures key in MergedAt(b, a, done)
    ensures MergedAt(b, a, done)[key] == Object(MergedAt(b[key].fields, a[key].fields, Below(done, key)))
  {
  }

  lemma MergedAtOneKey(b: Fields, a: Fields, done: set<Path>, next: set<Path>, key: string)
    requires BothObjects(b, a, key) && [key] !in next
    requires forall k :: [k] in next <==> [k] in done
    requires forall k :: k != key ==> Below(next, k) == Below(done, k)
    ensures key in MergedAt(b, a, done)
    ensures MergedAt(b, a, done)[key] == Object(MergedAt(b[key].fields, a[key].fields, Below(done, key)))
    ensures MergedAt(b, a, next) ==
            MergedAt(b, a, done)[key := Object(MergedAt(b[key].fields, a[key].fields, Below(next, key)))]
  {
    MergedAtNested(b, a, done, key);
    MergedAtNested(b, a, next, key);
    forall k | k != key
      ensures k in MergedAt(b, a, next) <==> k in MergedAt(b, a, done)
      ensures k in MergedAt(b, a, done) ==> MergedAt(b, a, next)[k] == MergedAt(b, a, done)[k]
    {
      MergedAtAgrees(b, a, done, next, k);
    }
    OneUpdate(MergedAt(b, a, done), MergedAt(b, a, next), key);
  }

  lemma OneUpdate(x: Fields, y: Fields, key: string)
    requires key in x && key in y
    requires forall k :: k != key ==> (k in y <==> k in x)
    requires forall k :: k != key && k in x ==> y[k] == x[k]
    ensures y == x[key := y[key]]
  {
  }

  ghost function Spelled(order: seq<string>): set<Path> {
    set i | 0 <= i < |order| :: Split(order[i])
  }

  lemma SpelledLast(order: seq<string>)
    requires order != []
    ensures Spelled(order) == Spelled(order[..|order| - 1]) + {Split(order[|order| - 1])}
  {
  }

  lemma {:induction false} PatchAppliesChanges(b: Fields, a: Fields, changed: Fields, order: seq<string>)
    requires forall i :: 0 <= i < |order| ==> order[i] in changed
    requires forall key :: key in changed ==> Change(b, a, Split(key)) == Some(changed[key])
    ensures Patch(b, order, changed) == MergedAt(b, a, Spelled(order))
  {
    if order == [] {
      MergedAtNothing(b, a);
      assert Spelled(order) == {};
    } else {
      var rest, last := order[..|order| - 1], order[|order| - 1];
      PatchAppliesChanges(b, a, changed, rest);
      SetPathAppliesChange(b, a, Spelled(rest), Split(last));
      SpelledLast(order);
    }
  }

  /** Diff and patch undo each other: laid over `before` in any order, the diff
      gives `after`, save that what `after` dropped is null rather than gone. */
  lemma PatchOfDiff(b: Fields, a: Fields, changed: Fields, order: seq<string>)
    requires IsDiff(b, a, changed) && PlainChanges(b, a) && IsOrder(order, changed.Keys)
    ensures Patch(b, order, changed) == Merged(b, a)
    ensures EqUpToNull(Object(Patch(b, order, changed)), Object(a))
  {
    forall key | key in changed
      ensures Change(b, a, Split(key)) == Some(changed[key])
    {
      DiffKeyIsChange(b, a, changed, key);
    }
    PatchAppliesChanges(b, a, changed, order);
    forall path
      ensures path in Spelled(order) <==> IsChange(b, a, path)
    {
      if IsChange(b, a, path) {
        SplitUndoesJoin(path);
        assert Join(path) in changed && Join(path) in order;
      }
    }
    MergedAtEverything(b, a, Spelled(order));
    MergedIsAfter(b, a);
  }

  /** No key of the old tree is gone from the new one where both are objects. */
  predicate NothingDropped(b: Fields, a: Fields)
    decreases Object(b)
  {
    forall key :: key in b ==>
      && key in a
      && (BothObjects(b, a, key) ==>
            assert b[key] == Object(b[key].fields);
            NothingDropped(b[key].fields, a[key].fields))
  }

  lemma {:induction false} MergedIsExact(b: Fields, a: Fields)
    ensures Merged(b, a) == a <==> NothingDropped(b, a)
    decreases Object(b)
  {
    forall key | BothObjects(b, a, key)
      ensures Merged(b[key].fields, a[key].fields) == a[key].fields <==> NothingDropped(b[key].fields, a[key].fields)
      ensures a[key] == Object(a[key].fields)
    {
      assert b[key] == Object(b[key].fields);
      MergedIsExact(b[key].fields, a[key].fields);
    }
    if NothingDropped(b, a) {
      assert Merged(b, a).Keys == a.Keys;
    } else if Merged(b, a) == a {
      forall key | key in b
        ensures key in a && (BothObjects(b, a, key) ==> NothingDropped(b[key].fields, a[key].fields))
      {
        assert key in Merged(b, a);
      }
    }
  }

  /** Null is not absent to a raw outbound patch, where it deletes: patching gives back
      exactly the new tree if and only if no key was dropped. */
  lemma PatchIsExactIffNothingDropped(b: Fields, a: Fields, changed: Fields, order: seq<string>)
    requires IsDiff(b, a, changed) && PlainChanges(b, a) && IsOrder(order, changed.Keys)
    ensures Patch(b, order, changed) == a <==> NothingDropped(b, a)
  {
    PatchOfDiff(b, a, changed, order);
    MergedIsExact(b, a);
  }

  // ------------------------------------------------- reading one field

  /** What a position holds, if the tree reaches it. */
  function Follow(j: Json, path: Path): Option<Json>
    decreases |path|
  {
    if path == [] then Some(j)
    else if j.Object? && path[0] in j.fields then Follow(j.fields[path[0]], path[1..])
    else None
  }

  /** The loop of `field_value` over the parts of an override key. */
  method FieldValue(draft: Json, key: string) returns (value: Option<Json>)
    ensures value == Follow(draft, Split(key))
  {
    var current, parts := draft, Split(key);
    for k := 0 to |parts|
      invariant Follow(current, parts[k..]) == Follow(draft, parts)
    {
      assert parts[k..][1..] == parts[k + 1..];
      if !current.Object? || parts[k] !in current.fields {
        return None;
      }
      current := current.fields[parts[k]];
    }
    value := Some(current);
  }

  /** A written field reads back, and no field beside it changes. */
  lemma {:induction false} SetFieldReadsBack(f: Fields, path: Path, value: Json, other: Path)
    requires path != []
    ensures Follow(Object(SetPath(f, path, value)), path) == Some(value)
    ensures other != [] && !(path <= other) && !(other <= path) && Follow(Object(f), other).Some? ==>
              Follow(Object(SetPath(f, path, value)), other) == Follow(Object(f), other)
    decreases |path|
  {
    if |path| > 1 {
      var nested := if path[0] in f && f[path[0]].Object? then f[path[0]].fields else map[];
      SetFieldReadsBack(nested, path[1..], value, if other == [] then [] else other[1..]);
      if other != [] && other[0] == path[0] {
        assert path == [path[0]] + path[1..] && other == [other[0]] + other[1..];
        assert !(path[1..] <= other[1..]) ==> !(path <= other);
        assert path[1..] <= other[1..] ==> path <= other;
        assert other[1..] <= path[1..] ==> other <= path;
      }
    } else if other != [] && other[0] == path[0] {
      assert path <= other;
    }
  }

  /** The diff records what `field_value` reads in `after`: null where it reads nothing. */
  lemma {:induction false} ChangeReadsAfter(b: Fields, a: Fields, path: Path)
    requires IsChange(b, a, path)
    ensures var now := Follow(Object(a), path);
            Change(b, a, path).value == if now.Some? then now.value else Null
    decreases |path|
  {
    var key := path[0];
    if BothObjects(b, a, key) {
      ObjectsAreNoLeaf(b, a, key);
      assert a[key] == Object(a[key].fields);
      ChangeReadsAfter(b[key].fields, a[key].fields, path[1..]);
    }
  }

  // ------------------------------------------------ exactly when it fails

  function FirstDotted(path: Path): (at: nat)
    requires !AllPlain(path)
    ensures at < |path| && !IsPlain(path[at]) && AllPlain(path[..at])
  {
    if !IsPlain(path[0]) then 0
    else
      var at := 1 + FirstDotted(path[1..]);
      assert path[..at] == [path[0]] + path[1..][..at - 1];
      at
  }

  /** The objects a position passes through, down to the one holding its last key. */
  predicate Leads(f: Fields, path: Path)
    decreases |path|
  {
    path != [] && (|path| > 1 ==> path[0] in f && f[path[0]].Object? && Leads(f[path[0]].fields, path[1..]))
  }

  function Lookup(f: Fields, path: Path): Json
    requires Leads(f, path)
    decreases |path|
  {
    if |path| == 1 then Get(f, path[0]) else Lookup(f[path[0]].fields, path[1..])
  }

  /** No dotted write reaches a key that itself contains a dot, unless it replaces
      an object on the way there. */
  lemma {:induction false} DottedKeyUntouched(f: Fields, loc: Path, write: Path, value: Json)
    requires Leads(f, loc) && write != [] && AllPlain(write) && !IsPlain(loc[|loc| - 1])
    requires !(write <= loc)
    ensures Leads(SetPath(f, write, value), loc)
    ensures Lookup(SetPath(f, write, value), loc) == Lookup(f, loc)
    decreases |loc|
  {
    if |loc| > 1 && write[0] == loc[0] {
      assert write == [write[0]] + write[1..] && loc == [loc[0]] + loc[1..];
      if |write| > 1 {
        assert write[1..] <= loc[1..] ==> write <= loc;
        DottedKeyUntouched(f[loc[0]].fields, loc[1..], write[1..], value);
      }
    }
  }

  lemma {:induction false} PatchLeavesDottedKey(f: Fields, loc: Path, order: seq<string>, changed: Fields)
    requires forall i :: 0 <= i < |order| ==> order[i] in changed && !(Split(order[i]) <= loc)
    requires Leads(f, loc) && !IsPlain(loc[|loc| - 1])
    ensures Leads(Patch(f, order, changed), loc) && Lookup(Patch(f, order, changed), loc) == Lookup(f, loc)
  {
    if order != [] {
      var rest, last := order[..|order| - 1], order[|order| - 1];
      PatchLeavesDottedKey(f, loc, rest, changed);
      SplitIsPlain(last);
      DottedKeyUntouched(Patch(f, rest, changed), loc, Split(last), changed[last]);
    }
  }

  lemma {:induction false} EqualTreesAgree(x: Fields, y: Fields, loc: Path)
    requires EqUpToNull(Object(x), Object(y)) && Leads(x, loc) && Leads(y, loc)
    ensures EqUpToNull(Lookup(x, loc), Lookup(y, loc))
    decreases |loc|
  {
    if |loc| > 1 {
      assert BothObjects(x, y, loc[0]);
      assert x[loc[0]] == Object(x[loc[0]].fields) && y[loc[0]] == Object(y[loc[0]].fields);
      EqualTreesAgree(x[loc[0]].fields, y[loc[0]].fields, loc[1..]);
    } else if loc[0] in x.Keys + y.Keys && !BothObjects(x, y, loc[0]) {
      EqUpToNullReflexive(Get(x, loc[0]));
    }
  }

  /** Down to its last key, a change passes only through objects of both trees. */
  lemma {:induction false} ChangeLeads(b: Fields, a: Fields, path: Path, n: nat)
    requires IsChange(b, a, path) && 0 < n <= |path|
    ensures Leads(b, path[..n]) && Leads(a, path[..n])
    ensures n < |path| ==> !IsChange(b, a, path[..n])
    decreases n
  {
    if n > 1 {
      ChangeLeads(b[path[0]].fields, a[path[0]].fields, path[1..], n - 1);
      assert path[..n][1..] == path[1..][..n - 1];
    } else if n < |path| {
      assert path[..1] == [path[0]];
      ObjectsAreNoLeaf(b, a, path[0]);
    }
  }

  /** Where a change meets its first dotted key. */
  function DottedAt(path: Path): Path
    requires !AllPlain(path)
  {
    path[..FirstDotted(path) + 1]
  }

  /** The two trees really differ there, beyond null against absent. */
  ghost predicate Visible(b: Fields, a: Fields, path: Path)
    requires IsChange(b, a, path) && !AllPlain(path)
  {
    ChangeLeads(b, a, path, FirstDotted(path) + 1);
    !EqUpToNull(Lookup(b, DottedAt(path)), Lookup(a, DottedAt(path)))
  }

  /** A change under a dotted key is lost: the outermost such key keeps its old value. */
  lemma {:induction false} DottedChangeIsLost(b: Fields, a: Fields, changed: Fields, order: seq<string>, path: Path)
    requires IsDiff(b, a, changed) && IsOrder(order, changed.Keys)
    requires IsChange(b, a, path) && !AllPlain(path)
    requires forall p :: IsChange(b, a, p) && !AllPlain(p) ==> Visible(b, a, p)
    ensures !EqUpToNull(Object(Patch(b, order, changed)), Object(a))
    decreases FirstDotted(path)
  {
    if other :| IsChange(b, a, other) && !AllPlain(other) && FirstDotted(other) < FirstDotted(path) {
      DottedChangeIsLost(b, a, changed, order, other);
    } else {
      var loc := DottedAt(path);
      ChangeLeads(b, a, path, |loc|);
      forall i | 0 <= i < |order|
        ensures !(Split(order[i]) <= loc)
      {
        WritesMissDottedKey(b, a, changed, order[i], path);
      }
      PatchLeavesDottedKey(b, loc, order, changed);
      assert Visible(b, a, path);
      if EqUpToNull(Object(Patch(b, order, changed)), Object(a)) {
        EqualTreesAgree(Patch(b, order, changed), a, loc);
      }
    }
  }

  /** No key of the diff splits into a position at or above the outermost dotted key. */
  lemma WritesMissDottedKey(b: Fields, a: Fields, changed: Fields, key: string, path: Path)
    requires IsDiff(b, a, changed) && key in changed && IsChange(b, a, path) && !AllPlain(path)
    requires forall p :: IsChange(b, a, p) && !AllPlain(p) ==> FirstDotted(p) >= FirstDotted(path)
    ensures !(Split(key) <= DottedAt(path))
  {
    var loc, at, write := DottedAt(path), FirstDotted(path), Split(key);
    var q :| q != [] && key == Join(q) && Change(b, a, q) == Some(changed[key]);
    assert IsChange(b, a, q) && !IsPlain(loc[at]);
    if !AllPlain(q) {
      SplitLengthens(q);
    } else {
      SplitUndoesJoin(q);
      if write <= loc && |write| <= at {
        assert path[..|write|] == write;
        ChangeLeads(b, a, path, |write|);
      }
    }
  }

  /** The exact condition. Unless a change under a dotted key is only null against
      absent, patching restores `after` if and only if every key on the way to a
      change is free of dots. */
  lemma PatchRestoresIffPlain(b: Fields, a: Fields, changed: Fields, order: seq<string>)
    requires IsDiff(b, a, changed) && IsOrder(order, changed.Keys)
    requires forall p :: IsChange(b, a, p) && !AllPlain(p) ==> Visible(b, a, p)
    ensures EqUpToNull(Object(Patch(b, order, changed)), Object(a)) <==> PlainChanges(b, a)
  {
    if PlainChanges(b, a) {
      PatchOfDiff(b, a, changed, order);
    } else {
      var path :| IsChange(b, a, path) && !AllPlain(path);
      DottedChangeIsLost(b, a, changed, order, path);
    }
  }

  /** A tree none of whose fields is null. */
  predicate NullFree(j: Json) {
    match j
    case Null => false
    case Object(fields) => forall key :: key in fields ==> NullFree(fields[key])
    case _ => true
  }

  /** A tree with no null at or below a dotted key; a draft's own fields, whose keys
      are plain, may well be null. */
  predicate NoDottedNull(j: Json) {
    j.Object? ==>
      forall key :: key in j.fields ==> if IsPlain(key) then NoDottedNull(j.fields[key]) else NullFree(j.fields[key])
  }

  lemma {:induction false} NullFreeEquality(x: Json, y: Json)
    requires NullFree(x) && NullFree(y) && EqUpToNull(x, y)
    ensures x == y
    decreases x
  {
    if x.Object? && y.Object? {
      forall key | key in x.fields.Keys + y.fields.Keys
        ensures key in x.fields && key in y.fields && x.fields[key] == y.fields[key]
      {
        if BothObjects(x.fields, y.fields, key) {
          NullFreeEquality(x.fields[key], y.fields[key]);
        }
      }
    }
  }

  lemma {:induction false} ChangeShows(b: Fields, a: Fields, path: Path, n: nat)
    requires NoDottedNull(Object(b)) && NoDottedNull(Object(a))
    requires IsChange(b, a, path) && 0 < n <= |path| && AllPlain(path[..n - 1]) && !IsPlain(path[n - 1])
    ensures Leads(b, path[..n]) && Leads(a, path[..n])
    ensures !EqUpToNull(Lookup(b, path[..n]), Lookup(a, path[..n]))
    decreases n
  {
    ChangeLeads(b, a, path, n);
    var key := path[0];
    if n > 1 {
      assert b[key] == Object(b[key].fields) && a[key] == Object(a[key].fields);
      assert path[1..][..n - 2] == path[..n - 1][1..] && IsPlain(path[..n - 1][0]);
      ChangeShows(b[key].fields, a[key].fields, path[1..], n - 1);
      assert path[..n][1..] == path[1..][..n - 1];
    } else if EqUpToNull(Get(b, key), Get(a, key)) && key in b && key in a {
      NullFreeEquality(b[key], a[key]);
    }
  }

  /** Where no dotted key holds a null, patching restores `after` if and only if every
      key on the way to a change is free of dots. */
  lemma PatchRestoresIffNoDots(b: Fields, a: Fields, changed: Fields, order: seq<string>)
    requires IsDiff(b, a, changed) && IsOrder(order, changed.Keys)
    requires NoDottedNull(Object(b)) && NoDottedNull(Object(a))
    ensures EqUpToNull(Object(Patch(b, order, changed)), Object(a)) <==> PlainChanges(b, a)
  {
    forall p | IsChange(b, a, p) && !AllPlain(p)
      ensures Visible(b, a, p)
    {
      ChangeShows(b, a, p, FirstDotted(p) + 1);
    }
    PatchRestoresIffPlain(b, a, changed, order);
  }

  const PATCH := "outbound_patch"
  const DOTTED := PATCH + "." + "a.b"

  /** A concrete loss, whatever the other fields: the raw outbound patch of a draft gains
      the key `a.b`, and patching puts the value below `a` instead. */
  lemma DottedKeyExample(rest: Fields)
    ensures var b, a := rest[PATCH := Object(map[])], rest[PATCH := Object(map["a.b" := Bool(true)])];
            var changed: Fields := map[DOTTED := Bool(true)];
            && IsDiff(b, a, changed)
            && Patch(b, [DOTTED], changed) == rest[PATCH := Object(map["a" := Object(map["b" := Bool(true)])])]
            && !EqUpToNull(Object(Patch(b, [DOTTED], changed)), Object(a))
  {
    var b, a := rest[PATCH := Object(map[])], rest[PATCH := Object(map["a.b" := Bool(true)])];
    var changed: Fields := map[DOTTED := Bool(true)];
    DottedKeyDiff(rest, b, a);
    DottedKeyPatch(rest, b);
    hide Split, SetPath, Patch, IsDiff;
    var inner: Fields := map["a" := Object(map["b" := Bool(true)])];
    var patched := Patch(b, [DOTTED], changed);
    assert BothObjects(patched, a, PATCH) && patched[PATCH] == Object(inner);
    assert "a" in inner && !EqUpToNull(patched[PATCH], a[PATCH]);
  }

  lemma DottedKeySplit()
    ensures Split(DOTTED) == [PATCH, "a", "b"]
  {
    hide Split;
    assert IsPlain(PATCH) && IsPlain("a") && IsPlain("b");
    SplitHead(PATCH, "a.b");
    SplitHead("a", "b");
    SplitHead("b", "");
    assert "a" + "." + "b" == "a.b";
    assert [PATCH] + (["a"] + ["b"]) == [PATCH, "a", "b"];
  }

  lemma DottedKeyPatch(rest: Fields, b: Fields)
    requires b == rest[PATCH := Object(map[])]
    ensures Patch(b, [DOTTED], map[DOTTED := Bool(true)]) ==
        rest[PATCH := Object(map["a" := Object(map["b" := Bool(true)])])]
  {
    DottedKeySplit();
    hide Split;
    var inner: Fields := map["a" := Object(map["b" := Bool(true)])];
    assert ["a", "b"][1..] == ["b"] && [PATCH, "a", "b"][1..] == ["a", "b"];
    assert SetPath(map[], ["a", "b"], Bool(true)) == inner;
    assert SetPath(b, [PATCH, "a", "b"], Bool(true)) == b[PATCH := Object(inner)] == rest[PATCH := Object(inner)];
    assert [DOTTED][..0] == [];
  }

  const DROPPED := PATCH + "." + "x"

  /** A dropped key, whatever the other fields: taking `x` out of a raw outbound patch
      leaves a null there, which deletes. */
  lemma DroppedKeyExample(rest: Fields)
    ensures var b, a := rest[PATCH := Object(map["x" := Bool(true)])], rest[PATCH := Object(map[])];
            var changed: Fields := map[DROPPED := Null];
            && IsDiff(b, a, changed) && !NothingDropped(b, a)
            && Patch(b, [DROPPED], changed) == rest[PATCH := Object(map["x" := Null])] != a
  {
    var inner: Fields := map["x" := Bool(true)];
    var b, a := rest[PATCH := Object(inner)], rest[PATCH := Object(map[])];
    DroppedKeyDiff(rest, b, a);
    DroppedKeyPatch(rest, b);
    hide Split, SetPath, Patch, IsDiff;
    var nulled: Fields := map["x" := Null];
    var patched := rest[PATCH := Object(nulled)];
    assert BothObjects(b, a, PATCH) && "x" in inner && !NothingDropped(inner, map[]);
    assert patched[PATCH].fields == nulled && "x" in nulled && "x" !in a[PATCH].fields;
  }

  lemma DroppedKeySplit()
    ensures Split(DROPPED) == [PATCH, "x"]
  {
    hide Split;
    assert IsPlain(PATCH) && IsPlain("x");
    SplitHead(PATCH, "x");
    SplitHead("x", "");
    assert [PATCH] + ["x"] == [PATCH, "x"];
  }

  lemma DroppedKeyPatch(rest: Fields, b: Fields)
    requires b == rest[PATCH := Object(map["x" := Bool(true)])]
    ensures Patch(b, [DROPPED], map[DROPPED := Null]) == rest[PATCH := Object(map["x" := Null])]
  {
    DroppedKeySplit();
    hide Split;
    var inner: Fields := map["x" := Bool(true)];
    var nulled: Fields := map["x" := Null];
    assert [PATCH, "x"][1..] == ["x"];
    assert SetPath(inner, ["x"], Null) == nulled;
    assert SetPath(b, [PATCH, "x"], Null) == b[PATCH := Object(nulled)] == rest[PATCH := Object(nulled)];
    assert [DROPPED][..0] == [];
  }

  lemma DroppedKeyDiff(rest: Fields, b: Fields, a: Fields)
    requires b == rest[PATCH := Object(map["x" := Bool(true)])]
    requires a == rest[PATCH := Object(map[])]
    ensures IsDiff(b, a, map[DROPPED := Null])
  {
    var only := [PATCH, "x"];
    assert only[1..] == ["x"];
    assert Join(only) == PATCH + "." + Join(["x"]) == DROPPED;
    assert Change(map["x" := Bool(true)], map[], ["x"]) == Some(Null);
    assert Change(b, a, only) == Some(Null);
    forall path | path != [] && IsChange(b, a, path)
      ensures path == only
    {
      assert path[0] == PATCH;
      assert path == [path[0]] + path[1..];
      var inside: Fields := map["x" := Bool(true)];
      assert IsChange(inside, map[], path[1..]);
      assert path[1..] == [path[1]];
    }
  }

  lemma DottedKeyDiff(rest: Fields, b: Fields, a: Fields)
    requires b == rest[PATCH := Object(map[])]
    requires a == rest[PATCH := Object(map["a.b" := Bool(true)])]
    ensures IsDiff(b, a, map[DOTTED := Bool(true)])
  {
    var only := [PATCH, "a.b"];
    assert only[1..] == ["a.b"];
    assert Join(only) == PATCH + "." + Join(["a.b"]) == DOTTED;
    assert Change(map[], map["a.b" := Bool(true)], ["a.b"]) == Some(Bool(true));
    assert Change(b, a, only) == Some(Bool(true));
    forall path | path != [] && IsChange(b, a, path)
      ensures path == only
    {
      assert path[0] == PATCH;
      assert path == [path[0]] + path[1..];
      var inside: Fields := map["a.b" := Bool(true)];
      assert IsChange(map[], inside, path[1..]);
      assert path[1..] == [path[1]];
    }
  }
}
