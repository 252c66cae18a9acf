/** Layered run policy: the shipped tree, overridden by a file, overridden by the command line. */
module RunPolicy {
  import opened Common
  import opened Text

  /** A policy value that is no object; its content plays no part here. */
  datatype Atom = Atom(text: string)

  datatype Tree = Leaf(value: Atom) | Node(children: map<string, Tree>)

  /** A dotted path, split at its dots. */
  type Path = seq<string>

  datatype Layer = Shipped | File | Cli

  datatype PolicyError = ShippedInvalid | NotDeclared | VersionOverridden | PolicyInvalid

  // ---------------------------------------------------------------- reading and writing one path

  function Get(t: Tree, p: Path): Option<Tree> {
    if p == [] then Some(t)
    else
      match t
      case Leaf(_) => None
      case Node(children) => if p[0] in children then Get(children[p[0]], p[1..]) else None
  }

  function LeafAt(t: Tree, p: Path): Option<Atom> {
    match Get(t, p)
    case Some(Leaf(v)) => Some(v)
    case _ => None
  }

  /** Writes a declared path; a path that is not declared, or leads through a leaf, is refused. */
  function SetAt(t: Tree, p: Path, v: Atom): Option<Tree>
    requires p != []
  {
    match t
    case Leaf(_) => None
    case Node(children) =>
      if p[0] !in children then None
      else if |p| == 1 then Some(Node(children[p[0] := Leaf(v)]))
      else
        match SetAt(children[p[0]], p[1..], v)
        case None => None
        case Some(child) => Some(Node(children[p[0] := child]))
  }

  /** The paths of all leaves. */
  function Leaves(t: Tree): (ps: set<Path>)
    ensures forall p :: p in ps <==> LeafAt(t, p).Some?
  {
    match t
    case Leaf(_) =>
      assert forall p: Path :: LeafAt(t, p).Some? <==> p == [];
      {[]}
    case Node(children) =>
      var ps := set k, p | k in children && p in Leaves(children[k]) :: [k] + p;
      assert forall p :: p in ps <==> LeafAt(t, p).Some? by {
        forall p ensures p in ps <==> LeafAt(t, p).Some? {
          if LeafAt(t, p).Some? {
            assert p == [p[0]] + p[1..] && p[1..] in Leaves(children[p[0]]);
          }
          if p in ps {
            var k, q :| k in children && q in Leaves(children[k]) && p == [k] + q;
            assert p[0] == k && p[1..] == q;
          }
        }
      }
      ps
  }

  // ---------------------------------------------------------------- the lens laws

  lemma {:induction false} SetDeclared(t: Tree, p: Path, v: Atom)
    requires p != []
    ensures SetAt(t, p, v).Some? <==> Get(t, p).Some?
  {
    if t.Node? && p[0] in t.children && |p| > 1 { SetDeclared(t.children[p[0]], p[1..], v); }
  }

  /** Neither path is a prefix of the other. */
  predicate Apart(p: Path, q: Path) {
    !(p <= q) && !(q <= p)
  }

  lemma {:induction false} SetThenGet(t: Tree, p: Path, v: Atom)
    requires p != [] && SetAt(t, p, v).Some?
    ensures Get(SetAt(t, p, v).value, p) == Some(Leaf(v))
  {
    var child := t.children[p[0]];
    if |p| > 1 {
      SetThenGet(child, p[1..], v);
    } else {
      assert p[1..] == [];
    }
  }

  lemma {:induction false} SetElsewhere(t: Tree, p: Path, v: Atom, q: Path)
    requires p != [] && SetAt(t, p, v).Some? && Apart(p, q)
    ensures Get(SetAt(t, p, v).value, q) == Get(t, q)
  {
    if q[0] == p[0] {
      assert p == [p[0]] + p[1..] && q == [q[0]] + q[1..];
      assert Apart(p[1..], q[1..]);
      SetElsewhere(t.children[p[0]], p[1..], v, q[1..]);
    }
  }

  /** Above the path written, nodes stay nodes. */
  lemma {:induction false} SetAbove(t: Tree, p: Path, v: Atom, q: Path)
    requires p != [] && SetAt(t, p, v).Some? && q < p
    ensures Get(SetAt(t, p, v).value, q).Some? && Get(SetAt(t, p, v).value, q).value.Node?
    ensures Get(t, q).Some? && Get(t, q).value.Node?
  {
    if q != [] {
      assert p[0] == q[0] && q[1..] < p[1..];
      SetAbove(t.children[p[0]], p[1..], v, q[1..]);
    }
  }

  /** Below the path written there is nothing any more. */
  lemma {:induction false} GetBelow(t: Tree, p: Path, q: Path, v: Atom)
    requires Get(t, p) == Some(Leaf(v)) && p < q
    ensures Get(t, q) == None
  {
    if p != [] {
      assert q[0] == p[0] && p[1..] < q[1..];
      GetBelow(t.children[p[0]], p[1..], q[1..], v);
    }
  }

  datatype Kind = Absent | ALeaf | ANode

  function KindAt(t: Tree, p: Path): Kind {
    match Get(t, p)
    case None => Absent
    case Some(Leaf(_)) => ALeaf
    case Some(Node(_)) => ANode
  }

  ghost predicate SameShape(a: Tree, b: Tree) {
    forall q :: KindAt(a, q) == KindAt(b, q)
  }

  /** Writing a leaf path changes that leaf and nothing else: every other leaf and the shape stay as they were. */
  lemma SetLeaf(t: Tree, p: Path, v: Atom)
    requires p != [] && LeafAt(t, p).Some?
    ensures SetAt(t, p, v).Some?
    ensures var u := SetAt(t, p, v).value;
            && SameShape(t, u)
            && forall q :: LeafAt(u, q) == if q == p then Some(v) else LeafAt(t, q)
  {
    SetDeclared(t, p, v);
    var u := SetAt(t, p, v).value;
    forall q
      ensures KindAt(u, q) == KindAt(t, q)
      ensures LeafAt(u, q) == if q == p then Some(v) else LeafAt(t, q)
    {
      LeafCases(t, p, v, q);
    }
  }

  lemma LeafCases(t: Tree, p: Path, v: Atom, q: Path)
    requires p != [] && LeafAt(t, p).Some? && SetAt(t, p, v).Some?
    ensures var u := SetAt(t, p, v).value;
            KindAt(u, q) == KindAt(t, q) && LeafAt(u, q) == if q == p then Some(v) else LeafAt(t, q)
  {
    hide SetAt, Get;
    SetThenGet(t, p, v);
    if q != p {
      if Apart(p, q) {
        SetElsewhere(t, p, v, q);
      } else if q < p {
        SetAbove(t, p, v, q);
      } else {
        GetBelow(t, p, q, LeafAt(t, p).value);
        GetBelow(SetAt(t, p, v).value, p, q, v);
      }
    }
  }

  /** An object of the original has become a leaf. */
  ghost predicate Broken(t: Tree, original: Tree) {
    exists q :: KindAt(original, q) == ANode && KindAt(t, q) == ALeaf
  }

  lemma BrokenIsMisshapen(t: Tree, original: Tree)
    requires Broken(t, original)
    ensures !SameShape(t, original)
  {
  }

  /** No further override can mend a broken tree. */
  lemma BrokenStays(t: Tree, original: Tree, p: Path, v: Atom)
    requires p != [] && Broken(t, original) && SetAt(t, p, v).Some?
    ensures Broken(SetAt(t, p, v).value, original)
  {
    hide SetAt, Get;
    var u := SetAt(t, p, v).value;
    var q :| KindAt(original, q) == ANode && KindAt(t, q) == ALeaf;
    SetThenGet(t, p, v);
    if Apart(p, q) {
      SetElsewhere(t, p, v, q);
      assert KindAt(u, q) == ALeaf;
    } else if q < p {
      SetAbove(t, p, v, q);
    } else {
      AboveIsNode(original, p, q);
      assert KindAt(u, p) == ALeaf;
    }
  }

  lemma {:induction false} AboveIsNode(t: Tree, p: Path, q: Path)
    requires p <= q && KindAt(t, q) == ANode
    ensures KindAt(t, p) == ANode
  {
    if p != [] {
      assert q[0] == p[0] && p[1..] <= q[1..];
      AboveIsNode(t.children[p[0]], p[1..], q[1..]);
    }
  }

  /** An override either keeps the shape, because its path is a leaf, or breaks the tree for good. */
  lemma OverrideKeepsOrBreaks(t: Tree, original: Tree, p: Path, v: Atom)
    requires p != [] && SetAt(t, p, v).Some? && (SameShape(t, original) || Broken(t, original))
    ensures var u := SetAt(t, p, v).value;
            if SameShape(t, original) && LeafAt(original, p).Some? then SameShape(u, original)
            else Broken(u, original)
  {
    hide SetAt, Get;
    SetDeclared(t, p, v);
    SetThenGet(t, p, v);
    if SameShape(t, original) {
      assert KindAt(t, p) == KindAt(original, p);
      if LeafAt(original, p).Some? {
        SetLeaf(t, p, v);
      } else {
        assert KindAt(original, p) == ANode && KindAt(SetAt(t, p, v).value, p) == ALeaf;
      }
    } else {
      BrokenStays(t, original, p, v);
    }
  }

  // ---------------------------------------------------------------- layers

  /** A policy file: objects keep the order of their fields. */
  datatype FileTree = FileLeaf(value: Atom) | FileObject(fields: FileFields)

  datatype FileFields = NoFields | Field(name: string, tree: FileTree, rest: FileFields)

  datatype Item = Item(path: string, value: Atom)

  function PathOf(item: Item): (p: Path)
    ensures p != []
  {
    Split(item.path, '.')
  }

  /** The leaves of a file under their dotted paths, as they come; different fields can spell the same path. */
  function LeavesOf(fields: FileFields, prefix: string): seq<Item>
    decreases fields
  {
    match fields
    case NoFields => []
    case Field(name, tree, rest) => FieldLeaves(name, tree, prefix) + LeavesOf(rest, prefix)
  }

  /** The leaves of one field. */
  function FieldLeaves(name: string, tree: FileTree, prefix: string): seq<Item>
    decreases tree
  {
    var path := if prefix != "" then prefix + "." + name else name;
    match tree
    case FileLeaf(v) => [Item(path, v)]
    case FileObject(inner) => LeavesOf(inner, path)
  }

  /** Under these names, one inside the other, the file has this leaf. */
  predicate LeafUnder(fields: FileFields, names: seq<string>, v: Atom)
    decreases fields
  {
    match fields
    case NoFields => false
    case Field(name, tree, rest) => HasLeafHere(name, tree, names, v) || LeafUnder(rest, names, v)
  }

  predicate HasLeafHere(name: string, tree: FileTree, names: seq<string>, v: Atom)
    decreases tree
  {
    && names != [] && names[0] == name
    && match tree
       case FileLeaf(value) => |names| == 1 && value == v
       case FileObject(inner) => LeafUnder(inner, names[1..], v)
  }

  /** The names with dots between them; names in front that are empty leave no trace. */
  function Dotted(prefix: string, names: seq<string>): string
    decreases |names|
  {
    if names == [] then prefix
    else Dotted(if prefix != "" then prefix + "." + names[0] else names[0], names[1..])
  }

  /** Flattening a file gives exactly its leaves, each under the dotted names that lead to it. */
  lemma {:induction false} LeavesAre(fields: FileFields, prefix: string, x: Item)
    ensures x in LeavesOf(fields, prefix) <==> exists names :: LeafUnder(fields, names, x.value) && x.path == Dotted(prefix, names)
    decreases fields
  {
    match fields {
      case NoFields =>
      case Field(name, tree, rest) =>
        LeavesAre(rest, prefix, x);
        LeavesHere(name, tree, prefix, x);
    }
  }

  lemma {:induction false} LeavesHere(name: string, tree: FileTree, prefix: string, x: Item)
    ensures x in FieldLeaves(name, tree, prefix) <==>
              exists names :: HasLeafHere(name, tree, names, x.value) && x.path == Dotted(prefix, names)
    decreases tree
  {
    var path := if prefix != "" then prefix + "." + name else name;
    match tree {
      case FileLeaf(v) => LeafHere(name, v, prefix, x);
      case FileObject(inner) =>
        LeavesAre(inner, path, x);
        assert FieldLeaves(name, tree, prefix) == LeavesOf(inner, path);
        DottedInside(name, inner, prefix, path, x);
    }
  }

  lemma DottedInside(name: string, inner: FileFields, prefix: string, path: string, x: Item)
    requires path == if prefix != "" then prefix + "." + name else name
    ensures (exists names :: LeafUnder(inner, names, x.value) && x.path == Dotted(path, names))
            <==> exists names :: HasLeafHere(name, FileObject(inner), names, x.value) && x.path == Dotted(prefix, names)
  {
    hide LeafUnder;
    if names :| LeafUnder(inner, names, x.value) && x.path == Dotted(path, names) {
      var more := [name] + names;
      assert more[1..] == names;
      assert Dotted(prefix, more) == Dotted(path, names);
      assert HasLeafHere(name, FileObject(inner), more, x.value) && x.path == Dotted(prefix, more);
      assert exists ns :: HasLeafHere(name, FileObject(inner), ns, x.value) && x.path == Dotted(prefix, ns);
    }
    if names :| HasLeafHere(name, FileObject(inner), names, x.value) && x.path == Dotted(prefix, names) {
      assert Dotted(prefix, names) == Dotted(path, names[1..]);
      assert LeafUnder(inner, names[1..], x.value) && x.path == Dotted(path, names[1..]);
      assert exists ns :: LeafUnder(inner, ns, x.value) && x.path == Dotted(path, ns);
    }
  }

  lemma LeafHere(name: string, v: Atom, prefix: string, x: Item)
    ensures x in FieldLeaves(name, FileLeaf(v), prefix) <==>
              exists names :: HasLeafHere(name, FileLeaf(v), names, x.value) && x.path == Dotted(prefix, names)
  {
    var path := if prefix != "" then prefix + "." + name else name;
    assert [name][1..] == [];
    assert Dotted(prefix, [name]) == path;
    if x == Item(path, v) {
      assert HasLeafHere(name, FileLeaf(v), [name], x.value) && x.path == Dotted(prefix, [name]);
    }
    if names :| HasLeafHere(name, FileLeaf(v), names, x.value) && x.path == Dotted(prefix, names) {
      assert names == [name];
    }
  }

  /** The items with one path replaced in place, or with the item appended when its path is new. */
  function Put(items: seq<Item>, item: Item): (r: seq<Item>)
    ensures forall x :: x in r <==> x == item || (x in items && x.path != item.path)
  {
    if items == [] then [item]
    else if items[0].path == item.path then [item] + Without(items[1..], item.path)
    else [items[0]] + Put(items[1..], item)
  }

  function Without(items: seq<Item>, path: string): (r: seq<Item>)
    ensures forall x :: x in r <==> x in items && x.path != path
  {
    if items == [] then [] else (if items[0].path == path then [] else [items[0]]) + Without(items[1..], path)
  }

  /** A dictionary's items: a path stays where it came first and has the value that came last. */
  function Latest(items: seq<Item>): (r: seq<Item>)
    ensures forall x :: x in r <==> IsLast(items, x)
  {
    if items == [] then []
    else
      var init, last := items[..|items| - 1], items[|items| - 1];
      assert forall x :: IsLast(items, x) <==> x == last || (IsLast(init, x) && x.path != last.path) by {
        LastExtends(init, last);
        assert items == init + [last];
      }
      Put(Latest(init), last)
  }

  /** The item is the last of those with its path. */
  predicate IsLast(items: seq<Item>, x: Item) {
    exists i | 0 <= i < |items| :: items[i] == x && forall j | i < j < |items| :: items[j].path != x.path
  }

  lemma LastExtends(init: seq<Item>, last: Item)
    ensures forall x :: IsLast(init + [last], x) <==> x == last || (IsLast(init, x) && x.path != last.path)
  {
    var all := init + [last];
    forall x ensures IsLast(all, x) <==> x == last || (IsLast(init, x) && x.path != last.path) {
      if IsLast(all, x) && x != last {
        var i :| 0 <= i < |all| && all[i] == x && forall j | i < j < |all| :: all[j].path != x.path;
        assert init[i] == x && all[|init|] == last;
        assert forall j | i < j < |init| :: all[j] == init[j];
      }
      if IsLast(init, x) && x.path != last.path {
        var i :| 0 <= i < |init| && init[i] == x && forall j | i < j < |init| :: init[j].path != x.path;
        assert all[i] == x;
      }
      if x == last { assert all[|init|] == x; }
    }
  }

  /** The leaves of a file, as the flattened dictionary holds them. */
  function FlattenFile(fields: FileFields, prefix: string): (items: seq<Item>)
    ensures forall x :: x in items <==> IsLast(LeavesOf(fields, prefix), x)
  {
    Latest(LeavesOf(fields, prefix))
  }

  /** A field under an empty name takes the place of one of the same path before it: only the last version a file gives
      is compared. */
  lemma LastVersionCounts(v: Atom, w: Atom)
    ensures FlattenFile(Field("schemaVersion", FileLeaf(v),
                              Field("", FileObject(Field("schemaVersion", FileLeaf(w), NoFields)), NoFields)), "")
            == [Item("schemaVersion", w)]
  {
    var inner := Field("schemaVersion", FileLeaf(w), NoFields);
    assert LeavesOf(inner, "") == [Item("schemaVersion", w)];
    assert FieldLeaves("", FileObject(inner), "") == LeavesOf(inner, "");
    assert LeavesOf(Field("", FileObject(inner), NoFields), "") == [Item("schemaVersion", w)];
    assert FieldLeaves("schemaVersion", FileLeaf(v), "") == [Item("schemaVersion", v)];
    var items := [Item("schemaVersion", v), Item("schemaVersion", w)];
    assert items[..1][..0] == [] && items[..1] == [Item("schemaVersion", v)];
    assert Latest(items[..1]) == [Item("schemaVersion", v)];
  }

  predicate IsVersion(item: Item) {
    item.path == "schemaVersion" || item.path == "policyVersion"
  }

  lemma VersionIs(item: Item)
    ensures IsVersion(item) <==> item.path == "schemaVersion" || item.path == "policyVersion"
  {
  }

  /** The items a file may override: its version fields are only compared. */
  function Overriding(items: seq<Item>): (r: seq<Item>)
    ensures forall item :: item in r <==> item in items && !IsVersion(item)
  {
    if items == [] then []
    else
      var init, last := items[..|items| - 1], items[|items| - 1];
      assert items == init + [last];
      if IsVersion(last) then Overriding(init) else Overriding(init) + [last]
  }

  /** The last value these items give a path. */
  function LastFor(items: seq<Item>, p: Path): Option<Atom> {
    if items == [] then None
    else if PathOf(items[|items| - 1]) == p then Some(items[|items| - 1].value)
    else LastFor(items[..|items| - 1], p)
  }

  /** The command line's items; an option that was not given is passed over. */
  function Given(cli: seq<(string, Option<Atom>)>): seq<Item> {
    if cli == [] then []
    else
      var last := cli[|cli| - 1];
      var before := Given(cli[..|cli| - 1]);
      if last.1.Some? then before + [Item(last.0, last.1.value)] else before
  }

  datatype Resolved = Resolved(values: Tree, sources: map<Path, Layer>)

  /** The highest layer that sets a path, and the value it sets. */
  function LayerFor(file: seq<Item>, cli: seq<Item>, p: Path): Layer {
    if LastFor(cli, p).Some? then Cli else if LastFor(file, p).Some? then File else Shipped
  }

  function Effective(shipped: Tree, file: seq<Item>, cli: seq<Item>, p: Path): Option<Atom> {
    match LayerFor(file, cli, p)
    case Cli => LastFor(cli, p)
    case File => LastFor(file, p)
    case Shipped => LeafAt(shipped, p)
  }

  /** While the shape is intact, every leaf has the value and the source of the highest layer so far. */
  ghost predicate Layered(r: Resolved, shipped: Tree, file: seq<Item>, cli: seq<Item>) {
    && SameShape(r.values, shipped)
    && (forall p :: p in r.sources <==> LeafAt(shipped, p).Some?)
    && (forall p | LeafAt(shipped, p).Some? ::
          LeafAt(r.values, p) == Effective(shipped, file, cli, p) && r.sources[p] == LayerFor(file, cli, p))
  }

  ghost predicate LayeredOrBroken(r: Resolved, shipped: Tree, file: seq<Item>, cli: seq<Item>) {
    Layered(r, shipped, file, cli) || Broken(r.values, shipped)
  }

  lemma LastForExtends(items: seq<Item>, item: Item, p: Path)
    ensures LastFor(items + [item], p) == if PathOf(item) == p then Some(item.value) else LastFor(items, p)
  {
    assert (items + [item])[..|items|] == items;
  }

  /** One override by a file item, or, once the file is done, by a command-line item. */
  lemma OverrideLayers(r: Resolved, shipped: Tree, file: seq<Item>, cli: seq<Item>, item: Item, layer: Layer)
    requires LayeredOrBroken(r, shipped, file, cli) && SetAt(r.values, PathOf(item), item.value).Some?
    requires layer == Cli || (layer == File && cli == [])
    ensures var u := Resolved(SetAt(r.values, PathOf(item), item.value).value, r.sources[PathOf(item) := layer]);
            if layer == Cli then LayeredOrBroken(u, shipped, file, cli + [item])
            else LayeredOrBroken(u, shipped, file + [item], cli)
    ensures Layered(r, shipped, file, cli) && LeafAt(shipped, PathOf(item)).Some? ==>
              !Broken(SetAt(r.values, PathOf(item), item.value).value, shipped)
  {
    hide SetAt, Get, PathOf;
    var p := PathOf(item);
    OverrideKeepsOrBreaks(r.values, shipped, p, item.value);
    if Layered(r, shipped, file, cli) && LeafAt(shipped, p).Some? {
      assert KindAt(r.values, p) == KindAt(shipped, p);
      SetLeaf(r.values, p, item.value);
      forall q { LastForExtends(cli, item, q); }
      forall q { LastForExtends(file, item, q); }
      assert forall q :: LastFor([], q) == None;
      ShapeIsNotBroken(SetAt(r.values, p, item.value).value, shipped);
    }
  }

  lemma ShapeIsNotBroken(t: Tree, original: Tree)
    requires SameShape(t, original)
    ensures !Broken(t, original)
  {
    if Broken(t, original) { BrokenIsMisshapen(t, original); }
  }

  /** Every item's path is a leaf of the shipped policy. */
  ghost predicate AllLeafPaths(items: seq<Item>, shipped: Tree) {
    forall i | 0 <= i < |items| :: LeafAt(shipped, PathOf(items[i])).Some?
  }

  /** The version fields of a file, if it has any, are the shipped ones. */
  ghost predicate VersionsAgree(items: seq<Item>, shipped: Tree) {
    forall i | 0 <= i < |items| && IsVersion(items[i]) :: LeafAt(shipped, PathOf(items[i])) == Some(items[i].value)
  }

  /** The validator accepts only trees of the shipped shape. */
  ghost predicate ExactShape(valid: Tree -> bool, shipped: Tree) {
    forall t | valid(t) :: SameShape(t, shipped)
  }

  lemma {:induction false} SplitSingle(s: string)
    requires |Split(s, '.')| == 1
    ensures Split(s, '.')[0] == s
  {
    if s != [] {
      SplitSingle(s[1..]);
      assert [s[0]] + s[1..] == s;
    }
  }

  lemma VersionPath(item: Item)
    requires IsVersion(item)
    ensures PathOf(item) == [item.path]
  {
    hide Split;
    NoDots();
    SplitJoined("schemaVersion", "", '.');
    SplitJoined("policyVersion", "", '.');
  }

  lemma NoDots()
    ensures '.' !in "schemaVersion" && '.' !in "policyVersion"
  {
  }

  /** No overriding item can reach a version field. */
  lemma {:induction false} VersionsUntouched(items: seq<Item>, item: Item)
    requires IsVersion(item)
    ensures LastFor(Overriding(items), PathOf(item)) == None
  {
    if items != [] {
      var init, last := items[..|items| - 1], items[|items| - 1];
      VersionsUntouched(init, item);
      if !IsVersion(last) {
        VersionPath(item);
        if PathOf(last) == PathOf(item) { SplitSingle(last.path); }
        LastForExtends(Overriding(init), last, PathOf(item));
      }
    }
  }

  lemma AllLeafPathsExtend(items: seq<Item>, item: Item, shipped: Tree)
    ensures AllLeafPaths(items + [item], shipped) <==> AllLeafPaths(items, shipped) && LeafAt(shipped, PathOf(item)).Some?
  {
    hide LeafAt, PathOf;
    var all := items + [item];
    assert forall i | 0 <= i < |items| :: all[i] == items[i];
    assert all[|items|] == item;
  }

  /** While every path was a leaf path, the layers are intact; otherwise the tree is broken. */
  ghost predicate Progress(r: Resolved, shipped: Tree, file: seq<Item>, cli: seq<Item>) {
    if AllLeafPaths(file, shipped) && AllLeafPaths(cli, shipped) then Layered(r, shipped, file, cli)
    else Broken(r.values, shipped)
  }

  lemma ProgressStep(r: Resolved, shipped: Tree, file: seq<Item>, cli: seq<Item>, item: Item, layer: Layer)
    requires Progress(r, shipped, file, cli) && SetAt(r.values, PathOf(item), item.value).Some?
    requires layer == Cli || (layer == File && cli == [])
    ensures var u := Resolved(SetAt(r.values, PathOf(item), item.value).value, r.sources[PathOf(item) := layer]);
            if layer == Cli then Progress(u, shipped, file, cli + [item]) else Progress(u, shipped, file + [item], cli)
  {
    hide SetAt, Layered, AllLeafPaths, LeafAt, PathOf;
    AllLeafPathsExtend(file, item, shipped);
    AllLeafPathsExtend(cli, item, shipped);
    OverrideLayers(r, shipped, file, cli, item, layer);
    if Layered(r, shipped, file, cli) {
      LayeredShape(r, shipped, file, cli);
    }
    OverrideKeepsOrBreaks(r.values, shipped, PathOf(item), item.value);
  }

  lemma LayeredShape(r: Resolved, shipped: Tree, file: seq<Item>, cli: seq<Item>)
    requires Layered(r, shipped, file, cli)
    ensures SameShape(r.values, shipped)
  {
  }

  lemma StartsLayered(shipped: Tree)
    ensures Layered(Resolved(shipped, map p | p in Leaves(shipped) :: Shipped), shipped, [], [])
  {
  }

  /** The file's items in order; its version fields are compared, never set. */
  method ApplyFile(shipped: Tree, items: seq<Item>) returns (r: Result<Resolved, PolicyError>)
    requires forall item | IsVersion(item) :: LeafAt(shipped, PathOf(item)).Some?
    ensures r.Ok? ==> Progress(r.value, shipped, Overriding(items), [])
    ensures AllLeafPaths(Overriding(items), shipped) ==> (r.Ok? <==> VersionsAgree(items, shipped))
  {
    hide SetAt, LeafAt, Get, PathOf, Layered, IsVersion, Leaves, Progress, AllLeafPaths, VersionsAgree, Overriding;
    var values, sources := shipped, map p | p in Leaves(shipped) :: Shipped;
    StartsLayered(shipped);
    NothingYet(Resolved(values, sources), shipped);
    var i := 0;
    while i < |items|
      invariant 0 <= i <= |items|
      invariant Progress(Resolved(values, sources), shipped, Overriding(items[..i]), [])
      invariant AllLeafPaths(Overriding(items[..i]), shipped) ==> VersionsAgree(items[..i], shipped)
    {
      var item := items[i];
      ghost var done := items[..i];
      assert items[..i + 1] == done + [item];
      OverridingExtends(done, item);
      VersionsExtend(done, item, shipped);
      NotAllAgree(items, i, shipped);
      VersionIs(item);
      if item.path == "schemaVersion" || item.path == "policyVersion" {
        LeafOfVersion(Resolved(values, sources), shipped, done, item);
        if LeafAt(values, PathOf(item)) != Some(item.value) {
          if LeafAt(shipped, PathOf(item)) != Some(item.value) { VersionDisagrees(items, i, shipped); }
          return Err(VersionOverridden);
        }
      } else {
        var written := SetAt(values, PathOf(item), item.value);
        if written.None? {
          NotDeclaredLeaf(Resolved(values, sources), shipped, items, i);
          return Err(NotDeclared);
        }
        ProgressStep(Resolved(values, sources), shipped, Overriding(done), [], item, File);
        AllLeafPathsExtend(Overriding(done), item, shipped);
        values, sources := written.value, sources[PathOf(item) := File];
      }
      i := i + 1;
    }
    assert items[..i] == items;
    return Ok(Resolved(values, sources));
  }

  lemma NothingYet(r: Resolved, shipped: Tree)
    requires Layered(r, shipped, [], [])
    ensures Progress(r, shipped, Overriding([]), []) && VersionsAgree([], shipped)
  {
  }

  lemma OverridingExtends(items: seq<Item>, item: Item)
    ensures Overriding(items + [item]) == if IsVersion(item) then Overriding(items) else Overriding(items) + [item]
  {
    assert (items + [item])[..|items|] == items;
  }

  lemma VersionsExtend(items: seq<Item>, item: Item, shipped: Tree)
    ensures VersionsAgree(items + [item], shipped) <==>
              VersionsAgree(items, shipped) && (IsVersion(item) ==> LeafAt(shipped, PathOf(item)) == Some(item.value))
  {
    hide LeafAt, PathOf, IsVersion;
    var all := items + [item];
    assert forall i | 0 <= i < |items| :: all[i] == items[i];
    assert all[|items|] == item;
  }

  lemma VersionDisagrees(items: seq<Item>, i: nat, shipped: Tree)
    requires i < |items| && IsVersion(items[i]) && LeafAt(shipped, PathOf(items[i])) != Some(items[i].value)
    ensures !VersionsAgree(items, shipped)
  {
  }

  /** While the layers are intact a version field still reads as shipped. */
  lemma LeafOfVersion(r: Resolved, shipped: Tree, done: seq<Item>, item: Item)
    requires Progress(r, shipped, Overriding(done), []) && IsVersion(item) && LeafAt(shipped, PathOf(item)).Some?
    ensures AllLeafPaths(Overriding(done), shipped) ==> LeafAt(r.values, PathOf(item)) == LeafAt(shipped, PathOf(item))
  {
    hide LeafAt, PathOf;
    VersionsUntouched(done, item);
  }

  lemma {:induction false} OverridingPrefix(items: seq<Item>, n: nat, shipped: Tree)
    requires n <= |items| && AllLeafPaths(Overriding(items), shipped)
    ensures AllLeafPaths(Overriding(items[..n]), shipped)
  {
    if n < |items| {
      var init := items[..|items| - 1];
      if !IsVersion(items[|items| - 1]) { AllLeafPathsExtend(Overriding(init), items[|items| - 1], shipped); }
      OverridingPrefix(init, n, shipped);
      assert init[..n] == items[..n];
    } else {
      assert items[..n] == items;
    }
  }

  lemma NotAllAgree(items: seq<Item>, i: nat, shipped: Tree)
    requires i < |items|
    ensures AllLeafPaths(Overriding(items), shipped) ==> AllLeafPaths(Overriding(items[..i]), shipped)
  {
    if AllLeafPaths(Overriding(items), shipped) { OverridingPrefix(items, i, shipped); }
  }

  /** A refused override is not a leaf of the shipped policy, or an earlier one was not. */
  lemma NotDeclaredLeaf(r: Resolved, shipped: Tree, items: seq<Item>, i: nat)
    requires i < |items| && !IsVersion(items[i]) && Progress(r, shipped, Overriding(items[..i]), [])
    requires SetAt(r.values, PathOf(items[i]), items[i].value).None?
    ensures !AllLeafPaths(Overriding(items), shipped)
  {
    hide SetAt, PathOf;
    if AllLeafPaths(Overriding(items), shipped) {
      OverridingPrefix(items, i, shipped);
      OverridingPrefix(items, i + 1, shipped);
      assert items[..i + 1][..i] == items[..i];
      AllLeafPathsExtend(Overriding(items[..i]), items[i], shipped);
      RefusedNotLeaf(r.values, shipped, PathOf(items[i]), items[i].value);
    }
  }

  lemma RefusedNotLeaf(t: Tree, shipped: Tree, p: Path, v: Atom)
    requires p != [] && SetAt(t, p, v).None? && SameShape(t, shipped)
    ensures LeafAt(shipped, p).None?
  {
    SetDeclared(t, p, v);
    assert KindAt(t, p) == KindAt(shipped, p);
  }

  /** The command line's items, on top of the file. */
  method ApplyCli(shipped: Tree, start: Resolved, ghost file: seq<Item>, cli: seq<(string, Option<Atom>)>)
    returns (r: Result<Resolved, PolicyError>)
    requires Progress(start, shipped, file, [])
    ensures r.Ok? ==> Progress(r.value, shipped, file, Given(cli))
    ensures r.Err? ==> !(AllLeafPaths(file, shipped) && AllLeafPaths(Given(cli), shipped)) && r.error == NotDeclared
  {
    hide SetAt, LeafAt, Get, PathOf, Layered;
    var now := start;
    var i := 0;
    while i < |cli|
      invariant 0 <= i <= |cli|
      invariant Progress(now, shipped, file, Given(cli[..i]))
    {
      assert cli[..i + 1][..i] == cli[..i];
      if cli[i].1.Some? {
        var item := Item(cli[i].0, cli[i].1.value);
        var written := SetAt(now.values, PathOf(item), item.value);
        if written.None? {
          GivenRefused(now, shipped, file, cli, i);
          return Err(NotDeclared);
        }
        ProgressStep(now, shipped, file, Given(cli[..i]), item, Cli);
        now := Resolved(written.value, now.sources[PathOf(item) := Cli]);
      }
      i := i + 1;
    }
    assert cli[..i] == cli;
    return Ok(now);
  }

  lemma {:induction false} GivenPrefix(cli: seq<(string, Option<Atom>)>, n: nat, shipped: Tree)
    requires n <= |cli| && AllLeafPaths(Given(cli), shipped)
    ensures AllLeafPaths(Given(cli[..n]), shipped)
  {
    if n < |cli| {
      var init, last := cli[..|cli| - 1], cli[|cli| - 1];
      if last.1.Some? { AllLeafPathsExtend(Given(init), Item(last.0, last.1.value), shipped); }
      GivenPrefix(init, n, shipped);
      assert init[..n] == cli[..n];
    } else {
      assert cli[..n] == cli;
    }
  }

  lemma GivenRefused(r: Resolved, shipped: Tree, file: seq<Item>, cli: seq<(string, Option<Atom>)>, i: nat)
    requires i < |cli| && cli[i].1.Some? && Progress(r, shipped, file, Given(cli[..i]))
    requires SetAt(r.values, PathOf(Item(cli[i].0, cli[i].1.value)), cli[i].1.value).None?
    ensures !(AllLeafPaths(file, shipped) && AllLeafPaths(Given(cli), shipped))
  {
    hide SetAt, PathOf;
    if AllLeafPaths(file, shipped) && AllLeafPaths(Given(cli), shipped) {
      var item := Item(cli[i].0, cli[i].1.value);
      GivenPrefix(cli, i, shipped);
      GivenPrefix(cli, i + 1, shipped);
      assert cli[..i + 1][..i] == cli[..i];
      AllLeafPathsExtend(Given(cli[..i]), item, shipped);
      RefusedNotLeaf(r.values, shipped, PathOf(item), item.value);
    }
  }

  /** A resolved policy has, at every leaf the shipped policy declares, the value of the highest layer that sets it,
      names that layer as its source, and has the shipped shape; an override that is no leaf of the shipped policy,
      or a changed version, never resolves; nothing else but the validator refuses. */
  method ResolveRunPolicy(shipped: Tree, file: Option<FileFields>, cli: seq<(string, Option<Atom>)>, valid: Tree -> bool)
    returns (r: Result<Resolved, PolicyError>)
    requires ExactShape(valid, shipped)
    requires forall item | IsVersion(item) :: LeafAt(shipped, PathOf(item)).Some?
    ensures var items := if file.Some? then FlattenFile(file.value, "") else [];
            r.Ok? ==>
              && AllLeafPaths(Overriding(items), shipped) && VersionsAgree(items, shipped)
              && AllLeafPaths(Given(cli), shipped) && valid(r.value.values)
              && Layered(r.value, shipped, Overriding(items), Given(cli))
    ensures var items := if file.Some? then FlattenFile(file.value, "") else [];
            (r.Err? && valid(shipped) && AllLeafPaths(Overriding(items), shipped) && VersionsAgree(items, shipped)
             && AllLeafPaths(Given(cli), shipped)) ==> r.error == PolicyInvalid
  {
    hide SetAt, LeafAt, Get, PathOf, Layered, IsVersion, SameShape, Overriding, Given, FlattenFile, AllLeafPaths, VersionsAgree;
    if !valid(shipped) { return Err(ShippedInvalid); }
    var items := if file.Some? then FlattenFile(file.value, "") else [];
    var filed := ApplyFile(shipped, items);
    if filed.Err? { return Err(filed.error); }
    var given := ApplyCli(shipped, filed.value, Overriding(items), cli);
    if given.Err? { return Err(given.error); }
    if !valid(given.value.values) { return Err(PolicyInvalid); }
    ShapeIsNotBroken(given.value.values, shipped);
    return Ok(given.value);
  }
}
