/**
 * Catalog lookup over the unpacked application tree (src/utils/fs.ts): the
 * virtual path walk, the block index, module resolution for a block name, the
 * module listing, definition fetching and the two memo caches. The tree is a
 * value; reading it from disk is not part of this model.
 */
module Catalog {
  import opened Wrappers
  import opened Js
  import opened JsText
  import opened Errors
  import opened Defs

  /** A file's text or a folder's named children, in directory order. */
  datatype FsNode = File(text: string) | Folder(children: seq<Child>)

  /** A directory entry. */
  datatype Child = Child(name: string, node: FsNode)

  /** The first child called `name` (directory entries have distinct names). */
  function Find(children: seq<Child>, name: string): (r: Option<FsNode>)
    ensures r.None? <==> forall i :: 0 <= i < |children| ==> children[i].name != name
    ensures r.Some? ==> exists i :: 0 <= i < |children| && children[i] == Child(name, r.value)
  {
    if children == [] then None
    else if children[0].name == name then Some(children[0].node)
    else Find(children[1..], name)
  }

  /** Module name → block names, in the order the walk found them. */
  type Index = seq<(string, seq<string>)>

  // ---------------------------------------------------------------------
  // Virtual paths
  // ---------------------------------------------------------------------

  function ReplaceBackslashes(p: string): (r: string)
    ensures |r| == |p|
    ensures forall i :: 0 <= i < |p| ==> r[i] == if p[i] == '\\' then '/' else p[i]
  {
    seq(|p|, i requires 0 <= i < |p| => if p[i] == '\\' then '/' else p[i])
  }

  /** `normalizeVirtualPath` after `path.normalize`: backslashes become slashes, then split on "/" and drop empty segments. */
  function NormalizeVirtualPath(p: string): seq<string>
  {
    NonEmpty(Split(ReplaceBackslashes(p), '/'))
  }

  /** Segments are never empty and contain neither kind of slash. */
  lemma SegmentsClean(p: string)
    ensures forall i :: 0 <= i < |NormalizeVirtualPath(p)| ==>
      NormalizeVirtualPath(p)[i] != "" && '/' !in NormalizeVirtualPath(p)[i] && '\\' !in NormalizeVirtualPath(p)[i]
  {
    var r := ReplaceBackslashes(p);
    SplitPiecesFree(r, '/');
    SplitPiecesFrom(r, '/', '\\');
  }

  /** Joining two paths with a slash concatenates their segments. */
  lemma SegmentsOfJoin(a: string, b: string)
    ensures NormalizeVirtualPath(a + "/" + b) == NormalizeVirtualPath(a) + NormalizeVirtualPath(b)
  {
    var ra, rb := ReplaceBackslashes(a), ReplaceBackslashes(b);
    assert ReplaceBackslashes(a + "/" + b) == ra + ['/'] + rb;
    SplitAround(ra, '/', rb);
    NonEmptyAppend(Split(ra, '/'), Split(rb, '/'));
  }

  // ---------------------------------------------------------------------
  // getFileContent
  // ---------------------------------------------------------------------

  /** One step of the walk: the named child of a folder; a file has no children. */
  function Step(node: FsNode, segment: string): Option<FsNode>
  {
    match node
    case File(_) => None
    case Folder(ch) => Find(ch, segment)
  }

  /** The node reached by following `segs` from `node`, if every step is into a folder that has that child. */
  function Walk(node: FsNode, segs: seq<string>): Option<FsNode>
    decreases |segs|
  {
    if segs == [] then Some(node)
    else match Step(node, segs[0])
      case None => None
      case Some(c) => Walk(c, segs[1..])
  }

  /** The text of the file at `segs`, if there is one. */
  function FileAt(tree: FsNode, segs: seq<string>): Option<string>
  {
    match Walk(tree, segs)
    case Some(File(t)) => Some(t)
    case _ => None
  }

  lemma {:induction false} WalkSplit(n: FsNode, a: seq<string>, b: seq<string>)
    ensures Walk(n, a + b) == match Walk(n, a) case None => None case Some(m) => Walk(m, b)
    decreases |a|
  {
    if a == [] {
      assert a + b == b;
    } else {
      assert (a + b)[0] == a[0];
      assert (a + b)[1..] == a[1..] + b;
      match Step(n, a[0])
      case None =>
      case Some(c) => WalkSplit(c, a[1..], b);
    }
  }

  /** Text comes back only when every segment before the last names a folder and the last names a file. */
  lemma FileAtShape(tree: FsNode, segs: seq<string>)
    requires tree.Folder? && FileAt(tree, segs).Some?
    ensures |segs| >= 1
    ensures forall k :: 0 <= k < |segs| ==> Walk(tree, segs[..k]).Some? && Walk(tree, segs[..k]).value.Folder?
    ensures Walk(tree, segs) == Some(File(FileAt(tree, segs).value))
  {
    forall k | 0 <= k < |segs| ensures Walk(tree, segs[..k]).Some? && Walk(tree, segs[..k]).value.Folder? {
      assert segs == segs[..k] + segs[k..];
      WalkSplit(tree, segs[..k], segs[k..]);
    }
  }

  /** `getFileContent(path)`: walks the tree one segment at a time. */
  method GetFileContent(tree: FsNode, path: string) returns (r: Option<string>)
    ensures r == FileAt(tree, NormalizeVirtualPath(path))
  {
    var segs := NormalizeVirtualPath(path);
    var current: Option<FsNode> := Some(tree);
    var i := 0;
    while i < |segs|
      invariant 0 <= i <= |segs|
      invariant Walk(tree, segs) == if current.None? then None else Walk(current.value, segs[i..])
    {
      if current.None? || current.value.File? {
        return None;
      }
      assert segs[i..][0] == segs[i] && segs[i..][1..] == segs[i + 1..];
      current := Step(current.value, segs[i]);
      i := i + 1;
    }
    r := if current.Some? && current.value.File? then Some(current.value.text) else None;
  }

  // ---------------------------------------------------------------------
  // buildBlockIndex
  // ---------------------------------------------------------------------

  /** `name.toLowerCase().endsWith(".xml")`. */
  predicate IsXmlName(name: string)
  {
    |name| >= 4 && AsciiLower(name[|name| - 4..]) == ".xml"
  }

  /** `name.slice(0, -4)`. */
  function DropExtension(name: string): string
    requires |name| >= 4
  {
    name[..|name| - 4]
  }

  /**
   * The (module, block) pairs the walk pushes for one directory entry whose
   * path below `modules` is `rel + [name]`: an .xml file at depth two or more
   * is filed under the first folder of its path.
   */
  function NodeEntries(name: string, node: FsNode, rel: seq<string>): seq<(string, string)>
    decreases node
  {
    match node
    case File(_) => if IsXmlName(name) && |rel| >= 1 then [(rel[0], DropExtension(name))] else []
    case Folder(ch) => DirEntries(ch, rel + [name])
  }

  function DirEntries(children: seq<Child>, rel: seq<string>): seq<(string, string)>
    decreases children
  {
    if children == [] then [] else NodeEntries(children[0].name, children[0].node, rel) + DirEntries(children[1..], rel)
  }

  lemma {:induction false} DirEntriesAppend(children: seq<Child>, i: nat, rel: seq<string>)
    requires i < |children|
    ensures DirEntries(children[..i + 1], rel) == DirEntries(children[..i], rel) + NodeEntries(children[i].name, children[i].node, rel)
  {
    if i > 0 {
      assert children[..i + 1][1..] == children[1..][..i];
      assert children[..i][1..] == children[1..][..i - 1];
      DirEntriesAppend(children[1..], i - 1, rel);
    } else {
      assert children[..1][1..] == [];
    }
  }

  /** `map[m] ??= []; map[m].push(b)`. */
  function Push(idx: Index, m: string, b: string): Index
  {
    Put(idx, m, Lookup(idx, m).GetOr([]) + [b])
  }

  function PushAll(idx: Index, pairs: seq<(string, string)>): Index
    decreases |pairs|
  {
    if pairs == [] then idx else PushAll(Push(idx, pairs[0].0, pairs[0].1), pairs[1..])
  }

  lemma {:induction false} PushAllAppend(idx: Index, a: seq<(string, string)>, b: seq<(string, string)>)
    ensures PushAll(idx, a + b) == PushAll(PushAll(idx, a), b)
    decreases |a|
  {
    if a != [] {
      assert (a + b)[0] == a[0] && (a + b)[1..] == a[1..] + b;
      PushAllAppend(Push(idx, a[0].0, a[0].1), a[1..], b);
    } else {
      assert a + b == b;
    }
  }

  lemma PushLookup(idx: Index, pm: string, pb: string, m: string)
    ensures Lookup(Push(idx, pm, pb), m).GetOr([]) == Lookup(idx, m).GetOr([]) + (if pm == m then [pb] else [])
  {
    PutLookup(idx, pm, Lookup(idx, pm).GetOr([]) + [pb], m);
  }

  lemma PushKeys(idx: Index, pm: string, pb: string, m: string)
    ensures m in Keys(Push(idx, pm, pb)) <==> m in Keys(idx) || pm == m
  {
  }

  /** The blocks of the pairs filed under `m`, in order. */
  function BlocksUnder(pairs: seq<(string, string)>, m: string): seq<string>
  {
    if pairs == [] then [] else (if pairs[0].0 == m then [pairs[0].1] else []) + BlocksUnder(pairs[1..], m)
  }

  /** Pushing pairs appends, to each module's list, exactly the blocks filed under it, in order. */
  lemma {:induction false} PushAllLists(idx: Index, pairs: seq<(string, string)>, m: string)
    ensures Lookup(PushAll(idx, pairs), m).GetOr([]) == Lookup(idx, m).GetOr([]) + BlocksUnder(pairs, m)
    decreases |pairs|
  {
    if pairs != [] {
      var next := Push(idx, pairs[0].0, pairs[0].1);
      PushLookup(idx, pairs[0].0, pairs[0].1, m);
      PushAllLists(next, pairs[1..], m);
      ConcatAssoc(Lookup(idx, m).GetOr([]), if pairs[0].0 == m then [pairs[0].1] else [], BlocksUnder(pairs[1..], m));
    }
  }

  /** A module is a key of the index exactly when it already was or some pair is filed under it. */
  lemma {:induction false} PushAllKeys(idx: Index, pairs: seq<(string, string)>, m: string)
    ensures m in Keys(PushAll(idx, pairs)) <==> m in Keys(idx) || BlocksUnder(pairs, m) != []
    decreases |pairs|
  {
    if pairs != [] {
      var next := Push(idx, pairs[0].0, pairs[0].1);
      PushKeys(idx, pairs[0].0, pairs[0].1, m);
      PushAllKeys(next, pairs[1..], m);
    }
  }

  lemma {:induction false} PushAllUnique(idx: Index, pairs: seq<(string, string)>)
    requires UniqueKeys(idx)
    ensures UniqueKeys(PushAll(idx, pairs))
    decreases |pairs|
  {
    if pairs != [] {
      PutUnique(idx, pairs[0].0, Lookup(idx, pairs[0].0).GetOr([]) + [pairs[0].1]);
      PushAllUnique(Push(idx, pairs[0].0, pairs[0].1), pairs[1..]);
    }
  }

  /** `buildBlockIndex(tree)`: walk the `modules` folder, which must exist and be a folder. */
  function BlockIndex(tree: FsNode): Result<Index, Error>
  {
    match tree
    case File(_) => Err(ModulesFolderMissing)
    case Folder(ch) =>
      match Find(ch, "modules")
      case Some(Folder(mods)) => Ok(PushAll([], DirEntries(mods, [])))
      case _ => Err(ModulesFolderMissing)
  }

  /** The index has one key per module with at least one block, and lists under it exactly the blocks the walk filed there. */
  lemma BlockIndexContents(mods: seq<Child>, rest: seq<Child>, m: string)
    ensures var idx := BlockIndex(Folder([Child("modules", Folder(mods))] + rest));
      idx.Ok? && UniqueKeys(idx.value) &&
      Lookup(idx.value, m).GetOr([]) == BlocksUnder(DirEntries(mods, []), m) &&
      (m in Keys(idx.value) <==> BlocksUnder(DirEntries(mods, []), m) != [])
  {
    PushAllLists([], DirEntries(mods, []), m);
    PushAllKeys([], DirEntries(mods, []), m);
    PushAllUnique([], DirEntries(mods, []));
  }

  /** Building the index fails when `modules` is missing or is a file. */
  lemma BlockIndexNeedsModulesFolder(ch: seq<Child>)
    requires Find(ch, "modules").None? || Find(ch, "modules").value.File?
    ensures BlockIndex(Folder(ch)) == Err(ModulesFolderMissing)
  {
  }

  /** `path` leads through folders to a file, choosing any child with the right name at each step. */
  predicate HasFileAt(children: seq<Child>, path: seq<string>)
    decreases |path|
  {
    |path| >= 1 &&
    exists i :: 0 <= i < |children| && children[i].name == path[0] &&
      if |path| == 1 then children[i].node.File?
      else children[i].node.Folder? && HasFileAt(children[i].node.children, path[1..])
  }

  /** The pair an .xml file at `path` below a folder reached by `rel` contributes. */
  predicate IndexedAt(rel: seq<string>, path: seq<string>, m: string, b: string)
  {
    |path| >= 1 && IsXmlName(path[|path| - 1]) && |rel| + |path| >= 2 &&
    (rel + path)[0] == m && b == DropExtension(path[|path| - 1])
  }

  lemma {:induction false} NodeEntriesSound(name: string, node: FsNode, rel: seq<string>, m: string, b: string)
    requires (m, b) in NodeEntries(name, node, rel)
    ensures exists path :: (|path| >= 1 && path[0] == name && IndexedAt(rel, path, m, b) &&
      (if |path| == 1 then node.File? else node.Folder? && HasFileAt(node.children, path[1..])))
    decreases node, 1
  {
    match node
    case File(_) =>
      assert IndexedAt(rel, [name], m, b);
    case Folder(ch) =>
      DirEntriesSound(ch, rel + [name], m, b);
      var p :| HasFileAt(ch, p) && IndexedAt(rel + [name], p, m, b);
      assert (rel + [name]) + p == rel + ([name] + p);
      assert ([name] + p)[1..] == p;
      assert IndexedAt(rel, [name] + p, m, b);
  }

  lemma {:induction false} DirEntriesSound(children: seq<Child>, rel: seq<string>, m: string, b: string)
    requires (m, b) in DirEntries(children, rel)
    ensures exists path :: HasFileAt(children, path) && IndexedAt(rel, path, m, b)
    decreases children, 2
  {
    var head := NodeEntries(children[0].name, children[0].node, rel);
    if (m, b) in head {
      NodeEntriesSound(children[0].name, children[0].node, rel, m, b);
      var p :| |p| >= 1 && p[0] == children[0].name && IndexedAt(rel, p, m, b) &&
        (if |p| == 1 then children[0].node.File? else children[0].node.Folder? && HasFileAt(children[0].node.children, p[1..]));
      assert HasFileAt(children, p);
    } else {
      DirEntriesSound(children[1..], rel, m, b);
      var p :| HasFileAt(children[1..], p) && IndexedAt(rel, p, m, b);
      var i :| 0 <= i < |children[1..]| && children[1..][i].name == p[0] &&
        if |p| == 1 then children[1..][i].node.File?
        else children[1..][i].node.Folder? && HasFileAt(children[1..][i].node.children, p[1..]);
      assert children[i + 1] == children[1..][i];
      assert HasFileAt(children, p);
    }
  }

  lemma {:induction false} DirEntriesMember(children: seq<Child>, i: nat, rel: seq<string>, pair: (string, string))
    requires i < |children| && pair in NodeEntries(children[i].name, children[i].node, rel)
    ensures pair in DirEntries(children, rel)
  {
    var head, tail := NodeEntries(children[0].name, children[0].node, rel), DirEntries(children[1..], rel);
    assert DirEntries(children, rel) == head + tail;
    if i > 0 {
      assert children[1..][i - 1] == children[i];
      DirEntriesMember(children[1..], i - 1, rel, pair);
      assert pair in tail;
    }
  }

  lemma {:induction false} DirEntriesComplete(children: seq<Child>, rel: seq<string>, path: seq<string>, m: string, b: string)
    requires HasFileAt(children, path) && IndexedAt(rel, path, m, b)
    ensures (m, b) in DirEntries(children, rel)
    decreases |path|
  {
    var i :| 0 <= i < |children| && children[i].name == path[0] &&
      if |path| == 1 then children[i].node.File?
      else children[i].node.Folder? && HasFileAt(children[i].node.children, path[1..]);
    var name, node := children[i].name, children[i].node;
    if |path| == 1 {
      assert (rel + path)[0] == rel[0];
      assert NodeEntries(name, node, rel) == [(rel[0], DropExtension(name))];
    } else {
      assert (rel + [name]) + path[1..] == rel + path;
      assert path[1..][|path[1..]| - 1] == path[|path| - 1];
      DirEntriesComplete(node.children, rel + [name], path[1..], m, b);
    }
    DirEntriesMember(children, i, rel, (m, b));
  }

  /** The walk files a pair exactly for the .xml files at depth two or more below `modules`, under the first folder of their path. */
  lemma IndexExact(mods: seq<Child>, m: string, b: string)
    ensures (m, b) in DirEntries(mods, []) <==> exists path :: HasFileAt(mods, path) && IndexedAt([], path, m, b)
  {
    if (m, b) in DirEntries(mods, []) {
      DirEntriesSound(mods, [], m, b);
    }
    if exists path :: HasFileAt(mods, path) && IndexedAt([], path, m, b) {
      var path :| HasFileAt(mods, path) && IndexedAt([], path, m, b);
      DirEntriesComplete(mods, [], path, m, b);
    }
  }

  lemma {:induction false} BlocksUnderMember(pairs: seq<(string, string)>, m: string, b: string)
    ensures b in BlocksUnder(pairs, m) <==> (m, b) in pairs
  {
    if pairs != [] {
      BlocksUnderMember(pairs[1..], m, b);
      assert pairs == [pairs[0]] + pairs[1..];
    }
  }

  /** The walk that `buildBlockIndex` runs, pushing into one shared map. */
  class BlockIndexBuilder {
    var index: Index

    constructor ()
      ensures index == []
    {
      index := [];
    }

    method Walk(dir: seq<Child>, rel: seq<string>)
      modifies this
      ensures index == PushAll(old(index), DirEntries(dir, rel))
      decreases dir
    {
      var i := 0;
      while i < |dir|
        invariant 0 <= i <= |dir|
        invariant index == PushAll(old(index), DirEntries(dir[..i], rel))
      {
        var name := dir[i].name;
        var value := dir[i].node;
        
        DirEntriesAppend(dir, i, rel);
        PushAllAppend(old(index), DirEntries(dir[..i], rel), NodeEntries(name, value, rel));
        match value {
          case File(_) =>
            if IsXmlName(name) && |rel| >= 1 {
              index := Push(index, rel[0], DropExtension(name));
            }
          case Folder(ch) =>
            Walk(ch, rel + [name]);
        }
        i := i + 1;
      }
      assert dir[..i] == dir;
    }
  }

  /** `buildBlockIndex(tree)`. */
  method BuildBlockIndex(tree: FsNode) returns (r: Result<Index, Error>)
    ensures r == BlockIndex(tree)
  {
    if tree.File? {
      return Err(ModulesFolderMissing);
    }
    var modules := Find(tree.children, "modules");
    if modules.None? || modules.value.File? {
      return Err(ModulesFolderMissing);
    }
    var builder := new BlockIndexBuilder();
    builder.Walk(modules.value.children, []);
    r := Ok(builder.index);
  }

  // ---------------------------------------------------------------------
  // blockFromModule, listAllModules, getBlockDef
  // ---------------------------------------------------------------------

  /** The modules whose block list contains `name`, in index order. */
  function ModulesContaining(idx: Index, name: string): (r: seq<string>)
    ensures forall i :: 0 <= i < |r| ==> r[i] in Keys(idx)
  {
    if idx == [] then [] else (if name in idx[0].1 then [idx[0].0] else []) + ModulesContaining(idx[1..], name)
  }

  lemma {:induction false} ModulesContainingMember(idx: Index, name: string, m: string)
    requires UniqueKeys(idx)
    ensures m in ModulesContaining(idx, name) <==> Lists(idx, m, name)
  {
    if idx != [] {
      ModulesContainingMember(idx[1..], name, m);
      if idx[0].0 == m {
        assert m !in Keys(idx[1..]);
      }
    }
  }

  /**
   * `blockFromModule(name, flags)` with `flag` = `flags?.module`; the index is
   * consulted only without a flag. A truthy flag is returned as it is, and
   * every caller hands it straight to `getBlockDef`, whose `path.posix.join`
   * throws for a flag that is not a string (a number or `true` from the parsed
   * attribute): that throw is folded in here.
   */
  function BlockFromModule(index: Result<Index, Error>, name: string, flag: JsValue): Result<string, Error>
  {
    if Truthy(flag) then (if flag.Str? then Ok(flag.s) else Err(PathNotAString(flag)))
    else if index.Err? then Err(index.error)
    else
      var matches := ModulesContaining(index.value, name);
      if |matches| == 0 then Err(ModuleNotFound(name))
      else if |matches| > 1 then Err(ModuleAmbiguous(name, matches))
      else Ok(matches[0])
  }

  /** An explicit module flag is returned without any lookup. */
  lemma BlockFromModuleFlag(i1: Result<Index, Error>, i2: Result<Index, Error>, name: string, flag: string)
    requires flag != ""
    ensures BlockFromModule(i1, name, Str(flag)) == BlockFromModule(i2, name, Str(flag)) == Ok(flag)
  {
  }

  /** A truthy flag that is not a string never names a module: the path join refuses it, whatever the index. */
  lemma BlockFromModuleNonString(index: Result<Index, Error>, name: string, flag: JsValue)
    requires Truthy(flag) && !flag.Str?
    ensures BlockFromModule(index, name, flag) == Err(PathNotAString(flag))
  {
  }

  /** `m`'s block list in the index contains `name`. */
  predicate Lists(idx: Index, m: string, name: string)
  {
    Lookup(idx, m).Some? && name in Lookup(idx, m).value
  }

  /** Without a flag, resolution succeeds exactly when one module lists the block, and returns that module. */
  lemma BlockFromModuleUnique(idx: Index, name: string, flag: JsValue, m: string)
    requires UniqueKeys(idx) && !Truthy(flag)
    ensures BlockFromModule(Ok(idx), name, flag) == Ok(m) <==>
      Lists(idx, m, name) && forall m2 :: Lists(idx, m2, name) ==> m2 == m
  {
    if BlockFromModule(Ok(idx), name, flag) == Ok(m) {
      OnlyMatchResolves(idx, name, m);
    }
    if Lists(idx, m, name) && forall m2 :: Lists(idx, m2, name) ==> m2 == m {
      UniqueListerResolves(idx, name, m);
    }
  }

  lemma OnlyMatchResolves(idx: Index, name: string, m: string)
    requires UniqueKeys(idx) && ModulesContaining(idx, name) == [m]
    ensures Lists(idx, m, name) && forall m2 :: Lists(idx, m2, name) ==> m2 == m
  {
    ModulesContainingMember(idx, name, m);
    forall m2 | Lists(idx, m2, name) ensures m2 == m {
      ModulesContainingMember(idx, name, m2);
    }
  }

  /** Below the first entry, a key lists what it lists in the whole index. */
  lemma ListsTail(idx: Index, name: string, k: string)
    requires UniqueKeys(idx) && idx != []
    ensures UniqueKeys(idx[1..])
    ensures Lists(idx[1..], k, name) <==> k != idx[0].0 && Lists(idx, k, name)
  {
    assert idx[0].0 !in Keys(idx[1..]);
  }

  lemma {:induction false} NoListers(idx: Index, name: string)
    requires UniqueKeys(idx) && forall m2 :: !Lists(idx, m2, name)
    ensures ModulesContaining(idx, name) == []
  {
    if idx != [] {
      assert !Lists(idx, idx[0].0, name);
      forall m2 ensures !Lists(idx[1..], m2, name) {
        ListsTail(idx, name, m2);
      }
      NoListers(idx[1..], name);
    }
  }

  lemma {:induction false} UniqueListerResolves(idx: Index, name: string, m: string)
    requires UniqueKeys(idx) && Lists(idx, m, name) && forall m2 :: Lists(idx, m2, name) ==> m2 == m
    ensures ModulesContaining(idx, name) == [m]
  {
    forall m2 ensures Lists(idx[1..], m2, name) ==> m2 == m {
      ListsTail(idx, name, m2);
    }
    if idx[0].0 == m {
      forall m2 ensures !Lists(idx[1..], m2, name) {
        ListsTail(idx, name, m2);
      }
      NoListers(idx[1..], name);
    } else {
      assert !Lists(idx, idx[0].0, name);
      ListsTail(idx, name, m);
      UniqueListerResolves(idx[1..], name, m);
    }
  }

  /** Without a flag, resolution fails exactly when the block is in no module or in several. */
  lemma BlockFromModuleFails(idx: Index, name: string, flag: JsValue)
    requires !Truthy(flag)
    ensures BlockFromModule(Ok(idx), name, flag).Err? <==> |ModulesContaining(idx, name)| != 1
    ensures |ModulesContaining(idx, name)| == 0 ==> BlockFromModule(Ok(idx), name, flag) == Err(ModuleNotFound(name))
  {
  }

  /** `listAllModules`: the folder children of `modules`. */
  function ListAllModules(tree: FsNode): Result<seq<string>, Error>
  {
    match tree
    case File(_) => Err(ModulesFolderMissing)
    case Folder(ch) =>
      match Find(ch, "modules")
      case Some(Folder(mods)) => Ok(FolderNames(mods))
      case _ => Err(ModulesFolderMissing)
  }

  function FolderNames(children: seq<Child>): seq<string>
  {
    if children == [] then [] else (if children[0].node.Folder? then [children[0].name] else []) + FolderNames(children[1..])
  }

  /** A name is listed exactly when some child of that name is a folder. */
  lemma {:induction false} FolderNamesExact(children: seq<Child>, name: string)
    ensures name in FolderNames(children) <==> exists i :: 0 <= i < |children| && children[i].name == name && children[i].node.Folder?
  {
    if children != [] {
      FolderNamesExact(children[1..], name);
      if exists i :: 1 <= i < |children| && children[i].name == name && children[i].node.Folder? {
        var i :| 1 <= i < |children| && children[i].name == name && children[i].node.Folder?;
        assert children[1..][i - 1] == children[i];
      }
    }
  }

  /** `getBlockDef(m, b)`: read `modules/m/b.xml`; a missing or empty file is "not found", otherwise it is parsed. */
  function GetBlockDef(tree: FsNode, parse: (string, string) -> Result<BlockDef, string>, m: string, b: string): Result<BlockDef, Error>
  {
    var text := FileAt(tree, NormalizeVirtualPath("modules/" + m + "/" + b + ".xml"));
    if text.None? || text.value == "" then Err(DefinitionNotFound(m, b))
    else match parse(text.value, b)
      case Ok(d) => Ok(d)
      case Err(e) => Err(DefinitionUnparsable(b, e))
  }

  /** The definition file is looked up at modules / the module's segments / the block's file name. */
  lemma GetBlockDefPath(m: string, b: string)
    ensures NormalizeVirtualPath("modules/" + m + "/" + b + ".xml") ==
      ["modules"] + NormalizeVirtualPath(m) + NormalizeVirtualPath(b + ".xml")
  {
    var dir, file := "modules/" + m, b + ".xml";
    ConcatAssoc(dir + "/", b, ".xml");
    ModulesPrefix(m);
    SegmentsOfJoin(dir, file);
    SegmentsOfJoin("modules", m);
    ModulesSegment();
  }

  /** The directory prefix, written either way. */
  lemma ModulesPrefix(m: string)
    ensures "modules" + "/" + m == "modules/" + m
  {
    assert "modules" + "/" == "modules/";
  }

  /** The top directory is one segment. */
  lemma ModulesSegment()
    ensures NormalizeVirtualPath("modules") == ["modules"]
  {
    assert ReplaceBackslashes("modules") == "modules";
    SplitWithoutSeparator("modules", '/');
  }

  /** The two memo caches: the unpacked tree and the block index, each computed at most once. */
  class FsCache {
    var unpacked: Option<FsNode>
    var blockMap: Option<Index>

    constructor ()
      ensures unpacked == None && blockMap == None
    {
      unpacked := None;
      blockMap := None;
    }

    /** `unpackedFolder()`; `disk` is what reading the folder gives, None when it fails (cached as an empty folder). */
    method UnpackedFolder(disk: Option<FsNode>) returns (t: FsNode)
      modifies this
      ensures t == if old(unpacked).Some? then old(unpacked).value else disk.GetOr(Folder([]))
      ensures unpacked == Some(t) && blockMap == old(blockMap)
    {
      if unpacked.Some? {
        return unpacked.value;
      }
      t := disk.GetOr(Folder([]));
      unpacked := Some(t);
    }

    /** `blocksList()`: the cached index, or one built now and cached when building succeeds. */
    method BlocksList(disk: Option<FsNode>) returns (r: Result<Index, Error>)
      modifies this
      ensures old(blockMap).Some? ==> r == Ok(old(blockMap).value) && unpacked == old(unpacked) && blockMap == old(blockMap)
      ensures old(blockMap).None? ==>
        r == BlockIndex(if old(unpacked).Some? then old(unpacked).value else disk.GetOr(Folder([]))) &&
        blockMap == (if r.Ok? then Some(r.value) else None) &&
        unpacked == Some(if old(unpacked).Some? then old(unpacked).value else disk.GetOr(Folder([])))
    {
      if blockMap.Some? {
        return Ok(blockMap.value);
      }
      var tree := UnpackedFolder(disk);
      r := BuildBlockIndex(tree);
      if r.Ok? {
        blockMap := Some(r.value);
      }
    }
  }
}
