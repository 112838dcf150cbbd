/**
 * The part of the file system the match store uses: named directories of
 * JSON files. A directory lists its files in `os.listdir` order, taken here
 * to be the order of creation. A file holds a document that `json.load`
 * reads back, or content that it cannot parse.
 */
module FileSystem {
  import opened Wrappers
  import opened OrderedMaps
  import opened RiotApi

  datatype FileData = Stored(doc: Document) | Unreadable

  type Directory = OrderedMap<string, FileData>

  /** Directory name to directory. */
  type Tree = map<string, Directory>

  ghost predicate ValidTree(tree: Tree) {
    forall d | d in tree :: tree[d].Valid()
  }

  /** `os.path.exists(os.path.join(dir, file))`. */
  predicate FileExists(tree: Tree, dir: string, file: string) {
    dir in tree && file in tree[dir].entries
  }

  /** `os.makedirs(dir, exist_ok=True)`: an existing directory is kept as it is. */
  function WithDir(tree: Tree, dir: string): (r: Tree)
    ensures dir in r && (dir !in tree ==> r[dir].keys == [] && r[dir].entries == map[])
    ensures dir in tree ==> r == tree
    ensures r == tree[dir := r[dir]]
    ensures ValidTree(tree) ==> ValidTree(r)
  {
    if dir in tree then tree else tree[dir := Empty()]
  }

  /**
   * `json.dump` into `os.path.join(dir, file)` opened with `'w'`: the file is
   * created or replaced and the other files and directories stay as they were.
   */
  function WriteFile(tree: Tree, dir: string, file: string, doc: Document): (r: Tree)
    requires dir in tree
    ensures dir in r
    ensures r[dir].entries == tree[dir].entries[file := Stored(doc)]
    ensures ValidTree(tree) ==> ValidTree(r)
  {
    tree[dir := tree[dir].Put(file, Stored(doc))]
  }

  /** `if force or not os.path.exists(path): json.dump(...)`. */
  function WriteUnlessPresent(tree: Tree, dir: string, file: string, doc: Document, force: bool): (r: Tree)
    requires dir in tree
    ensures dir in r
    ensures ValidTree(tree) ==> ValidTree(r)
  {
    if force || !FileExists(tree, dir, file) then WriteFile(tree, dir, file, doc) else tree
  }

  /**
   * The conditional write creates the file, or keeps it as it was when it
   * exists and `force` is not set; no other file and no other directory
   * changes.
   */
  lemma WriteUnlessPresentEffect(tree: Tree, dir: string, file: string, doc: Document, force: bool)
    requires dir in tree
    ensures var r := WriteUnlessPresent(tree, dir, file, doc, force);
      && r == tree[dir := r[dir]]
      && file in r[dir].entries
      && (force || !FileExists(tree, dir, file) ==> r[dir].entries[file] == Stored(doc))
      && (!force && FileExists(tree, dir, file) ==> r[dir] == tree[dir])
      && forall f :: f in tree[dir].entries && f != file ==> f in r[dir].entries && r[dir].entries[f] == tree[dir].entries[f]
  {
  }

  /** Replacing one directory twice is replacing it once. */
  lemma UpdateTwice(tree: Tree, dir: string, d1: Directory, d2: Directory)
    ensures tree[dir := d1][dir := d2] == tree[dir := d2]
  {
  }

  /** `os.listdir(dir)` with each file's content. */
  function Listing(d: Directory): (r: seq<(string, FileData)>)
    requires d.Valid()
    ensures |r| == |d.keys|
    ensures forall i :: 0 <= i < |r| ==> r[i].0 == d.keys[i] && r[i].1 == d.entries[d.keys[i]]
  {
    seq(|d.keys|, i requires 0 <= i < |d.keys| => (d.keys[i], d.entries[d.keys[i]]))
  }

  /** The disk the program runs against. */
  class Disk {
    var tree: Tree

    constructor (tree: Tree)
      ensures this.tree == tree
    {
      this.tree := tree;
    }

    method MakeDirs(dir: string)
      modifies this
      ensures tree == WithDir(old(tree), dir)
    {
      tree := WithDir(tree, dir);
    }

    /** `os.path.exists(dir)` / `os.path.isdir(dir)` for a summoner directory. */
    method IsDir(dir: string) returns (b: bool)
      ensures b == (dir in tree)
    {
      b := dir in tree;
    }

    method Exists(dir: string, file: string) returns (b: bool)
      ensures b == FileExists(tree, dir, file)
    {
      b := dir in tree && file in tree[dir].entries;
    }

    method Write(dir: string, file: string, doc: Document)
      requires dir in tree
      modifies this
      ensures tree == WriteFile(old(tree), dir, file, doc)
    {
      tree := WriteFile(tree, dir, file, doc);
    }

    /** `open(path)` then `json.load`: `None` for a missing file. */
    method Read(dir: string, file: string) returns (r: Option<FileData>)
      ensures r.None? <==> !FileExists(tree, dir, file)
      ensures r.Some? ==> r.value == tree[dir].entries[file]
    {
      if dir in tree && file in tree[dir].entries {
        r := Some(tree[dir].entries[file]);
      } else {
        r := None;
      }
    }

    method ListDir(dir: string) returns (r: seq<(string, FileData)>)
      requires dir in tree && tree[dir].Valid()
      ensures r == Listing(tree[dir])
    {
      r := Listing(tree[dir]);
    }
  }
}
