/**
 * Derivation of a collection's backing-file path from the constructor's
 * arguments. The store joins `dirname(root_dir)`, the directory name "data"
 * and `<collection_name>.json` with the POSIX path rules: `dirname` and
 * `join` below follow those rules, including their edge cases (no slash at
 * all, a root made only of slashes, an absolute second component).
 */
module Paths {

  const Sep: char := '/'

  predicate AllChar(s: string, c: char) {
    forall j :: 0 <= j < |s| ==> s[j] == c
  }

  predicate StartsWith(s: string, c: char) {
    |s| > 0 && s[0] == c
  }

  predicate EndsWith(s: string, c: char) {
    |s| > 0 && s[|s| - 1] == c
  }

  /** Position of the last occurrence of `c` in `s`, or -1 when there is none. */
  function RFind(s: string, c: char): (r: int)
    ensures -1 <= r < |s|
    ensures r >= 0 ==> s[r] == c
    ensures forall j :: r < j < |s| ==> s[j] != c
  {
    if s == [] then -1
    else if s[|s| - 1] == c then |s| - 1
    else RFind(s[..|s| - 1], c)
  }

  /** `s` with every trailing `c` removed. */
  function RStrip(s: string, c: char): (r: string)
    ensures r <= s
    ensures !EndsWith(r, c)
    ensures forall j :: |r| <= j < |s| ==> s[j] == c
  {
    if s != [] && s[|s| - 1] == c then RStrip(s[..|s| - 1], c) else s
  }

  /**
   * The directory part of `p`: everything up to the last separator, with
   * trailing separators removed unless that part consists of separators only.
   * What follows the result in `p` is a run of separators and then a final
   * component that holds no separator. The part up to the last separator is
   * kept whole when it is all separators (empty included); otherwise the
   * result is that part without its trailing separators, and not empty.
   */
  function Dirname(p: string): (r: string)
    ensures r <= p
    ensures (forall j :: 0 <= j < |p| ==> p[j] != Sep) ==> r == ""
    ensures forall j, k :: |r| <= j <= k < |p| && p[j] != Sep ==> p[k] != Sep
    ensures var i := RFind(p, Sep) + 1;
      r <= p[..i] && AllChar(p[|r|..i], Sep) &&
      (AllChar(p[..i], Sep) ==> r == p[..i]) &&
      (!AllChar(p[..i], Sep) ==> r != [] && !EndsWith(r, Sep))
  {
    var i := RFind(p, Sep) + 1;
    var head := p[..i];
    if head != [] && !AllChar(head, Sep) then
      var r := RStrip(head, Sep);
      assert r != [] by {
        var j :| 0 <= j < |head| && head[j] != Sep;
      }
      r
    else head
  }

  /**
   * Joins two path components: an absolute `b` replaces `a`; otherwise a
   * separator is put between them unless `a` is empty or already ends in one.
   */
  function Join(a: string, b: string): (r: string)
    ensures |b| <= |r| && r[|r| - |b|..] == b
    ensures StartsWith(b, Sep) ==> r == b
    ensures !StartsWith(b, Sep) ==> r[..|r| - |b|] == (if a == [] || EndsWith(a, Sep) then a else a + [Sep])
  {
    if StartsWith(b, Sep) then b
    else if a == [] || EndsWith(a, Sep) then a + b
    else a + [Sep] + b
  }

  /** The store's data directory, `join(dirname(root_dir), "data")`. */
  function BaseDir(rootDir: string): (r: string)
    ensures |r| >= 4 && r[|r| - 4..] == "data"
    ensures r[..|r| - 4] == if Dirname(rootDir) == [] || EndsWith(Dirname(rootDir), Sep)
                            then Dirname(rootDir) else Dirname(rootDir) + [Sep]
  {
    Join(Dirname(rootDir), "data")
  }

  /** The collection file, `join(base_dir, collection_name + ".json")`. */
  function FilePath(baseDir: string, collectionName: string): (r: string)
    ensures |r| >= 5 && r[|r| - 5..] == ".json"
    ensures StartsWith(collectionName, Sep) ==> r == collectionName + ".json"
    ensures !StartsWith(collectionName, Sep) && (baseDir == [] || EndsWith(baseDir, Sep)) ==>
      r == baseDir + collectionName + ".json"
    ensures !StartsWith(collectionName, Sep) && baseDir != [] && !EndsWith(baseDir, Sep) ==>
      r == baseDir + "/" + collectionName + ".json"
  {
    var file := collectionName + ".json";
    assert StartsWith(collectionName, Sep) ==> StartsWith(file, Sep);
    assert StartsWith(file, Sep) ==> StartsWith(collectionName, Sep) || collectionName == [];
    Join(baseDir, file)
  }

  /** The data directory never ends in a separator, so a relative collection name follows one separator. */
  lemma FilePathOfBaseDir(rootDir: string, collectionName: string)
    requires !StartsWith(collectionName, Sep)
    ensures FilePath(BaseDir(rootDir), collectionName) == BaseDir(rootDir) + "/" + collectionName + ".json"
  {
    var base := BaseDir(rootDir);
    assert base[|base| - 4..][3] == 'a';
    assert base[|base| - 1] == 'a';
    assert base != [] && !EndsWith(base, Sep);
  }

  /**
   * The ordinary case: for a root that is a file `name` inside a directory
   * `dir` (as an absolute path to the program's own script is), the data
   * directory is `dir + "/data"`.
   */
  lemma DirnameOfFileInDirectory(dir: string, name: string)
    requires dir != [] && !EndsWith(dir, Sep)
    requires forall j :: 0 <= j < |name| ==> name[j] != Sep
    ensures Dirname(dir + [Sep] + name) == dir
  {
    var p := dir + [Sep] + name;
    assert p[|dir|] == Sep;
    assert forall j :: |dir| < j < |p| ==> p[j] == name[j - |dir| - 1];
    assert RFind(p, Sep) == |dir|;
    var head := p[..|dir| + 1];
    assert head == dir + [Sep];
    assert head[|dir| - 1] != Sep;
    assert !AllChar(head, Sep);
    assert head[..|head| - 1] == dir;
    assert RStrip(head, Sep) == RStrip(dir, Sep);
  }

  /** With an ordinary root, the data directory is `<dir>/data`. */
  lemma BaseDirInDirectory(dir: string, name: string)
    requires dir != [] && !EndsWith(dir, Sep)
    requires forall j :: 0 <= j < |name| ==> name[j] != Sep
    ensures BaseDir(dir + [Sep] + name) == dir + "/data"
  {
    var root := dir + [Sep] + name;
    DirnameOfFileInDirectory(dir, name);
    assert BaseDir(root) == Join(dir, "data");
    assert Join(dir, "data") == dir + [Sep] + "data";
  }

  /** With an ordinary root and collection name: `<dir>/data/<collection>.json`. */
  lemma FilePathInDirectory(dir: string, name: string, collectionName: string)
    requires dir != [] && !EndsWith(dir, Sep)
    requires forall j :: 0 <= j < |name| ==> name[j] != Sep
    requires !StartsWith(collectionName, Sep)
    ensures FilePath(BaseDir(dir + [Sep] + name), collectionName) == dir + "/data/" + collectionName + ".json"
  {
    BaseDirInDirectory(dir, name);
    var base := dir + "/data";
    assert base[|base| - 1] == 'a';
    assert base + "/" + collectionName + ".json" == dir + "/data/" + collectionName + ".json" by {
      assert base + "/" == dir + "/data/";
    }
  }
}
