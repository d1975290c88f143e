/** Saving generated documents under `<output_dir>/<encounter_id>/<variant>/<n>.txt`
    without overwriting anything already on disk. */
module Storage {
  import opened Text

  /** A path as its sequence of components. */
  type Path = seq<string>

  /** The path sequences that are prefixes of p, p included: what
      `mkdir(parents=True)` creates. */
  function Ancestry(p: Path): set<Path>
  {
    set k | 0 <= k <= |p| :: p[..k]
  }

  /** A path is created by `mkdir(p, parents=True)` exactly when it is a prefix of p. */
  lemma AncestryMember(p: Path, q: Path)
    ensures q in Ancestry(p) <==> |q| <= |p| && q == p[..|q|]
  {
    if |q| <= |p| && q == p[..|q|] {
      assert p[..|q|] in Ancestry(p);
    }
  }

  /** A snapshot of the file system: its directories and its files with contents. */
  datatype FsState = FsState(dirs: set<Path>, files: map<Path, string>)
  {
    /** The paths for which `Path.exists()` holds. */
    function Existing(): set<Path> { dirs + files.Keys }

    /** A tree: the parent of every directory and of every file is a
        directory, and no path is both a directory and a file. */
    predicate Valid()
    {
      (forall p <- dirs :: |p| > 0 ==> p[..|p| - 1] in dirs)
      && (forall p <- files.Keys :: |p| > 0 && p[..|p| - 1] in dirs)
      && (forall p <- dirs :: p !in files)
    }
  }

  /** The k-th numbered entry `<k><suffix>` under base. */
  function Slot(base: Path, k: nat, suffix: string): (r: Path)
    ensures |r| == |base| + 1 && r[..|base|] == base
  {
    base + [NatToDecimal(k) + suffix]
  }

  lemma SlotInjective(base: Path, suffix: string, a: nat, b: nat)
    requires Slot(base, a, suffix) == Slot(base, b, suffix)
    ensures a == b
  {
    var x := NatToDecimal(a) + suffix;
    var y := NatToDecimal(b) + suffix;
    assert x == Slot(base, a, suffix)[|base|] && y == Slot(base, b, suffix)[|base|];
    assert NatToDecimal(a) == x[..|x| - |suffix|];
    assert NatToDecimal(b) == y[..|y| - |suffix|];
    NatToDecimalInjective(a, b);
  }

  /** The first n numbered entries under base. */
  function Slots(base: Path, suffix: string, n: nat): set<Path>
  {
    set k | 0 <= k < n :: Slot(base, k, suffix)
  }

  /** Distinct numbers name distinct entries, so there are n of them. */
  lemma {:induction false} SlotsSize(base: Path, suffix: string, n: nat)
    ensures |Slots(base, suffix, n)| == n
  {
    if n > 0 {
      var last := Slot(base, n - 1, suffix);
      var fewer := Slots(base, suffix, n - 1);
      SlotsSize(base, suffix, n - 1);
      assert Slots(base, suffix, n) == fewer + {last} by {
        forall p | p in Slots(base, suffix, n) ensures p in fewer + {last} {
          var k :| 0 <= k < n && p == Slot(base, k, suffix);
          if k < n - 1 { assert p in fewer; }
        }
        assert last in Slots(base, suffix, n);
      }
      if last in fewer {
        var k :| 0 <= k < n - 1 && Slot(base, k, suffix) == last;
        SlotInjective(base, suffix, k, n - 1);
      }
    }
  }

  /** A subset is no larger than its superset. */
  lemma {:induction false} SubsetSize(a: set<Path>, b: set<Path>)
    requires a <= b
    ensures |a| <= |b|
    decreases |a|
  {
    if a != {} {
      var x :| x in a;
      SubsetSize(a - {x}, b - {x});
    }
  }

  /** A finite set of paths holds at most as many numbered entries as it has members. */
  lemma SlotBound(existing: set<Path>, base: Path, suffix: string, n: nat)
    requires forall k :: 0 <= k < n ==> Slot(base, k, suffix) in existing
    ensures n <= |existing|
  {
    SlotsSize(base, suffix, n);
    SubsetSize(Slots(base, suffix, n), existing);
  }

  /** The number the probing loop of save_document stops at: the first
      entry from `from` on that does not exist. */
  function LeastFree(existing: set<Path>, base: Path, suffix: string, from: nat): (r: nat)
    requires forall k :: 0 <= k < from ==> Slot(base, k, suffix) in existing
    ensures from <= r
    ensures Slot(base, r, suffix) !in existing
    ensures forall k :: 0 <= k < r ==> Slot(base, k, suffix) in existing
    decreases |existing| - from
  {
    if Slot(base, from, suffix) !in existing then from
    else
      SlotBound(existing, base, suffix, from + 1);
      LeastFree(existing, base, suffix, from + 1)
  }

  /** The first free entry is the first gap, whichever way it is found. */
  lemma LeastFreeIsGap(existing: set<Path>, base: Path, suffix: string, n: nat)
    requires forall k :: 0 <= k < n ==> Slot(base, k, suffix) in existing
    requires Slot(base, n, suffix) !in existing
    ensures LeastFree(existing, base, suffix, 0) == n
  {
  }

  /** The variant directory save_document creates for encounterId. */
  function VariantDir(s: FsState, outputDir: Path, encounterId: string): Path
  {
    var base := outputDir + [encounterId];
    Slot(base, LeastFree(s.Existing(), base, "", 0), "")
  }

  /** The file save_document writes: the first free `<n>.txt` in the new variant directory. */
  function SavedPath(s: FsState, outputDir: Path, encounterId: string): Path
  {
    var dir := VariantDir(s, outputDir, encounterId);
    Slot(dir, LeastFree(s.Existing() + Ancestry(dir), dir, ".txt", 0), ".txt")
  }

  /** The file system after save_document. */
  function SaveSpec(s: FsState, outputDir: Path, encounterId: string, document: string): FsState
  {
    var dir := VariantDir(s, outputDir, encounterId);
    FsState(s.dirs + Ancestry(dir), s.files[SavedPath(s, outputDir, encounterId) := document])
  }

  /** save_document never overwrites: it writes one path that did not exist,
      keeps every other file as it was, and only adds directories. */
  lemma SaveNeverOverwrites(s: FsState, outputDir: Path, encounterId: string, document: string)
    ensures var w := SavedPath(s, outputDir, encounterId);
      var t := SaveSpec(s, outputDir, encounterId, document);
      && w !in s.Existing()
      && t.files.Keys == s.files.Keys + {w} && t.files[w] == document
      && (forall p <- s.files.Keys :: t.files[p] == s.files[p])
      && s.dirs <= t.dirs
  {
    var dir := VariantDir(s, outputDir, encounterId);
    var w := SavedPath(s, outputDir, encounterId);
    assert w !in s.Existing() + Ancestry(dir);
  }

  /** The variant directory is new, and on a well-formed tree it is empty,
      so the document is always `0.txt`. */
  lemma SaveIndexZero(s: FsState, outputDir: Path, encounterId: string)
    requires s.Valid()
    ensures VariantDir(s, outputDir, encounterId) !in s.Existing()
    ensures SavedPath(s, outputDir, encounterId) == VariantDir(s, outputDir, encounterId) + ["0.txt"]
  {
    var dir := VariantDir(s, outputDir, encounterId);
    var zero := Slot(dir, 0, ".txt");
    assert NatToDecimal(0) + ".txt" == "0.txt";
    assert zero == dir + ["0.txt"];
    assert zero[..|zero| - 1] == dir;
    assert zero !in Ancestry(dir);
    assert zero !in s.Existing();
    LeastFreeIsGap(s.Existing() + Ancestry(dir), dir, ".txt", 0);
  }

  /** When no ancestor of the variant directory is a file (mkdir succeeds),
      saving keeps the file system a tree. */
  lemma SaveKeepsValid(s: FsState, outputDir: Path, encounterId: string, document: string)
    requires s.Valid()
    requires forall p <- Ancestry(VariantDir(s, outputDir, encounterId)) :: p !in s.files
    ensures SaveSpec(s, outputDir, encounterId, document).Valid()
  {
    var dir := VariantDir(s, outputDir, encounterId);
    var w := SavedPath(s, outputDir, encounterId);
    var t := SaveSpec(s, outputDir, encounterId, document);
    SaveIndexZero(s, outputDir, encounterId);
    SaveNeverOverwrites(s, outputDir, encounterId, document);
    assert w[..|w| - 1] == dir;
    AncestryMember(dir, dir);
    AncestryMember(dir, w);
    forall p <- t.dirs | |p| > 0 ensures p[..|p| - 1] in t.dirs {
      if p !in s.dirs {
        AncestryMember(dir, p);
        AncestryMember(dir, p[..|p| - 1]);
      }
    }
    forall p <- t.files.Keys ensures |p| > 0 && p[..|p| - 1] in t.dirs {
    }
    forall p <- t.dirs ensures p !in t.files {
    }
  }

  /** The file every successive save of a run lands in when the encounter
      has no output yet: the i-th document goes to variant i, as `0.txt`. */
  function RunFile(outputDir: Path, encounterId: string, i: nat): Path
  {
    Slot(outputDir + [encounterId], i, "") + ["0.txt"]
  }

  /** The file system after saving documents one after another. */
  function SaveAll(s: FsState, outputDir: Path, encounterId: string, documents: seq<string>): FsState
    decreases |documents|
  {
    if documents == [] then s
    else
      var n := |documents| - 1;
      SaveSpec(SaveAll(s, outputDir, encounterId, documents[..n]), outputDir, encounterId, documents[n])
  }

  /** Saving one more document saves it after the others. */
  lemma SaveAllSnoc(s: FsState, outputDir: Path, encounterId: string, documents: seq<string>, document: string)
    ensures SaveAll(s, outputDir, encounterId, documents + [document])
            == SaveSpec(SaveAll(s, outputDir, encounterId, documents), outputDir, encounterId, document)
  {
    assert (documents + [document])[..|documents|] == documents;
  }

  /** Exactly the variants below n exist. */
  ghost predicate VariantsBelow(s: FsState, base: Path, n: nat)
  {
    forall k: nat :: Slot(base, k, "") in s.Existing() <==> k < n
  }

  /** No ancestor of the encounter's directory is a file. */
  predicate RoomFor(s: FsState, base: Path)
  {
    forall k :: 0 <= k <= |base| ==> base[..k] !in s.files
  }

  /** Distinct documents of a run land in distinct files. */
  lemma RunFileInjective(outputDir: Path, encounterId: string, i: nat, j: nat)
    requires RunFile(outputDir, encounterId, i) == RunFile(outputDir, encounterId, j)
    ensures i == j
  {
    var base := outputDir + [encounterId];
    assert Slot(base, i, "") == RunFile(outputDir, encounterId, i)[..|base| + 1];
    assert Slot(base, j, "") == RunFile(outputDir, encounterId, j)[..|base| + 1];
    SlotInjective(base, "", i, j);
  }

  /** One save after n earlier ones of the run: it creates variant n and
      writes the document to its `0.txt`, keeping the tree well formed. */
  lemma SaveStep(u: FsState, outputDir: Path, encounterId: string, document: string, n: nat)
    requires u.Valid() && RoomFor(u, outputDir + [encounterId])
    requires VariantsBelow(u, outputDir + [encounterId], n)
    ensures var t := SaveSpec(u, outputDir, encounterId, document);
      && t.Valid() && RoomFor(t, outputDir + [encounterId])
      && VariantsBelow(t, outputDir + [encounterId], n + 1)
      && RunFile(outputDir, encounterId, n) !in u.files
      && t.files == u.files[RunFile(outputDir, encounterId, n) := document]
  {
    var base := outputDir + [encounterId];
    var t := SaveSpec(u, outputDir, encounterId, document);
    LeastFreeIsGap(u.Existing(), base, "", n);
    var dir := VariantDir(u, outputDir, encounterId);
    assert dir == Slot(base, n, "");
    SaveIndexZero(u, outputDir, encounterId);
    var w := RunFile(outputDir, encounterId, n);
    assert SavedPath(u, outputDir, encounterId) == w;
    forall p <- Ancestry(dir) ensures p !in u.files {
      AncestryMember(dir, p);
      if |p| <= |base| {
        assert dir[..|base|] == base;
        assert p == dir[..|base|][..|p|] == base[..|p|];
      } else {
        assert p == dir;
      }
    }
    SaveKeepsValid(u, outputDir, encounterId, document);
    SaveNeverOverwrites(u, outputDir, encounterId, document);
    forall k: nat ensures Slot(base, k, "") in t.Existing() <==> k < n + 1 {
      AncestryMember(dir, Slot(base, k, ""));
      if Slot(base, k, "") in Ancestry(dir) {
        SlotInjective(base, "", k, n);
      }
    }
  }

  /** The files a run writes when the encounter has no output yet. */
  function RunFiles(outputDir: Path, encounterId: string, documents: seq<string>): map<Path, string>
    decreases |documents|
  {
    if documents == [] then map[]
    else
      var n := |documents| - 1;
      RunFiles(outputDir, encounterId, documents[..n])[RunFile(outputDir, encounterId, n) := documents[n]]
  }

  /** The i-th document of the run is the contents of the i-th run file,
      and the run writes no other file. */
  lemma {:induction false} RunFilesContents(outputDir: Path, encounterId: string, documents: seq<string>)
    ensures var r := RunFiles(outputDir, encounterId, documents);
      && (forall i :: 0 <= i < |documents| ==>
            RunFile(outputDir, encounterId, i) in r && r[RunFile(outputDir, encounterId, i)] == documents[i])
      && (forall p <- r.Keys :: exists i :: 0 <= i < |documents| && p == RunFile(outputDir, encounterId, i))
    decreases |documents|
  {
    if documents != [] {
      var n := |documents| - 1;
      var init := documents[..n];
      RunFilesContents(outputDir, encounterId, init);
      var r := RunFiles(outputDir, encounterId, documents);
      forall i | 0 <= i < n
        ensures RunFile(outputDir, encounterId, i) in r && r[RunFile(outputDir, encounterId, i)] == documents[i]
      {
        assert init[i] == documents[i];
        if RunFile(outputDir, encounterId, i) == RunFile(outputDir, encounterId, n) {
          RunFileInjective(outputDir, encounterId, i, n);
        }
      }
    }
  }

  /** Saving the documents of a run one after another, for an encounter
      that has no output yet, keeps the tree well formed; afterwards
      variants 0 to k-1 exist. */
  lemma {:induction false} SaveAllTree(s: FsState, outputDir: Path, encounterId: string, documents: seq<string>)
    requires s.Valid() && RoomFor(s, outputDir + [encounterId])
    requires VariantsBelow(s, outputDir + [encounterId], 0)
    ensures var t := SaveAll(s, outputDir, encounterId, documents);
      && t.Valid() && RoomFor(t, outputDir + [encounterId])
      && VariantsBelow(t, outputDir + [encounterId], |documents|)
    decreases |documents|
  {
    if documents != [] {
      var n := |documents| - 1;
      SaveAllTree(s, outputDir, encounterId, documents[..n]);
      SaveStep(SaveAll(s, outputDir, encounterId, documents[..n]), outputDir, encounterId, documents[n], n);
    }
  }

  /** Updating a union updates its right-hand side. */
  lemma UnionUpdate(a: map<Path, string>, b: map<Path, string>, k: Path, v: string)
    ensures (a + b)[k := v] == a + b[k := v]
  {
  }

  /** ... and it adds exactly the run's files. */
  lemma {:induction false} SaveAllFiles(s: FsState, outputDir: Path, encounterId: string, documents: seq<string>)
    requires s.Valid() && RoomFor(s, outputDir + [encounterId])
    requires VariantsBelow(s, outputDir + [encounterId], 0)
    ensures SaveAll(s, outputDir, encounterId, documents).files == s.files + RunFiles(outputDir, encounterId, documents)
    decreases |documents|
  {
    if documents != [] {
      var n := |documents| - 1;
      var u := SaveAll(s, outputDir, encounterId, documents[..n]);
      var w := RunFile(outputDir, encounterId, n);
      SaveAllFiles(s, outputDir, encounterId, documents[..n]);
      SaveAllTree(s, outputDir, encounterId, documents[..n]);
      SaveStep(u, outputDir, encounterId, documents[n], n);
      UnionUpdate(s.files, RunFiles(outputDir, encounterId, documents[..n]), w, documents[n]);
    }
  }

  /** No file of a run exists before it when the encounter has no output yet. */
  lemma RunFilesFresh(s: FsState, outputDir: Path, encounterId: string, documents: seq<string>)
    requires s.Valid() && VariantsBelow(s, outputDir + [encounterId], 0)
    ensures s.files.Keys !! RunFiles(outputDir, encounterId, documents).Keys
  {
    RunFilesContents(outputDir, encounterId, documents);
    forall p <- RunFiles(outputDir, encounterId, documents).Keys ensures p !in s.files {
      var i :| 0 <= i < |documents| && p == RunFile(outputDir, encounterId, i);
      assert p[..|p| - 1] == Slot(outputDir + [encounterId], i, "");
    }
  }

  /** A run saving k documents for an encounter that has no output yet
      writes them to variants 0 to k-1, each as `0.txt`, in order, and
      keeps every other file as it was. */
  lemma SaveAllLayout(s: FsState, outputDir: Path, encounterId: string, documents: seq<string>)
    requires s.Valid() && RoomFor(s, outputDir + [encounterId])
    requires VariantsBelow(s, outputDir + [encounterId], 0)
    ensures var t := SaveAll(s, outputDir, encounterId, documents);
      && t.Valid()
      && (forall i :: 0 <= i < |documents| ==>
            RunFile(outputDir, encounterId, i) in t.files && t.files[RunFile(outputDir, encounterId, i)] == documents[i])
      && (forall p <- s.files.Keys :: p in t.files && t.files[p] == s.files[p])
      && (forall p <- t.files.Keys :: p in s.files || exists i :: 0 <= i < |documents| && p == RunFile(outputDir, encounterId, i))
  {
    SaveAllTree(s, outputDir, encounterId, documents);
    SaveAllFiles(s, outputDir, encounterId, documents);
    RunFilesContents(outputDir, encounterId, documents);
    RunFilesFresh(s, outputDir, encounterId, documents);
  }

  /** The file system save_document works on. */
  class FileSystem {
    var dirs: set<Path>
    var files: map<Path, string>

    /** The current snapshot. */
    function State(): FsState
      reads this
    {
      FsState(dirs, files)
    }

    constructor(dirs0: set<Path>, files0: map<Path, string>)
      ensures State() == FsState(dirs0, files0)
    {
      dirs := dirs0;
      files := files0;
    }

    /** `Path.exists()`: a directory or a file. */
    predicate Exists(p: Path)
      reads this
    {
      p in dirs || p in files
    }

    /** `mkdir(parents=True, exist_ok=True)`. */
    method MakeDirs(p: Path)
      modifies this
      ensures dirs == old(dirs) + Ancestry(p) && files == old(files)
    {
      dirs := dirs + Ancestry(p);
    }

    /** Opening a file for writing and writing the whole document. */
    method WriteFile(p: Path, content: string)
      modifies this
      ensures files == old(files)[p := content] && dirs == old(dirs)
    {
      files := files[p := content];
    }
  }

  /** save_document: probe variants 0, 1, 2, ... for the first that does not
      exist, create it, probe `0.txt`, `1.txt`, ... in it for the first free
      file name and write the document there. The document type is used
      only in the progress message. */
  method SaveDocument(fs: FileSystem, outputDir: Path, document: string, documentType: string, encounterId: string)
    modifies fs
    ensures fs.State() == SaveSpec(old(fs.State()), outputDir, encounterId, document)
  {
    var base := outputDir + [encounterId];
    var variant := 0;
    var dir := Slot(base, variant, "");
    while fs.Exists(dir)
      invariant fs.State() == old(fs.State())
      invariant dir == Slot(base, variant, "")
      invariant forall k :: 0 <= k < variant ==> Slot(base, k, "") in fs.State().Existing()
      decreases |fs.State().Existing()| - variant
    {
      SlotBound(fs.State().Existing(), base, "", variant + 1);
      variant := variant + 1;
      dir := Slot(base, variant, "");
    }
    LeastFreeIsGap(fs.State().Existing(), base, "", variant);
    assert dir == VariantDir(old(fs.State()), outputDir, encounterId);
    fs.MakeDirs(dir);
    ghost var made := fs.State();
    var counter := 0;
    var file := Slot(dir, counter, ".txt");
    while fs.Exists(file)
      invariant fs.State() == made
      invariant file == Slot(dir, counter, ".txt")
      invariant forall k :: 0 <= k < counter ==> Slot(dir, k, ".txt") in made.Existing()
      decreases |made.Existing()| - counter
    {
      SlotBound(made.Existing(), dir, ".txt", counter + 1);
      counter := counter + 1;
      file := Slot(dir, counter, ".txt");
    }
    assert made.Existing() == old(fs.State()).Existing() + Ancestry(dir);
    LeastFreeIsGap(made.Existing(), dir, ".txt", counter);
    assert file == SavedPath(old(fs.State()), outputDir, encounterId);
    fs.WriteFile(file, document);
  }
}
