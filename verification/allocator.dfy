/**
 The acquisition-directory allocator of `Scraper`: it makes sure
 `<cases>/<case name>/<acquisition type>` exists and creates the next
 `acquisition_<N>` directory below it, then creates sub-directories inside the
 allocated directory on request.
 */
module Allocator {
  import opened Maybe
  import opened FileSystem
  import opened AcquisitionNames

  /** Why an allocation step failed (the cause shown in the error dialog). */
  datatype Cause = Os(error: FsError) | CaseNameMissing | DirectoryNotSet

  /** The filesystem afterwards and what `acquisition_directory` holds. */
  datatype Allocation =
    | Allocated(fs: FileSystem, dir: Path)
    | NotAllocated(fs: FileSystem, cause: Cause)
  {
    /** The attribute after the call: the new path, or `None` after any failure. */
    function Directory(): Option<Path> {
      if Allocated? then Some(dir) else None
    }
  }

  datatype Attempt = Done(fs: FileSystem) | Refused(fs: FileSystem, cause: Cause)

  function TypeFolder(casesRoot: Path, caseName: string, acquisitionType: string): Path {
    casesRoot + [caseName, acquisitionType]
  }

  /** The names of the directories directly inside `folder` (a listing filtered by "is a directory"). */
  function ChildDirNames(fs: FileSystem, folder: Path): set<string> {
    set p | p in fs.dirs && |p| == |folder| + 1 && p[..|folder|] == folder :: p[|folder|]
  }

  /** The folder is created, with open permissions, only when nothing exists at its path. */
  function EnsureFolder(fs: FileSystem, p: Path): (r: FsResult)
    ensures Exists(fs, p) ==> r == FsResult(fs, None)
    ensures !Exists(fs, p) && r.Ok() ==> p in r.fs.chmodded && IsDir(r.fs, p)
  {
    if Exists(fs, p) then FsResult(fs, None)
    else
      var made := MakeDirs(fs, p, false);
      if !made.Ok() then made else Chmod(made.fs, p)
  }

  /**
   The directory to create below `typeFolder`: `acquisition_1` unless that
   already is a directory, and only then one past the largest index among the
   matching sibling directories.
   */
  function NextDirectory(fs: FileSystem, typeFolder: Path): (dir: Path)
    ensures |dir| == |typeFolder| + 1 && dir[..|typeFolder|] == typeFolder
  {
    var first := typeFolder + [FirstName];
    if IsDir(fs, first) then typeFolder + [Name(MaxIndex(ChildDirNames(fs, typeFolder)) + 1)]
    else first
  }

  /** `create_acquisition_directory`, with the configured cases folder and the case record as inputs. */
  function CreateAcquisitionDirectory(fs: FileSystem, casesRoot: Path, caseInfo: map<string, string>,
                                      acquisitionType: string): (r: Allocation)
    ensures "name" !in caseInfo ==> r.NotAllocated?
    ensures r.Allocated? ==> IsDir(r.fs, r.dir)
  {
    var cases := EnsureFolder(fs, casesRoot);
    if !cases.Ok() then NotAllocated(cases.fs, Os(cases.err.value))
    else if "name" !in caseInfo then NotAllocated(cases.fs, CaseNameMissing)
    else
      var caseFolder := casesRoot + [caseInfo["name"]];
      var named := EnsureFolder(cases.fs, caseFolder);
      if !named.Ok() then NotAllocated(named.fs, Os(named.err.value))
      else
        var typeFolder := caseFolder + [acquisitionType];
        var typed := EnsureFolder(named.fs, typeFolder);
        if !typed.Ok() then NotAllocated(typed.fs, Os(typed.err.value))
        else
          var dir := NextDirectory(typed.fs, typeFolder);
          var made := MakeDirs(typed.fs, dir, true);
          if !made.Ok() then NotAllocated(made.fs, Os(made.err.value))
          else Allocated(made.fs, dir)
  }

  /** `create_acquisition_subdirectory`: `dir` is the current `acquisition_directory`. */
  function CreateAcquisitionSubdirectory(fs: FileSystem, dir: Option<Path>, sub: Path): (r: Attempt)
    ensures dir.None? ==> r == Refused(fs, DirectoryNotSet)
  {
    if dir.None? then Refused(fs, DirectoryNotSet)
    else
      var full := dir.value + sub;
      var made := MakeDirs(fs, full, true);
      if !made.Ok() then Refused(made.fs, Os(made.err.value))
      else
        var widened := Chmod(made.fs, full);
        if !widened.Ok() then Refused(widened.fs, Os(widened.err.value)) else Done(widened.fs)
  }

  /** Nothing on the way to or below `folder` is a file or refused by the OS. */
  ghost predicate Unobstructed(fs: FileSystem, folder: Path) {
    && (forall q | q in fs.files :: !(q <= folder) && !(folder <= q))
    && (forall q | q in fs.mkdirRefused :: !(q <= folder) && !(folder <= q))
    && (forall q | q in fs.chmodRefused :: !(q <= folder) && !(folder <= q))
  }

  /** The folders of the chain that did not exist before the call. */
  function NewFolders(fs: FileSystem, chain: set<Path>): set<Path> {
    set q | q in chain && !Exists(fs, q)
  }

  /**
   `EnsureFolder` keeps the tree well formed, only adds directories along `p`,
   opens the mode of `p` exactly when it created it and was allowed to, and
   fails only when `p` is missing and either cannot be created or its mode
   cannot be changed; in the latter case the folder has been created anyway.
   */
  lemma EnsureFolderSpec(fs: FileSystem, p: Path)
    requires Valid(fs)
    ensures var r := EnsureFolder(fs, p);
      && Valid(r.fs)
      && r.fs.files == fs.files && r.fs.mkdirRefused == fs.mkdirRefused && r.fs.chmodRefused == fs.chmodRefused
      && fs.dirs <= r.fs.dirs
      && (forall q | q in r.fs.dirs && q !in fs.dirs :: q <= p)
      && r.fs.chmodded == (if r.Ok() && !Exists(fs, p) then fs.chmodded + {p} else fs.chmodded)
      && (r.Ok() <==> Exists(fs, p) || (Creatable(fs, p) && p !in fs.chmodRefused))
      && (r.Ok() || Creatable(fs, p) ==> Exists(r.fs, p))
  {
    if !Exists(fs, p) {
      MakeDirsSpec(fs, p, false);
      var made := MakeDirs(fs, p, false);
      if made.Ok() {
        assert p[..|p|] == p;
      }
    }
  }

  /** Directories added no deeper than `folder` leave its listing and the next name unchanged. */
  lemma NextDirectoryStable(fs: FileSystem, fs': FileSystem, folder: Path)
    requires fs.dirs <= fs'.dirs
    requires forall q | q in fs'.dirs && q !in fs.dirs :: |q| <= |folder|
    ensures ChildDirNames(fs', folder) == ChildDirNames(fs, folder)
    ensures IsDir(fs', folder + [FirstName]) == IsDir(fs, folder + [FirstName])
    ensures NextDirectory(fs', folder) == NextDirectory(fs, folder)
  {
    assert ChildDirNames(fs', folder) == ChildDirNames(fs, folder) by {
      forall n | n in ChildDirNames(fs', folder)
        ensures n in ChildDirNames(fs, folder)
      {
        var p :| p in fs'.dirs && |p| == |folder| + 1 && p[..|folder|] == folder && p[|folder|] == n;
        assert p in fs.dirs;
      }
    }
  }

  /** A directory one level below `folder` appears in its listing. */
  lemma ListedIfChild(fs: FileSystem, folder: Path, p: Path)
    requires |p| == |folder| + 1 && p[..|folder|] == folder
    ensures p in fs.dirs ==> p[|folder|] in ChildDirNames(fs, folder)
  {
  }

  /** The chosen directory is not a directory of the listing it was chosen from. */
  lemma NextDirectoryNotADirectory(fs: FileSystem, folder: Path)
    ensures !IsDir(fs, NextDirectory(fs, folder))
  {
    var dir := NextDirectory(fs, folder);
    if IsDir(fs, folder + [FirstName]) {
      NextNameIsFresh(ChildDirNames(fs, folder));
      ListedIfChild(fs, folder, dir);
    }
  }

  /**
   Which name is chosen: `acquisition_1` while that is not a directory,
   otherwise one past the largest index among the matching directories in the
   type folder, so above every one of them.
   */
  lemma NextDirectoryChoice(fs: FileSystem, typeFolder: Path)
    ensures var n := NextDirectory(fs, typeFolder)[|typeFolder|];
      && Matches(n)
      && (!IsDir(fs, typeFolder + [FirstName]) ==> n == FirstName)
      && (IsDir(fs, typeFolder + [FirstName]) ==>
            && Index(n) == MaxIndex(ChildDirNames(fs, typeFolder)) + 1
            && forall c | c in ChildDirNames(fs, typeFolder) && Matches(c) :: Index(c) < Index(n))
  {
    var names := ChildDirNames(fs, typeFolder);
    FirstNameIndex();
    NameRoundTrip(MaxIndex(names) + 1);
    NextNameIsFresh(names);
  }

  /** Only directories are listed: files in the type folder never change the choice. */
  lemma NextDirectoryIgnoresFiles(fs: FileSystem, files: set<Path>, typeFolder: Path)
    ensures NextDirectory(fs.(files := files), typeFolder) == NextDirectory(fs, typeFolder)
  {
  }

  /**
   With `acquisition_3` as the only directory in the type folder, the choice is
   `acquisition_1`: the scan only happens once `acquisition_1` exists.
   */
  lemma FirstNameBeforeScan(fs: FileSystem, typeFolder: Path, k: nat)
    requires k == 3
    requires ChildDirNames(fs, typeFolder) == {Name(k)}
    ensures NextDirectory(fs, typeFolder) == typeFolder + [FirstName]
  {
    NameRoundTrip(k);
    FirstNameIndex();
    assert FirstName !in ChildDirNames(fs, typeFolder);
    var first := typeFolder + [FirstName];
    assert first[|typeFolder|] == FirstName && first[..|typeFolder|] == typeFolder;
    ListedIfChild(fs, typeFolder, first);
  }

  /**
   Directories for 1, 3 and 5, a directory `notes`, a directory `acquisition_x`
   and a file for 9 in the type folder: the choice is `acquisition_6`, so gaps
   stay and the file does not count.
   */
  lemma GapsKeptInTypeFolder(fs: FileSystem, typeFolder: Path, a: nat, b: nat, c: nat, d: nat)
    requires a == 1 && b == 3 && c == 5 && d == 9
    requires ChildDirNames(fs, typeFolder) == {Name(a), Name(b), Name(c), "notes", "acquisition_x"}
    requires typeFolder + [Name(d)] in fs.files
    ensures NextDirectory(fs, typeFolder) == typeFolder + [Name(c + 1)]
  {
    var names := ChildDirNames(fs, typeFolder);
    assert IsDir(fs, typeFolder + [FirstName]) by {
      assert FirstName == Name(a);
      assert FirstName in names;
      var p :| p in fs.dirs && |p| == |typeFolder| + 1 && p[..|typeFolder|] == typeFolder && p[|typeFolder|] == FirstName;
      assert p == typeFolder + [FirstName];
    }
    assert MaxIndex(names) == c by {
      GapsAreNotFilled(a, b, c);
    }
  }

  /**
   A folder whose mode may not be changed: the first attempt creates it and
   then fails at the `chmod`; the retry finds it existing, skips it and
   succeeds, so the folder stays without open permissions.
   */
  lemma ChmodRefusedRetrySkips(fs: FileSystem, p: Path)
    requires Valid(fs)
    requires !Exists(fs, p) && Creatable(fs, p) && p in fs.chmodRefused
    ensures var first := EnsureFolder(fs, p);
      var retry := EnsureFolder(first.fs, p);
      && !first.Ok() && IsDir(first.fs, p)
      && retry.Ok() && retry.fs == first.fs
      && p !in retry.fs.chmodded
  {
    EnsureFolderSpec(fs, p);
    assert p[..|p|] == p;
  }

  /**
   Three nested folders made sure of in turn: the tree stays well formed, new
   directories lie no deeper than the innermost folder, and exactly the
   folders that were missing got their mode opened.
   */
  lemma EnsureChainSpec(fs: FileSystem, a: Path, b: Path, c: Path)
    requires Valid(fs)
    requires a <= b <= c && |a| < |b| < |c|
    requires EnsureFolder(fs, a).Ok()
    requires EnsureFolder(EnsureFolder(fs, a).fs, b).Ok()
    requires EnsureFolder(EnsureFolder(EnsureFolder(fs, a).fs, b).fs, c).Ok()
    ensures var r := EnsureFolder(EnsureFolder(EnsureFolder(fs, a).fs, b).fs, c);
      && Valid(r.fs)
      && r.fs.files == fs.files && r.fs.mkdirRefused == fs.mkdirRefused && r.fs.chmodRefused == fs.chmodRefused
      && fs.dirs <= r.fs.dirs
      && (forall q | q in r.fs.dirs && q !in fs.dirs :: |q| <= |c|)
      && r.fs.chmodded == fs.chmodded + NewFolders(fs, {a, b, c})
  {
    var r1 := EnsureFolder(fs, a);
    EnsureFolderSpec(fs, a);
    var r2 := EnsureFolder(r1.fs, b);
    EnsureFolderSpec(r1.fs, b);
    var r3 := EnsureFolder(r2.fs, c);
    EnsureFolderSpec(r2.fs, c);
    assert Exists(r1.fs, b) == Exists(fs, b);
    assert Exists(r2.fs, c) == Exists(fs, c) by {
      assert forall q | q in r2.fs.dirs && q !in fs.dirs :: |q| <= |b|;
    }
    assert NewFolders(fs, {a, b, c})
        == (if Exists(fs, a) then {} else {a})
         + (if Exists(fs, b) then {} else {b})
         + (if Exists(fs, c) then {} else {c});
  }

  /** Creating the folder of an unobstructed chain always succeeds. */
  lemma EnsureFolderUnobstructed(fs: FileSystem, p: Path, folder: Path)
    requires Valid(fs)
    requires p <= folder && Unobstructed(fs, folder)
    ensures EnsureFolder(fs, p).Ok()
  {
    EnsureFolderSpec(fs, p);
    forall k | 1 <= k <= |p|
      ensures p[..k] !in fs.files && p[..k] !in fs.mkdirRefused
    {
      assert p[..k] <= folder;
    }
  }

  /**
   After a successful `create_acquisition_directory` the cases, case and type
   folders and the new directory all exist as directories; the new directory
   is the one `NextDirectory` picks on the filesystem as it was before the
   call and nothing existed at its path; only the folders that were created
   got their mode opened, the acquisition directory itself did not.
   */
  lemma AllocationSpec(fs: FileSystem, casesRoot: Path, caseInfo: map<string, string>, acquisitionType: string)
    requires Valid(fs)
    ensures var r := CreateAcquisitionDirectory(fs, casesRoot, caseInfo, acquisitionType);
      && Valid(r.fs)
      && r.fs.files == fs.files && r.fs.mkdirRefused == fs.mkdirRefused && r.fs.chmodRefused == fs.chmodRefused
      && fs.dirs <= r.fs.dirs
      && (r.Allocated? ==>
            var caseFolder := casesRoot + [caseInfo["name"]];
            var typeFolder := TypeFolder(casesRoot, caseInfo["name"], acquisitionType);
            && IsDir(r.fs, casesRoot) && IsDir(r.fs, caseFolder) && IsDir(r.fs, typeFolder)
            && IsDir(r.fs, r.dir)
            && r.dir == NextDirectory(fs, typeFolder)
            && !Exists(fs, r.dir)
            && r.fs.chmodded == fs.chmodded + NewFolders(fs, {casesRoot, caseFolder, typeFolder})
            && r.dir !in r.fs.chmodded)
  {
    var r := CreateAcquisitionDirectory(fs, casesRoot, caseInfo, acquisitionType);
    EnsureFolderSpec(fs, casesRoot);
    var cases := EnsureFolder(fs, casesRoot);
    if !cases.Ok() || "name" !in caseInfo {
      return;
    }
    var caseFolder := casesRoot + [caseInfo["name"]];
    EnsureFolderSpec(cases.fs, caseFolder);
    var named := EnsureFolder(cases.fs, caseFolder);
    if !named.Ok() {
      return;
    }
    var typeFolder := caseFolder + [acquisitionType];
    assert typeFolder == TypeFolder(casesRoot, caseInfo["name"], acquisitionType);
    EnsureFolderSpec(named.fs, typeFolder);
    var typed := EnsureFolder(named.fs, typeFolder);
    if !typed.Ok() {
      return;
    }
    EnsureChainSpec(fs, casesRoot, caseFolder, typeFolder);
    NextDirectoryStable(fs, typed.fs, typeFolder);
    MakeNextDirectorySpec(typed.fs, typeFolder);
    var dir := NextDirectory(typed.fs, typeFolder);
    var made := MakeDirs(typed.fs, dir, true);
    if made.Ok() {
      // The chain above the new directory consists of directories.
      assert dir[..|casesRoot|] == casesRoot && dir[..|caseFolder|] == caseFolder && dir[..|typeFolder|] == typeFolder;
    }
  }

  /**
   Creating the chosen directory succeeds only where nothing existed; then it
   and every folder above it are directories, and it carries no opened mode.
   */
  lemma MakeNextDirectorySpec(fs: FileSystem, typeFolder: Path)
    requires Valid(fs)
    ensures var dir := NextDirectory(fs, typeFolder);
      var made := MakeDirs(fs, dir, true);
      && Valid(made.fs)
      && made.fs.files == fs.files && made.fs.mkdirRefused == fs.mkdirRefused && made.fs.chmodRefused == fs.chmodRefused && made.fs.chmodded == fs.chmodded
      && fs.dirs <= made.fs.dirs
      && (made.Ok() ==> !Exists(fs, dir) && IsDir(made.fs, dir) && AncestorsAreDirs(made.fs, dir) && dir !in made.fs.chmodded)
  {
    var dir := NextDirectory(fs, typeFolder);
    MakeDirsSpec(fs, dir, true);
    NextDirectoryNotADirectory(fs, typeFolder);
    assert dir[..|dir|] == dir;
  }

  /** Without files or refusals in the way, allocation always succeeds. */
  lemma AllocationSucceedsWhenUnobstructed(fs: FileSystem, casesRoot: Path, caseInfo: map<string, string>,
                                            acquisitionType: string)
    requires Valid(fs)
    requires "name" in caseInfo
    requires Unobstructed(fs, TypeFolder(casesRoot, caseInfo["name"], acquisitionType))
    ensures CreateAcquisitionDirectory(fs, casesRoot, caseInfo, acquisitionType).Allocated?
  {
    var typeFolder := TypeFolder(casesRoot, caseInfo["name"], acquisitionType);
    var caseFolder := casesRoot + [caseInfo["name"]];
    assert caseFolder + [acquisitionType] == typeFolder;
    assert casesRoot <= typeFolder && caseFolder <= typeFolder;
    EnsureFolderSpec(fs, casesRoot);
    EnsureFolderUnobstructed(fs, casesRoot, typeFolder);
    var cases := EnsureFolder(fs, casesRoot);
    EnsureFolderSpec(cases.fs, caseFolder);
    EnsureFolderUnobstructed(cases.fs, caseFolder, typeFolder);
    var named := EnsureFolder(cases.fs, caseFolder);
    EnsureFolderSpec(named.fs, typeFolder);
    EnsureFolderUnobstructed(named.fs, typeFolder, typeFolder);
    var typed := EnsureFolder(named.fs, typeFolder);
    var dir := NextDirectory(typed.fs, typeFolder);
    MakeDirsSpec(typed.fs, dir, true);
    forall k | 1 <= k <= |dir|
      ensures dir[..k] !in typed.fs.files && dir[..k] !in typed.fs.mkdirRefused
    {
      if k <= |typeFolder| {
        assert dir[..k] <= typeFolder;
      } else {
        assert typeFolder <= dir[..k];
      }
    }
  }

  /**
   `create_acquisition_subdirectory` fails without an acquisition directory;
   otherwise it succeeds exactly when `dir/sub` is or can be made a directory
   whose mode may be changed, and then `dir/sub` is a directory with open
   permissions.
   */
  lemma SubdirectorySpec(fs: FileSystem, dir: Option<Path>, sub: Path)
    requires Valid(fs)
    ensures var r := CreateAcquisitionSubdirectory(fs, dir, sub);
      && Valid(r.fs)
      && r.fs.files == fs.files && r.fs.mkdirRefused == fs.mkdirRefused && r.fs.chmodRefused == fs.chmodRefused
      && (r.Done? <==> dir.Some? && (IsDir(fs, dir.value + sub) || Creatable(fs, dir.value + sub))
                                 && dir.value + sub !in fs.chmodRefused)
      && (r.Done? ==> IsDir(r.fs, dir.value + sub) && dir.value + sub in r.fs.chmodded)
  {
    if dir.Some? {
      var full := dir.value + sub;
      MakeDirsSpec(fs, full, true);
    }
  }

  /** A second identical call succeeds and changes nothing. */
  lemma SubdirectoryIdempotent(fs: FileSystem, dir: Option<Path>, sub: Path)
    requires Valid(fs)
    requires CreateAcquisitionSubdirectory(fs, dir, sub).Done?
    ensures var once := CreateAcquisitionSubdirectory(fs, dir, sub);
      CreateAcquisitionSubdirectory(once.fs, dir, sub) == once
  {
    SubdirectorySpec(fs, dir, sub);
    var once := CreateAcquisitionSubdirectory(fs, dir, sub);
    var full := dir.value + sub;
    assert once.fs == once.fs.(chmodded := once.fs.chmodded + {full});
  }
}
