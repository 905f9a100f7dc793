/**
 An abstract filesystem: a set of directory paths, a set of non-directory
 entries, the paths whose mode was opened up by `chmod`, the paths the process
 is not allowed to create, and, separately, the paths whose mode it is not
 allowed to change. The two refusal sets stand for the OS-level refusals
 (permissions, read-only mounts, quotas) of `mkdir` and of `chmod`.

 `MkDir`, `MakeDirs` and `Chmod` follow the observable behaviour of the
 operating-system calls the program uses: `mkdir` fails on an existing entry or
 a missing/non-directory parent, `makedirs` first creates missing ancestors
 (keeping them when a later step fails) and, with `existOk`, accepts a path that
 is already a directory.
 */
module FileSystem {
  import opened Maybe

  /** A path is the sequence of its segment names; the empty path is the root. */
  type Path = seq<string>

  datatype FsError = FileExists | NotFound | NotADirectory | PermissionDenied

  datatype FileSystem = FileSystem(
    dirs: set<Path>,
    files: set<Path>,
    chmodded: set<Path>,
    mkdirRefused: set<Path>,
    chmodRefused: set<Path>)

  /** The result of a filesystem call: the state it leaves and the error it raised, if any. */
  datatype FsResult = FsResult(fs: FileSystem, err: Option<FsError>) {
    predicate Ok() { err.None? }
  }

  function Parent(p: Path): Path
    requires p != []
  {
    p[..|p| - 1]
  }

  /** The root always exists and is a directory. */
  predicate IsDir(fs: FileSystem, p: Path) {
    p == [] || p in fs.dirs
  }

  predicate Exists(fs: FileSystem, p: Path) {
    IsDir(fs, p) || p in fs.files
  }

  predicate AncestorsAreDirs(fs: FileSystem, p: Path) {
    forall k | 0 <= k < |p| :: IsDir(fs, p[..k])
  }

  /** A well-formed tree: every entry hangs below directories, and only existing entries carry a mode. */
  ghost predicate Valid(fs: FileSystem) {
    && fs.dirs !! fs.files
    && [] !in fs.files
    && (forall p | p in fs.dirs :: AncestorsAreDirs(fs, p))
    && (forall p | p in fs.files :: AncestorsAreDirs(fs, p))
    && (forall p | p in fs.chmodded :: Exists(fs, p))
  }

  /**
   Every non-root prefix of `p` that `makedirs` would have to create is neither
   a file nor refused.
   */
  ghost predicate Creatable(fs: FileSystem, p: Path) {
    forall k | 1 <= k <= |p| :: p[..k] !in fs.files && (p[..k] !in fs.dirs ==> p[..k] !in fs.mkdirRefused)
  }

  /** One `mkdir`: creates exactly `p` below an existing directory. */
  function MkDir(fs: FileSystem, p: Path): (r: FsResult)
    ensures r.Ok() ==> r.fs == fs.(dirs := fs.dirs + {p}) && !Exists(fs, p)
    ensures !r.Ok() ==> r.fs == fs
  {
    if Exists(fs, p) then FsResult(fs, Some(FileExists))
    else if Parent(p) in fs.files then FsResult(fs, Some(NotADirectory))
    else if !IsDir(fs, Parent(p)) then FsResult(fs, Some(NotFound))
    else if p in fs.mkdirRefused then FsResult(fs, Some(PermissionDenied))
    else FsResult(fs.(dirs := fs.dirs + {p}), None)
  }

  /** `makedirs(p, exist_ok=existOk)`: missing ancestors first, then `p` itself. */
  function MakeDirs(fs: FileSystem, p: Path, existOk: bool): (r: FsResult)
    ensures r.Ok() ==> IsDir(r.fs, p)
    decreases |p|
  {
    var pre := if p != [] && !Exists(fs, Parent(p)) then MakeDirs(fs, Parent(p), existOk) else FsResult(fs, None);
    if !pre.Ok() then pre
    else
      var made := MkDir(pre.fs, p);
      if !made.Ok() && existOk && IsDir(pre.fs, p) then FsResult(pre.fs, None) else made
  }

  /** `chmod(p, 0o777)`, recorded as membership of `chmodded`. */
  function Chmod(fs: FileSystem, p: Path): (r: FsResult)
    ensures r.Ok() <==> Exists(fs, p) && p !in fs.chmodRefused
    ensures r.Ok() ==> r.fs == fs.(chmodded := fs.chmodded + {p})
    ensures !r.Ok() ==> r.fs == fs
  {
    if !Exists(fs, p) then FsResult(fs, Some(NotFound))
    else if p in fs.chmodRefused then FsResult(fs, Some(PermissionDenied))
    else FsResult(fs.(chmodded := fs.chmodded + {p}), None)
  }

  /** Adding a directory whose parent is a directory keeps the tree well formed. */
  lemma AddDirKeepsValid(fs: FileSystem, p: Path)
    requires Valid(fs)
    requires p != [] && IsDir(fs, Parent(p)) && p !in fs.files
    ensures Valid(fs.(dirs := fs.dirs + {p}))
  {
    var fs' := fs.(dirs := fs.dirs + {p});
    assert AncestorsAreDirs(fs', p) by {
      forall k | 0 <= k < |p|
        ensures IsDir(fs', p[..k])
      {
        if k < |p| - 1 {
          assert Parent(p)[..k] == p[..k];
          if Parent(p) != [] {
            assert AncestorsAreDirs(fs, Parent(p));
          }
        } else {
          assert p[..k] == Parent(p);
        }
      }
    }
    forall q | q in fs.dirs
      ensures AncestorsAreDirs(fs', q)
    {
      assert AncestorsAreDirs(fs, q);
    }
    forall q | q in fs.files
      ensures AncestorsAreDirs(fs', q)
    {
      assert AncestorsAreDirs(fs, q);
    }
  }

  /** An existing entry hangs below a directory. */
  lemma ParentOfEntryIsDir(fs: FileSystem, p: Path)
    requires Valid(fs)
    requires p != []
    ensures Exists(fs, p) ==> IsDir(fs, Parent(p))
  {
    if Exists(fs, p) {
      assert AncestorsAreDirs(fs, p);
      assert p[..|p| - 1] == Parent(p);
    }
  }

  /**
   `makedirs` keeps the tree well formed, touches nothing but directories along
   `p`, and succeeds exactly when `p` already is a directory and `existOk` is
   set, or when every missing step towards `p` can be created.
   */
  lemma {:induction false} MakeDirsSpec(fs: FileSystem, p: Path, existOk: bool)
    requires Valid(fs)
    ensures Valid(MakeDirs(fs, p, existOk).fs)
    ensures MakeDirs(fs, p, existOk).fs.files == fs.files
    ensures MakeDirs(fs, p, existOk).fs.chmodded == fs.chmodded
    ensures MakeDirs(fs, p, existOk).fs.mkdirRefused == fs.mkdirRefused
    ensures MakeDirs(fs, p, existOk).fs.chmodRefused == fs.chmodRefused
    ensures fs.dirs <= MakeDirs(fs, p, existOk).fs.dirs
    ensures forall q | q in MakeDirs(fs, p, existOk).fs.dirs && q !in fs.dirs :: q <= p
    ensures MakeDirs(fs, p, existOk).Ok() <==> if IsDir(fs, p) then existOk else Creatable(fs, p)
    ensures MakeDirs(fs, p, existOk).Ok() ==> IsDir(MakeDirs(fs, p, existOk).fs, p)
    decreases |p|
  {
    var r := MakeDirs(fs, p, existOk);
    if p == [] {
      return;
    }
    var up := Parent(p);
    if !Exists(fs, up) {
      MakeDirsSpec(fs, up, existOk);
      ParentOfEntryIsDir(fs, p);
      var pre := MakeDirs(fs, up, existOk);
      assert !IsDir(fs, up);
      if pre.Ok() {
        assert !(p <= up);
        assert !Exists(pre.fs, p);
        if p !in fs.mkdirRefused {
          AddDirKeepsValid(pre.fs, p);
        }
        assert r.Ok() <==> p !in fs.mkdirRefused;
        assert Creatable(fs, p) <==> Creatable(fs, up) && p !in fs.mkdirRefused by {
          forall k | 1 <= k <= |up|
            ensures up[..k] == p[..k]
          {
          }
          assert p[..|p|] == p;
        }
      } else {
        assert !Creatable(fs, p) by {
          var k :| 1 <= k <= |up| && !(up[..k] !in fs.files && (up[..k] !in fs.dirs ==> up[..k] !in fs.mkdirRefused));
          assert up[..k] == p[..k];
        }
      }
    } else {
      // The parent is already there: a single mkdir decides.
      if IsDir(fs, p) {
        assert MkDir(fs, p).err == Some(FileExists);
      } else if p in fs.files {
        assert p[..|p|] == p;
      } else if up in fs.files {
        assert p[..|p| - 1] == up;
      } else {
        assert IsDir(fs, up);
        assert Creatable(fs, p) <==> p !in fs.mkdirRefused by {
          forall k | 1 <= k < |p|
            ensures p[..k] in fs.dirs
          {
            assert p[..k] == up[..k];
            if up != [] {
              assert AncestorsAreDirs(fs, up);
            }
            assert IsDir(fs, up[..k]) by {
              if k < |up| {
                assert AncestorsAreDirs(fs, up);
              } else {
                assert up[..k] == up;
              }
            }
          }
          assert p[..|p|] == p;
        }
        if p !in fs.mkdirRefused {
          AddDirKeepsValid(fs, p);
        }
      }
    }
  }
}
