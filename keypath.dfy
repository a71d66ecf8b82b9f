/** Resolution of the public-key path handed to `ssh-copy-id`.
    The home directory is a parameter (`None` when it cannot be determined),
    and the file system is the set of paths that exist. */
module KeyPath {
  import opened Types
  import opened Strings

  /** Unix `PathBuf::join`: an absolute part replaces the base; otherwise a
      separator is inserted when the base is non-empty and lacks a trailing one. */
  function Join(base: string, part: string): (p: string)
    ensures StartsWith(part, "/") ==> p == part
  {
    if |part| > 0 && part[0] == '/' then part
    else if |base| > 0 && base[|base| - 1] != '/' then base + "/" + part
    else base + part
  }

  predicate EndsWith(s: string, suffix: string) {
    |suffix| <= |s| && s[|s| - |suffix|..] == suffix
  }

  /** The joined path always ends with the joined part, and starts with the base
      when the part is relative. */
  lemma JoinKeepsBoth(base: string, part: string)
    ensures EndsWith(Join(base, part), part)
    ensures !StartsWith(part, "/") ==> StartsWith(Join(base, part), base)
  {
    var p := Join(base, part);
    if !(|part| > 0 && part[0] == '/') {
      assert p[..|base|] == base;
    }
    assert p[|p| - |part|..] == part;
  }

  /** The path a `~/` shorthand stands for, or the path itself. */
  function Expand(keyPath: string, home: Option<string>): (r: Result<string>)
    ensures r.Err? ==> StartsWith(keyPath, "~/") && home.None? && r.error == InvalidKeyPath(keyPath)
    ensures r.Ok? && !StartsWith(keyPath, "~/") ==> r.value == keyPath
  {
    if StartsWith(keyPath, "~/") then
      match home
      case Some(dir) => Ok(Join(dir, keyPath[2..]))
      case None => Err(InvalidKeyPath(keyPath))
    else
      Ok(keyPath)
  }

  /** `validate_key_path`: expand, then insist that the result exists. */
  function ValidateKeyPath(keyPath: string, home: Option<string>, existing: set<string>): (r: Result<string>)
    ensures r.Ok? ==> r.value in existing
    ensures r.Err? ==> r.error.InvalidKeyPath?
  {
    match Expand(keyPath, home)
    case Err(e) => Err(e)
    case Ok(path) => if path in existing then Ok(path) else Err(InvalidKeyPath(path))
  }

  /** A `~/` path with a known home resolves to home joined with everything after
      the two-character prefix; when that file is missing, the error carries the
      expanded path. */
  lemma TildeExpandsUnderHome(keyPath: string, home: string, existing: set<string>)
    requires StartsWith(keyPath, "~/")
    ensures var full := Join(home, keyPath[2..]);
            ValidateKeyPath(keyPath, Some(home), existing)
              == if full in existing then Ok(full) else Err(InvalidKeyPath(full))
  {
  }

  /** With no home directory a `~/` path fails, and the error carries the
      original, unexpanded string, whatever exists on disk. */
  lemma TildeWithoutHomeFails(keyPath: string, existing: set<string>)
    requires StartsWith(keyPath, "~/")
    ensures ValidateKeyPath(keyPath, None, existing) == Err(InvalidKeyPath(keyPath))
  {
  }

  /** Any other path (a bare `~` included) is used as written: it resolves to
      itself exactly when it exists, and the home directory plays no part. */
  lemma OtherPathsUnchanged(keyPath: string, home: Option<string>, existing: set<string>)
    requires !StartsWith(keyPath, "~/")
    ensures ValidateKeyPath(keyPath, home, existing)
              == if keyPath in existing then Ok(keyPath) else Err(InvalidKeyPath(keyPath))
  {
  }

  /** The default key `~/.ssh/id_rsa.pub` under a home such as `/home/pi`
      resolves to `/home/pi/.ssh/id_rsa.pub`, or fails naming that path. */
  lemma DefaultKeyUnderHome(home: string, existing: set<string>)
    requires |home| > 0 && home[|home| - 1] != '/'
    ensures var full := home + "/.ssh/id_rsa.pub";
            ValidateKeyPath("~/.ssh/id_rsa.pub", Some(home), existing)
              == if full in existing then Ok(full) else Err(InvalidKeyPath(full))
  {
    var key := "~/.ssh/id_rsa.pub";
    assert key[..2] == "~/";
    assert key[2..] == ".ssh/id_rsa.pub";
    assert ".ssh/id_rsa.pub"[0] == '.';
    assert home + "/" + ".ssh/id_rsa.pub" == home + "/.ssh/id_rsa.pub";
  }

  /** A missing absolute path such as `/nonexistent/key.pub` is rejected. */
  lemma MissingPathRejected(existing: set<string>)
    requires "/nonexistent/key.pub" !in existing
    ensures ValidateKeyPath("/nonexistent/key.pub", None, existing).Err?
  {
    var key := "/nonexistent/key.pub";
    assert key[..2][0] == '/';
  }
}
