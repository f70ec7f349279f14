/** sanitize_app_name (orchestrator.py:75-86): derive a directory-safe
    application name from a repository URL. */
module AppName {
  import opened Http

  /** The path the name is taken from: urlparse's path component, or the
      whole repo_url when that component is empty or urlparse raised
      (`parsedPath` is None). */
  function RepoPath(repoUrl: string, parsedPath: Option<string>): (path: string)
    ensures path == repoUrl || Some(path) == parsedPath
    ensures repoUrl != "" ==> path != ""
  {
    if parsedPath.Some? && parsedPath.value != "" then parsedPath.value else repoUrl
  }

  /** os.path.basename on a POSIX path: the part after the last '/'. */
  function Basename(path: string): (b: string)
    ensures '/' !in b
    ensures |b| <= |path| && b == path[|path| - |b|..]
    ensures |b| < |path| ==> path[|path| - |b| - 1] == '/'
    decreases |path|
  {
    if path == [] || path[|path| - 1] == '/' then []
    else Basename(path[..|path| - 1]) + [path[|path| - 1]]
  }

  predicate EndsWithGit(s: string) {
    |s| >= 4 && s[|s| - 4..] == ".git"
  }

  /** The basename with one trailing ".git" removed. */
  function StripGit(base: string): (name: string)
    ensures name <= base
    ensures |name| == if EndsWithGit(base) then |base| - 4 else |base|
  {
    if EndsWithGit(base) then base[..|base| - 4] else base
  }

  /** Python's `".." in s`. */
  predicate HasDotDot(s: string) {
    exists i :: 0 <= i < |s| - 1 && s[i] == '.' && s[i + 1] == '.'
  }

  /** The derived name is usable as a directory name. */
  predicate SafeName(s: string) {
    s != "" && '\\' !in s && !HasDotDot(s)
  }

  /** The name derived from `repoUrl`, or the 400 raised when it is unsafe. */
  function SanitizeAppName(repoUrl: string, parsedPath: Option<string>): (r: Result<string>)
    ensures r.Ok? ==> r.value != "" && '/' !in r.value && '\\' !in r.value && !HasDotDot(r.value)
    ensures r.Err? ==> r.error == BadRequest("cannot derive safe app name from repo_url: " + repoUrl)
  {
    var name := StripGit(Basename(RepoPath(repoUrl, parsedPath)));
    if name == "" || '/' in name || '\\' in name || HasDotDot(name) then
      Err(BadRequest("cannot derive safe app name from repo_url: " + repoUrl))
    else
      Ok(name)
  }

  /** Stripping ".git" removes exactly those four characters. */
  lemma StripGitSplit(base: string)
    ensures EndsWithGit(base) ==> StripGit(base) + ".git" == base
    ensures !EndsWithGit(base) ==> StripGit(base) == base
  {
    if EndsWithGit(base) {
      assert base == base[..|base| - 4] + base[|base| - 4..];
    }
  }

  /** The returned name is the basename of the repository path, less one
      trailing ".git" when the basename ends with it. */
  lemma SanitizeStripsGit(repoUrl: string, parsedPath: Option<string>)
    requires SanitizeAppName(repoUrl, parsedPath).Ok?
    ensures var base := Basename(RepoPath(repoUrl, parsedPath));
            var name := SanitizeAppName(repoUrl, parsedPath).value;
            if EndsWithGit(base) then name + ".git" == base else name == base
  {
    StripGitSplit(Basename(RepoPath(repoUrl, parsedPath)));
  }

  /** The '/' test never decides the outcome (a basename holds no '/'):
      sanitising fails exactly when the stripped basename is empty, holds a
      backslash or holds "..". */
  lemma SanitizeOkIff(repoUrl: string, parsedPath: Option<string>)
    ensures SanitizeAppName(repoUrl, parsedPath).Ok? <==> SafeName(StripGit(Basename(RepoPath(repoUrl, parsedPath))))
  {
    var base := Basename(RepoPath(repoUrl, parsedPath));
    if EndsWithGit(base) {
      assert forall c :: c in base[..|base| - 4] ==> c in base;
    }
  }

  /** A name taken from the end of the path: the repository path is a
      prefix that is empty or ends in '/', then the returned name, then
      ".git" when that was stripped. */
  lemma SanitizedNameEndsPath(repoUrl: string, parsedPath: Option<string>)
    requires SanitizeAppName(repoUrl, parsedPath).Ok?
    ensures var path := RepoPath(repoUrl, parsedPath);
            var name := SanitizeAppName(repoUrl, parsedPath).value;
            exists prefix :: (prefix == "" || prefix[|prefix| - 1] == '/')
                             && (path == prefix + name || path == prefix + name + ".git")
  {
    var path := RepoPath(repoUrl, parsedPath);
    SanitizeStripsGit(repoUrl, parsedPath);
    PathEndsWithStrippedBasename(path, SanitizeAppName(repoUrl, parsedPath).value);
  }

  /** The string fact behind SanitizedNameEndsPath. */
  lemma PathEndsWithStrippedBasename(path: string, name: string)
    requires var base := Basename(path);
             if EndsWithGit(base) then name + ".git" == base else name == base
    ensures exists prefix :: (prefix == "" || prefix[|prefix| - 1] == '/')
                             && (path == prefix + name || path == prefix + name + ".git")
  {
    var base := Basename(path);
    var prefix := path[..|path| - |base|];
    assert path == prefix + base;
    if EndsWithGit(base) {
      assert prefix + (name + ".git") == prefix + name + ".git";
    }
    assert (prefix == "" || prefix[|prefix| - 1] == '/')
           && (path == prefix + name || path == prefix + name + ".git");
  }
}
