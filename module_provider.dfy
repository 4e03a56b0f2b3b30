/**
 * The Git module content provider: finds a file of a Startosis module on
 * disk, cloning the module's repository into the modules directory first
 * when it is not there, and stores uploaded module archives. A clone goes to
 * a fresh temporary directory and is moved into place only once complete.
 */
module ModuleProvider {
  import opened Wrappers
  import opened Strings
  import opened FileSystem

  /** A parsed module locator: `github.com/<author>/<name>[/<file path>]`. */
  datatype ParsedGitURL = ParsedGitURL(gitURL: string, moduleAuthor: string, moduleName: string, relativeFilePath: Path)
  {
    /** `<author>/<name>`: where the repository lives below the modules directory. */
    function RelativeRepoPath(): Path
    {
      [moduleAuthor, moduleName]
    }
  }

  /** An interpretation error, with the wrapped cause when there is one. */
  datatype ProviderError = ProviderError(message: string, cause: Option<string>)

  /** How the environment answers the calls of one clone. */
  datatype CloneOutcome = CloneOutcome(
    tempDirName: Result<string, string>,  // the name the system picks for the temporary directory
    repository: Result<Node, string>,     // the cloned tree, or why the clone failed
    mkdirFailure: Option<string>,
    renameFailure: Option<string>)

  /** How the environment answers the calls of one archive upload. */
  datatype StoreOutcome = StoreOutcome(
    removeFailure: Option<string>,
    tempFile: Result<string, string>,  // the temporary archive's name
    written: Result<nat, string>,      // the byte count the write reports
    archive: Result<Node, string>)     // the unpacked tree

  // ---------------------------------------------------------------------------
  // Messages
  // ---------------------------------------------------------------------------

  function Quoted(p: Path): string
  {
    "'" + PathString(p) + "'"
  }

  function TempDirFailed(u: ParsedGitURL, cause: string): ProviderError
  {
    ProviderError("Cloning the module '" + u.gitURL + "' failed. Error creating temporary directory for the repository to be cloned into", Some(cause))
  }

  function CloneFailed(u: ParsedGitURL, clonePath: Path, cause: string): ProviderError
  {
    ProviderError("Error in cloning git repository '" + u.gitURL + "' to " + Quoted(clonePath) +
                  ". This usually indicates a typo in the package or author name; or an authorization issue.", Some(cause))
  }

  /** The error wraps the stat error, which is nil here, so it carries no cause. */
  function AuthorNotDirectory(authorPath: Path): ProviderError
  {
    ProviderError("Expected " + Quoted(authorPath) + " to be a directory but it is something else", None)
  }

  function AuthorDirFailed(u: ParsedGitURL, authorPath: Path, cause: string): ProviderError
  {
    ProviderError("Cloning the module '" + u.gitURL + "' failed. An error occurred while creating the directory " + Quoted(authorPath) + ".", Some(cause))
  }

  function MoveFailed(u: ParsedGitURL, clonePath: Path, modulePath: Path): ProviderError
  {
    ProviderError("Cloning the module '" + u.gitURL + "' failed. An error occurred while moving module at temporary destination " +
                  Quoted(clonePath) + " to final destination " + Quoted(modulePath), None)
  }

  function EmptyRelativePath(locator: string): ProviderError
  {
    ProviderError("The relative path to file is empty for '" + locator + "'", None)
  }

  /** The file path with the repository path cut out once. */
  function FileInsidePackage(u: ParsedGitURL): string
  {
    ReplaceFirst(PathString(u.relativeFilePath), PathString(u.RelativeRepoPath()), "")
  }

  function NotInPackage(u: ParsedGitURL): ProviderError
  {
    ProviderError("'" + FileInsidePackage(u) + "' doesn't exist in the package '" + PathString(u.RelativeRepoPath()) + "'", None)
  }

  function ReadFailed(locator: string, pathToFile: Path, cause: string): ProviderError
  {
    ProviderError("Loading module content for module '" + locator + "' failed. An error occurred in reading contents of the file " + Quoted(pathToFile), Some(cause))
  }

  function RemoveFailed(moduleId: string, modulePath: Path, cause: string): ProviderError
  {
    ProviderError("An error occurred while removing the existing module '" + moduleId + "' from disk at " + Quoted(modulePath), Some(cause))
  }

  function AlreadyExists(modulePath: Path): ProviderError
  {
    ProviderError("Module " + Quoted(modulePath) + " already exists on disk, not overwriting", None)
  }

  function TempFileFailed(moduleId: string): ProviderError
  {
    ProviderError("An error occurred while creating temporary file to write compressed '" + moduleId + "' to", None)
  }

  function WriteFailed(moduleId: string, tempFile: string, cause: string): ProviderError
  {
    ProviderError("An error occurred while writing contents of '" + moduleId + "' to '" + tempFile + "'", Some(cause))
  }

  function ShortWrite(expected: nat, written: nat): ProviderError
  {
    ProviderError("Expected to write '" + NatToString(expected) + "' bytes but wrote '" + NatToString(written) + "'", None)
  }

  function UnarchiveFailed(tempFile: string, modulePath: Path, cause: string): ProviderError
  {
    ProviderError("An error occurred while unarchiving '" + tempFile + "' to " + Quoted(modulePath), Some(cause))
  }

  /** The "doesn't exist in the package" error names the file relative to the repository root. */
  lemma FileInsidePackageIsRelative(u: ParsedGitURL, rest: Path)
    requires u.relativeFilePath == u.RelativeRepoPath() + rest && |rest| > 0
    ensures FileInsidePackage(u) == "/" + PathString(rest)
  {
    var repo := u.RelativeRepoPath();
    var inside := "/" + PathString(rest);
    assert PathString(u.relativeFilePath) == PathString(repo) + inside by {
      PathStringAppend(repo, rest);
    }
    ReplaceFirstPrefix(PathString(repo), inside);
  }

  lemma RepoPathString(u: ParsedGitURL)
    ensures PathString(u.RelativeRepoPath()) == u.moduleAuthor + "/" + u.moduleName
  {
    var repo := u.RelativeRepoPath();
    assert repo[1..] == [u.moduleName];
    assert Join(repo[1..], "/") == u.moduleName;
  }

  // ---------------------------------------------------------------------------
  // The provider
  // ---------------------------------------------------------------------------

  class GitModuleContentProvider {
    const modulesTmpDir: Path
    const modulesDir: Path
    const disk: Disk
    /** Locator parsing, which this model takes as given. */
    const parseGitURL: string -> Result<ParsedGitURL, ProviderError>

    constructor (modulesDir: Path, modulesTmpDir: Path, disk: Disk, parseGitURL: string -> Result<ParsedGitURL, ProviderError>)
      ensures this.modulesDir == modulesDir && this.modulesTmpDir == modulesTmpDir
      ensures this.disk == disk && this.parseGitURL == parseGitURL
    {
      this.modulesDir := modulesDir;
      this.modulesTmpDir := modulesTmpDir;
      this.disk := disk;
      this.parseGitURL := parseGitURL;
    }

    function ModulePath(u: ParsedGitURL): Path
    {
      modulesDir + u.RelativeRepoPath()
    }

    function AuthorPath(u: ParsedGitURL): Path
    {
      modulesDir + [u.moduleAuthor]
    }

    function PathToFile(u: ParsedGitURL): Path
    {
      modulesDir + u.relativeFilePath
    }

    /** The temporary directory a clone uses, named by the system. */
    function TempPath(name: string): Path
    {
      modulesTmpDir + [name]
    }

    /** The author directory as a clone finds it: the existing one, or a new, empty one. */
    function AuthorDirBefore(n: Node, u: ParsedGitURL): Node
    {
      if Exists(n, AuthorPath(u)) then Lookup(n, AuthorPath(u)).value else EmptyDir
    }

    /**
     * What a clone of `u` changed, from the disk `before` to the disk `after`:
     * nothing that lies apart from its temporary directory and the author
     * directory, and not the temporary directory itself. A clone that
     * `succeeded` adds exactly the module to the author directory (made when it
     * was missing); one that failed leaves at most a new, empty author directory.
     */
    ghost predicate ClonedOnly(before: Node, after: Node, u: ParsedGitURL, outcome: CloneOutcome, succeeded: bool)
    {
      (outcome.tempDirName.Err? ==> after == before) &&
      (outcome.tempDirName.Ok? ==>
         SameApartFrom(after, before, TempPath(outcome.tempDirName.value), AuthorPath(u)) &&
         Lookup(after, TempPath(outcome.tempDirName.value)) == Lookup(before, TempPath(outcome.tempDirName.value))) &&
      (succeeded ==>
         outcome.repository.Ok? &&
         Lookup(after, AuthorPath(u)) == Some(Put(AuthorDirBefore(before, u), [u.moduleName], outcome.repository.value))) &&
      (!succeeded ==>
         Lookup(after, AuthorPath(u)) == Lookup(before, AuthorPath(u)) ||
         (!Exists(before, AuthorPath(u)) && Lookup(after, AuthorPath(u)) == Some(EmptyDir)))
    }

    /** The author directory is there, or it is missing and can be created in the modules directory. */
    predicate AuthorDirReady(n: Node, u: ParsedGitURL, mkdirFailure: Option<string>)
    {
      IsDir(n, AuthorPath(u)) || (!Exists(n, AuthorPath(u)) && mkdirFailure.None? && IsDir(n, modulesDir))
    }

    /**
     * Every step of a clone succeeds on the disk `n`: the temporary directory
     * can be made, the clone works, the author directory is or can be made, the
     * module path is free and the move works.
     */
    predicate CloneSucceeds(n: Node, u: ParsedGitURL, outcome: CloneOutcome)
    {
      outcome.tempDirName.Ok? && IsDir(n, modulesTmpDir) && !Exists(n, modulesTmpDir + [outcome.tempDirName.value]) &&
      outcome.repository.Ok? && AuthorDirReady(n, u, outcome.mkdirFailure) &&
      outcome.renameFailure.None? && !Exists(n, ModulePath(u))
    }

    /**
     * Every step of an archive upload succeeds on the disk `n`: the module path
     * is cleared, the whole archive is written and unpacked, and no file stands
     * where the module directory goes.
     */
    predicate StoreSucceeds(n: Node, modulePath: Path, tarSize: nat, overwriteExisting: bool, outcome: StoreOutcome)
    {
      (if overwriteExisting then outcome.removeFailure.None? else !Exists(n, modulePath)) &&
      outcome.tempFile.Ok? && outcome.written == Ok(tarSize) && outcome.archive.Ok? && Placeable(n, modulePath)
    }

    /** Clones the module's repository and returns where it now lives. */
    method CloneModule(moduleId: string, outcome: CloneOutcome) returns (r: Result<Path, ProviderError>)
      requires Apart(modulesDir, modulesTmpDir)
      modifies disk
      ensures parseGitURL(moduleId).Err? ==> r == Err(parseGitURL(moduleId).error) && disk.root == old(disk.root)
      ensures parseGitURL(moduleId).Ok? ==>
        var u := parseGitURL(moduleId).value;
        (r.Ok? ==>
           r.value == ModulePath(u) && !Exists(old(disk.root), ModulePath(u)) &&
           outcome.repository.Ok? && Lookup(disk.root, ModulePath(u)) == Some(outcome.repository.value)) &&
        (r.Err? ==> Lookup(disk.root, ModulePath(u)) == Lookup(old(disk.root), ModulePath(u)))
      // it succeeds exactly when every step of the clone does
      ensures parseGitURL(moduleId).Ok? ==> (r.Ok? <==> CloneSucceeds(old(disk.root), parseGitURL(moduleId).value, outcome))
      // only the author directory changes: it gains the module on success
      ensures parseGitURL(moduleId).Ok? ==> ClonedOnly(old(disk.root), disk.root, parseGitURL(moduleId).value, outcome, r.Ok?)
    {
      var parsed := parseGitURL(moduleId);
      if parsed.Err? {
        return Err(parsed.error);
      }
      var u := parsed.value;
      var modulePath := ModulePath(u);
      var err, tempDir := AtomicClone(u, outcome);
      if err.Some? {
        return Err(err.value);
      }
      return Ok(modulePath);
    }

    /**
     * Where the file a locator names lies on disk: the file's own path when it
     * is there, an error when its module is there without it, and otherwise the
     * path the file has once the module is cloned, whether or not the clone
     * holds it.
     */
    method GetOnDiskAbsoluteFilePath(locator: string, outcome: CloneOutcome) returns (r: Result<Path, ProviderError>)
      requires Apart(modulesDir, modulesTmpDir)
      modifies disk
      ensures parseGitURL(locator).Err? ==> r == Err(parseGitURL(locator).error) && disk.root == old(disk.root)
      // an empty file path is refused before the disk is looked at
      ensures parseGitURL(locator).Ok? && parseGitURL(locator).value.relativeFilePath == [] ==>
        r == Err(EmptyRelativePath(locator)) && disk.root == old(disk.root)
      // a file already on disk is returned without cloning
      ensures parseGitURL(locator).Ok? && parseGitURL(locator).value.relativeFilePath != [] &&
              Exists(old(disk.root), PathToFile(parseGitURL(locator).value)) ==>
        r == Ok(PathToFile(parseGitURL(locator).value)) && disk.root == old(disk.root)
      // a module on disk without the file is a mistake in the locator; nothing is cloned
      ensures parseGitURL(locator).Ok? && parseGitURL(locator).value.relativeFilePath != [] &&
              !Exists(old(disk.root), PathToFile(parseGitURL(locator).value)) &&
              Exists(old(disk.root), ModulePath(parseGitURL(locator).value)) ==>
        r == Err(NotInPackage(parseGitURL(locator).value)) && disk.root == old(disk.root)
      // otherwise the module is cloned and the file's path returned, present or not
      ensures parseGitURL(locator).Ok? && parseGitURL(locator).value.relativeFilePath != [] &&
              !Exists(old(disk.root), PathToFile(parseGitURL(locator).value)) &&
              !Exists(old(disk.root), ModulePath(parseGitURL(locator).value)) ==>
        var u := parseGitURL(locator).value;
        (r.Ok? ==>
           r.value == PathToFile(u) && outcome.repository.Ok? &&
           Lookup(disk.root, ModulePath(u)) == Some(outcome.repository.value) &&
           (u.RelativeRepoPath() <= u.relativeFilePath ==>
              Lookup(disk.root, r.value) == Lookup(outcome.repository.value, u.relativeFilePath[2..]))) &&
        (r.Err? ==> !Exists(disk.root, ModulePath(u))) &&
        (r.Ok? <==> CloneSucceeds(old(disk.root), u, outcome)) &&
        ClonedOnly(old(disk.root), disk.root, u, outcome, r.Ok?)
    {
      var parsed := parseGitURL(locator);
      if parsed.Err? {
        return Err(parsed.error);
      }
      var u := parsed.value;
      if u.relativeFilePath == [] {
        return Err(EmptyRelativePath(locator));
      }
      var pathToFile := PathToFile(u);
      var modulePath := ModulePath(u);
      if Exists(disk.root, pathToFile) {
        return Ok(pathToFile);
      }
      if Exists(disk.root, modulePath) {
        return Err(NotInPackage(u));
      }
      var err, tempDir := AtomicClone(u, outcome);
      if err.Some? {
        return Err(err.value);
      }
      if u.RelativeRepoPath() <= u.relativeFilePath {
        assert pathToFile == modulePath + u.relativeFilePath[2..];
        LookupBelow(disk.root, modulePath, u.relativeFilePath[2..]);
      }
      return Ok(pathToFile);
    }

    /** The contents of the file a locator names, cloning its module first when needed. */
    method GetModuleContents(locator: string, outcome: CloneOutcome) returns (r: Result<string, ProviderError>)
      requires Apart(modulesDir, modulesTmpDir)
      modifies disk
      ensures parseGitURL(locator).Err? ==> r == Err(parseGitURL(locator).error) && disk.root == old(disk.root)
      ensures parseGitURL(locator).Ok? && parseGitURL(locator).value.relativeFilePath == [] ==>
        r == Err(EmptyRelativePath(locator)) && disk.root == old(disk.root)
      // whatever is at the file's path on disk, nothing is cloned
      ensures parseGitURL(locator).Ok? && parseGitURL(locator).value.relativeFilePath != [] &&
              Exists(old(disk.root), PathToFile(parseGitURL(locator).value)) ==>
        disk.root == old(disk.root)
      // a file on disk is read without cloning
      ensures parseGitURL(locator).Ok? && parseGitURL(locator).value.relativeFilePath != [] &&
              Lookup(old(disk.root), PathToFile(parseGitURL(locator).value)).Some? &&
              Lookup(old(disk.root), PathToFile(parseGitURL(locator).value)).value.File? ==>
        r == Ok(Lookup(old(disk.root), PathToFile(parseGitURL(locator).value)).value.content) && disk.root == old(disk.root)
      ensures parseGitURL(locator).Ok? && parseGitURL(locator).value.relativeFilePath != [] &&
              !Exists(old(disk.root), PathToFile(parseGitURL(locator).value)) &&
              Exists(old(disk.root), ModulePath(parseGitURL(locator).value)) ==>
        r == Err(NotInPackage(parseGitURL(locator).value)) && disk.root == old(disk.root)
      // a clone changes only the author directory, which gains the module when the clone succeeds
      ensures parseGitURL(locator).Ok? && parseGitURL(locator).value.relativeFilePath != [] &&
              !Exists(old(disk.root), PathToFile(parseGitURL(locator).value)) &&
              !Exists(old(disk.root), ModulePath(parseGitURL(locator).value)) ==>
        ClonedOnly(old(disk.root), disk.root, parseGitURL(locator).value, outcome,
                   CloneSucceeds(old(disk.root), parseGitURL(locator).value, outcome))
      // what is returned is the contents of the file at the locator's path
      ensures r.Ok? ==>
        parseGitURL(locator).Ok? && Lookup(disk.root, PathToFile(parseGitURL(locator).value)) == Some(File(r.value))
      // a clone that lacks the file ends in a read error
      ensures parseGitURL(locator).Ok? && parseGitURL(locator).value.relativeFilePath != [] &&
              !Exists(old(disk.root), PathToFile(parseGitURL(locator).value)) &&
              !Exists(old(disk.root), ModulePath(parseGitURL(locator).value)) &&
              parseGitURL(locator).value.RelativeRepoPath() <= parseGitURL(locator).value.relativeFilePath &&
              outcome.repository.Ok? &&
              !Exists(outcome.repository.value, parseGitURL(locator).value.relativeFilePath[2..]) ==>
        r.Err?
      // a clone that fails is an error
      ensures parseGitURL(locator).Ok? && parseGitURL(locator).value.relativeFilePath != [] &&
              !Exists(old(disk.root), PathToFile(parseGitURL(locator).value)) &&
              !Exists(old(disk.root), ModulePath(parseGitURL(locator).value)) &&
              !CloneSucceeds(old(disk.root), parseGitURL(locator).value, outcome) ==>
        r.Err?
      // a clone that succeeds and holds the file yields the file's contents
      ensures parseGitURL(locator).Ok? && parseGitURL(locator).value.relativeFilePath != [] &&
              !Exists(old(disk.root), PathToFile(parseGitURL(locator).value)) &&
              !Exists(old(disk.root), ModulePath(parseGitURL(locator).value)) &&
              parseGitURL(locator).value.RelativeRepoPath() <= parseGitURL(locator).value.relativeFilePath &&
              CloneSucceeds(old(disk.root), parseGitURL(locator).value, outcome) &&
              IsFile(outcome.repository.value, parseGitURL(locator).value.relativeFilePath[2..]) ==>
        r == Ok(Lookup(outcome.repository.value, parseGitURL(locator).value.relativeFilePath[2..]).value.content)
    {
      var pathToFile := GetOnDiskAbsoluteFilePath(locator, outcome);
      if pathToFile.Err? {
        return Err(pathToFile.error);
      }
      var contents := disk.ReadFile(pathToFile.value);
      if contents.Err? {
        return Err(ReadFailed(locator, pathToFile.value, contents.error));
      }
      return Ok(contents.value);
    }

    /**
     * Unpacks an uploaded module archive at the module path. Without
     * `overwriteExisting` an existing module is left alone and refused; with
     * it, the existing module is removed first.
     */
    method StoreModuleContents(moduleId: string, moduleTar: seq<bv8>, overwriteExisting: bool, outcome: StoreOutcome)
      returns (r: Result<Path, ProviderError>)
      modifies disk
      ensures parseGitURL(moduleId).Err? ==> r == Err(parseGitURL(moduleId).error) && disk.root == old(disk.root)
      ensures parseGitURL(moduleId).Ok? ==>
        var modulePath := ModulePath(parseGitURL(moduleId).value);
        // without overwriting, an existing module is refused and the disk is untouched
        (!overwriteExisting && Exists(old(disk.root), modulePath) ==>
           r == Err(AlreadyExists(modulePath)) && disk.root == old(disk.root)) &&
        (overwriteExisting && outcome.removeFailure.Some? ==>
           r == Err(RemoveFailed(moduleId, modulePath, outcome.removeFailure.value)) && disk.root == old(disk.root)) &&
        // with overwriting, the existing module is gone even when a later step fails
        (overwriteExisting && outcome.removeFailure.None? && r.Err? ==> !Exists(disk.root, modulePath)) &&
        // past the existence check, a short write is an error
        ((if overwriteExisting then outcome.removeFailure.None? else !Exists(old(disk.root), modulePath)) &&
         outcome.tempFile.Ok? && outcome.written.Ok? && outcome.written.value != |moduleTar| ==>
           r == Err(ShortWrite(|moduleTar|, outcome.written.value))) &&
        // success: the unpacked archive is at the module path, which is returned
        (r.Ok? ==>
           r.value == modulePath && outcome.written == Ok(|moduleTar|) && outcome.archive.Ok? &&
           Lookup(disk.root, modulePath) == Some(outcome.archive.value))
      // it succeeds exactly when every step of the upload does
      ensures parseGitURL(moduleId).Ok? ==>
        (r.Ok? <==> StoreSucceeds(old(disk.root), ModulePath(parseGitURL(moduleId).value), |moduleTar|, overwriteExisting, outcome))
      // the new disk: the old one, cleared of the module when overwriting, with the archive placed on success
      ensures parseGitURL(moduleId).Ok? ==>
        var modulePath := ModulePath(parseGitURL(moduleId).value);
        var cleared := if overwriteExisting && outcome.removeFailure.None? then Remove(old(disk.root), modulePath) else old(disk.root);
        disk.root == if r.Ok? && outcome.archive.Ok? then Put(cleared, modulePath, outcome.archive.value) else cleared
    {
      var parsed := parseGitURL(moduleId);
      if parsed.Err? {
        return Err(parsed.error);
      }
      var modulePath := ModulePath(parsed.value);
      var err := ClearModulePath(moduleId, modulePath, overwriteExisting, outcome.removeFailure);
      if err.Some? {
        return Err(err.value);
      }
      if overwriteExisting {
        RemoveKeepsPlaceable(old(disk.root), modulePath);
      }
      r := UnpackArchive(moduleId, moduleTar, modulePath, outcome);
    }

    /** The first half of a store: removes an existing module when asked to, and refuses one that is still there. */
    method ClearModulePath(moduleId: string, modulePath: Path, overwriteExisting: bool, removeFailure: Option<string>)
      returns (err: Option<ProviderError>)
      requires |modulePath| > 0
      modifies disk
      ensures !overwriteExisting ==> disk.root == old(disk.root)
      ensures !overwriteExisting ==>
        (err.None? <==> !Exists(old(disk.root), modulePath)) &&
        (err.Some? ==> err == Some(AlreadyExists(modulePath)))
      ensures overwriteExisting && removeFailure.Some? ==>
        err == Some(RemoveFailed(moduleId, modulePath, removeFailure.value)) && disk.root == old(disk.root)
      ensures overwriteExisting && removeFailure.None? ==> err.None?
      ensures err.None? ==> !Exists(disk.root, modulePath)
      ensures overwriteExisting && err.None? ==> disk.root == Remove(old(disk.root), modulePath)
    {
      if overwriteExisting {
        var removeError := disk.RemoveAll(modulePath, removeFailure);
        if removeError.Some? {
          return Some(RemoveFailed(moduleId, modulePath, removeError.value));
        }
        RemoveLeavesNothing(old(disk.root), modulePath, modulePath);
      }
      if Exists(disk.root, modulePath) {
        return Some(AlreadyExists(modulePath));
      }
      return None;
    }

    /**
     * The second half of a store: the archive is written to a temporary file
     * outside the modules directory and unpacked at the module path.
     */
    method UnpackArchive(moduleId: string, moduleTar: seq<bv8>, modulePath: Path, outcome: StoreOutcome)
      returns (r: Result<Path, ProviderError>)
      modifies disk
      ensures outcome.tempFile.Ok? && outcome.written.Ok? && outcome.written.value != |moduleTar| ==>
        r == Err(ShortWrite(|moduleTar|, outcome.written.value))
      ensures r.Err? ==> disk.root == old(disk.root)
      ensures r.Ok? ==>
        r.value == modulePath && outcome.written == Ok(|moduleTar|) && outcome.archive.Ok? &&
        Lookup(disk.root, modulePath) == Some(outcome.archive.value)
      ensures r.Ok? <==>
        outcome.tempFile.Ok? && outcome.written == Ok(|moduleTar|) && outcome.archive.Ok? && Placeable(old(disk.root), modulePath)
      // success places exactly the unpacked archive
      ensures r.Ok? ==> outcome.archive.Ok? && disk.root == Put(old(disk.root), modulePath, outcome.archive.value)
    {
      if outcome.tempFile.Err? {
        return Err(TempFileFailed(moduleId));
      }
      var tempFile := outcome.tempFile.value;
      if outcome.written.Err? {
        return Err(WriteFailed(moduleId, tempFile, outcome.written.error));
      }
      var bytesWritten := outcome.written.value;
      if bytesWritten != |moduleTar| {
        return Err(ShortWrite(|moduleTar|, bytesWritten));
      }
      var unarchiveError := disk.Materialize(modulePath, outcome.archive);
      if unarchiveError.Some? {
        return Err(UnarchiveFailed(tempFile, modulePath, unarchiveError.value));
      }
      LookupPutSame(old(disk.root), modulePath, outcome.archive.value);
      return Ok(modulePath);
    }

    /**
     * Clones the repository into a fresh temporary directory, makes sure the
     * author directory exists, and moves the clone to the module path. The
     * temporary directory, when one was made, is gone afterwards; the module
     * path changes only through the final move. The modules directory and the
     * temporary directory are assumed to lie apart.
     */
    method AtomicClone(u: ParsedGitURL, outcome: CloneOutcome) returns (err: Option<ProviderError>, ghost tempDir: Option<Path>)
      requires Apart(modulesDir, modulesTmpDir)
      modifies disk
      // the temporary directory was fresh and is removed on every exit path
      ensures tempDir.Some? ==>
        outcome.tempDirName.Ok? &&
        tempDir.value == modulesTmpDir + [outcome.tempDirName.value] &&
        !Exists(old(disk.root), tempDir.value) && !Exists(disk.root, tempDir.value)
      ensures tempDir.None? ==> err.Some? && disk.root == old(disk.root)
      // success: the clone is at the module path, which was free, inside an author directory
      ensures err.None? ==>
        outcome.repository.Ok? &&
        Lookup(disk.root, ModulePath(u)) == Some(outcome.repository.value) &&
        IsDir(disk.root, AuthorPath(u)) && !Exists(old(disk.root), ModulePath(u))
      // failure: the module path is as it was
      ensures err.Some? ==> Lookup(disk.root, ModulePath(u)) == Lookup(old(disk.root), ModulePath(u))
      // once the clone is in, an author path that is not a directory stops the move
      ensures tempDir.Some? && outcome.repository.Ok? &&
              Exists(old(disk.root), AuthorPath(u)) && !IsDir(old(disk.root), AuthorPath(u)) ==>
        err == Some(AuthorNotDirectory(AuthorPath(u)))
      // it succeeds exactly when every step does
      ensures err.None? <==> CloneSucceeds(old(disk.root), u, outcome)
      // it changes only the author directory, and leaves the temporary directory as it found it
      ensures ClonedOnly(old(disk.root), disk.root, u, outcome, err.None?)
    {
      ghost var start := disk.root;
      var modulePath, authorPath := ModulePath(u), AuthorPath(u);
      var temp := MakeTempDir(u, outcome.tempDirName);
      if temp.Err? {
        return Some(TempDirFailed(u, temp.error)), None;
      }
      var tempPath := temp.value;
      tempDir := Some(tempPath);
      var clonePath := tempPath + u.RelativeRepoPath();
      ApartBelow(modulesTmpDir, modulesDir, [outcome.tempDirName.value] + u.RelativeRepoPath(), u.RelativeRepoPath());
      ApartBelow(modulesTmpDir, modulesDir, [outcome.tempDirName.value] + u.RelativeRepoPath(), [u.moduleAuthor]);
      ApartBelow(modulesTmpDir, modulesDir, [outcome.tempDirName.value] + u.RelativeRepoPath(), []);
      assert clonePath == modulesTmpDir + ([outcome.tempDirName.value] + u.RelativeRepoPath());
      assert modulesDir + [] == modulesDir;

      ghost var made := disk.root;
      err := CloneIntoPlace(u, clonePath, outcome);
      ghost var placed := disk.root;
      // the deferred removal of the temporary directory
      RemoveTemporary(tempPath, modulePath, authorPath);
      assert tempPath == TempPath(outcome.tempDirName.value);
      RemoveFrame(placed, tempPath, authorPath);
      FrameWiden(placed, made, authorPath, clonePath, tempPath) by {
        FrameSwap(placed, made, clonePath, authorPath);
      }
      FrameSwap(placed, made, authorPath, tempPath);
      PutFrame(start, tempPath, EmptyDir, authorPath);
      FrameTrans(placed, made, start, tempPath, authorPath);
      FrameTrans(disk.root, placed, start, tempPath, authorPath);
    }

    /** Clones to `clonePath` inside the temporary directory, then moves the clone to the module path. */
    method CloneIntoPlace(u: ParsedGitURL, clonePath: Path, outcome: CloneOutcome) returns (err: Option<ProviderError>)
      requires Placeable(disk.root, clonePath)
      requires Apart(clonePath, ModulePath(u)) && Apart(clonePath, AuthorPath(u)) && Apart(clonePath, modulesDir)
      modifies disk
      ensures err.None? <==>
        outcome.repository.Ok? && AuthorDirReady(old(disk.root), u, outcome.mkdirFailure) &&
        outcome.renameFailure.None? && !Exists(old(disk.root), ModulePath(u))
      ensures err.None? ==>
        outcome.repository.Ok? &&
        Lookup(disk.root, ModulePath(u)) == Some(outcome.repository.value) &&
        IsDir(disk.root, AuthorPath(u)) && !Exists(old(disk.root), ModulePath(u))
      ensures err.Some? ==> Lookup(disk.root, ModulePath(u)) == Lookup(old(disk.root), ModulePath(u))
      ensures outcome.repository.Ok? && Exists(old(disk.root), AuthorPath(u)) && !IsDir(old(disk.root), AuthorPath(u)) ==>
        err == Some(AuthorNotDirectory(AuthorPath(u)))
      // nothing apart from the clone and the author directory changes
      ensures SameApartFrom(disk.root, old(disk.root), clonePath, AuthorPath(u))
      ensures err.None? ==>
        Lookup(disk.root, AuthorPath(u)) == Some(Put(AuthorDirBefore(old(disk.root), u), [u.moduleName], outcome.repository.value))
      ensures err.Some? ==>
        Lookup(disk.root, AuthorPath(u)) == Lookup(old(disk.root), AuthorPath(u)) ||
        (!Exists(old(disk.root), AuthorPath(u)) && Lookup(disk.root, AuthorPath(u)) == Some(EmptyDir))
    {
      ghost var start := disk.root;
      var cloneError := CloneRepository(u, clonePath, outcome.repository);
      if cloneError.Some? {
        return Some(CloneFailed(u, clonePath, cloneError.value));
      }
      ghost var cloned := disk.root;
      PutFrame(start, clonePath, outcome.repository.value, AuthorPath(u));
      err := PlaceClone(u, clonePath, outcome);
      FrameTrans(disk.root, cloned, start, clonePath, AuthorPath(u));
    }

    /** Makes sure the author directory is there, then moves the clone into it. */
    method PlaceClone(u: ParsedGitURL, clonePath: Path, outcome: CloneOutcome) returns (err: Option<ProviderError>)
      requires outcome.repository.Ok? && Lookup(disk.root, clonePath) == Some(outcome.repository.value)
      requires Apart(clonePath, ModulePath(u)) && Apart(clonePath, AuthorPath(u))
      modifies disk
      ensures err.None? ==>
        Lookup(disk.root, ModulePath(u)) == Some(outcome.repository.value) && IsDir(disk.root, AuthorPath(u)) &&
        !Exists(old(disk.root), ModulePath(u))
      ensures err.Some? ==> Lookup(disk.root, ModulePath(u)) == Lookup(old(disk.root), ModulePath(u))
      ensures Exists(old(disk.root), AuthorPath(u)) && !IsDir(old(disk.root), AuthorPath(u)) ==>
        err == Some(AuthorNotDirectory(AuthorPath(u)))
      ensures err.None? <==>
        AuthorDirReady(old(disk.root), u, outcome.mkdirFailure) && outcome.renameFailure.None? && !Exists(old(disk.root), ModulePath(u))
      // nothing apart from the clone and the author directory changes
      ensures SameApartFrom(disk.root, old(disk.root), clonePath, AuthorPath(u))
      // success: the author directory gains exactly the module, and the clone has left its temporary place
      ensures err.None? ==>
        Lookup(disk.root, AuthorPath(u)) == Some(Put(AuthorDirBefore(old(disk.root), u), [u.moduleName], outcome.repository.value)) &&
        !Exists(disk.root, clonePath)
      // failure: at most a new, empty author directory is left
      ensures err.Some? ==>
        Lookup(disk.root, AuthorPath(u)) == Lookup(old(disk.root), AuthorPath(u)) ||
        (!Exists(old(disk.root), AuthorPath(u)) && Lookup(disk.root, AuthorPath(u)) == Some(EmptyDir))
    {
      ghost var start := disk.root;
      var authorPath, modulePath := AuthorPath(u), ModulePath(u);
      err := EnsureAuthorDir(u, clonePath, outcome.mkdirFailure);
      ghost var ready := disk.root;
      ghost var moved := false;
      if err.None? {
        var moveError := MoveClone(u, clonePath, outcome.repository.value, outcome.renameFailure);
        if moveError.Some? {
          err := Some(MoveFailed(u, clonePath, modulePath));
        } else {
          moved := true;
          ghost var removed := Remove(ready, clonePath);
          assert disk.root == Put(removed, modulePath, outcome.repository.value);
          LookupRemoveApart(ready, clonePath, authorPath);
          assert modulePath == authorPath + [u.moduleName];
          LookupPutAbove(removed, authorPath, [u.moduleName], outcome.repository.value);
          LookupPutApart(removed, modulePath, outcome.repository.value, clonePath);
          RemoveLeavesNothing(ready, clonePath, clonePath);
        }
      }
      if ready != start {
        ParentDirPlaceable(start, authorPath);
        LookupPutSame(start, authorPath, EmptyDir);
        PutFrame(start, authorPath, EmptyDir, clonePath);
        FrameSwap(ready, start, authorPath, clonePath);
      }
      if moved {
        ghost var removed := Remove(ready, clonePath);
        RemoveFrame(ready, clonePath, modulePath);
        PutFrame(removed, modulePath, outcome.repository.value, clonePath);
        FrameSwap(disk.root, removed, modulePath, clonePath);
        FrameTrans(disk.root, removed, ready, clonePath, modulePath);
        FrameWiden(disk.root, ready, clonePath, modulePath, authorPath);
        FrameTrans(disk.root, ready, start, clonePath, authorPath);
      }
    }

    /** Creates the fresh temporary directory, which lies apart from the module and author paths and has room for the clone. */
    method MakeTempDir(u: ParsedGitURL, chosen: Result<string, string>) returns (r: Result<Path, string>)
      requires Apart(modulesDir, modulesTmpDir)
      modifies disk
      ensures r.Err? ==> disk.root == old(disk.root)
      ensures r.Ok? ==> disk.root == Put(old(disk.root), r.value, EmptyDir)
      ensures r.Ok? ==>
        chosen.Ok? && r.value == modulesTmpDir + [chosen.value] && !Exists(old(disk.root), r.value) &&
        Apart(r.value, ModulePath(u)) && Apart(r.value, AuthorPath(u)) &&
        Placeable(disk.root, r.value + u.RelativeRepoPath())
      ensures Lookup(disk.root, ModulePath(u)) == Lookup(old(disk.root), ModulePath(u))
      ensures Lookup(disk.root, AuthorPath(u)) == Lookup(old(disk.root), AuthorPath(u))
      ensures Lookup(disk.root, modulesDir) == Lookup(old(disk.root), modulesDir)
      // it succeeds exactly when the system picks a name that is free in an existing temporary directory
      ensures r.Ok? <==> chosen.Ok? && IsDir(old(disk.root), modulesTmpDir) && !Exists(old(disk.root), modulesTmpDir + [chosen.value])
    {
      r := disk.MkdirTemp(modulesTmpDir, chosen);
      if r.Ok? {
        var tempPath := r.value;
        ApartBelow(modulesTmpDir, modulesDir, [chosen.value], u.RelativeRepoPath());
        ApartBelow(modulesTmpDir, modulesDir, [chosen.value], [u.moduleAuthor]);
        LookupPutApart(old(disk.root), tempPath, EmptyDir, ModulePath(u));
        LookupPutApart(old(disk.root), tempPath, EmptyDir, AuthorPath(u));
        ApartBelow(modulesTmpDir, modulesDir, [chosen.value], []);
        assert modulesDir + [] == modulesDir;
        LookupPutApart(old(disk.root), tempPath, EmptyDir, modulesDir);
        ParentDirPlaceable(old(disk.root), tempPath);
        EmptyDirPlaceable(u.RelativeRepoPath());
        PutPlaceableBelow(old(disk.root), tempPath, EmptyDir, u.RelativeRepoPath());
      }
    }

    /** Clones the repository to `clonePath` inside the temporary directory; it fails only when the clone itself does. */
    method CloneRepository(u: ParsedGitURL, clonePath: Path, repository: Result<Node, string>)
      returns (err: Option<string>)
      requires Placeable(disk.root, clonePath)
      requires Apart(clonePath, ModulePath(u)) && Apart(clonePath, AuthorPath(u)) && Apart(clonePath, modulesDir)
      modifies disk
      ensures err.None? <==> repository.Ok?
      ensures Lookup(disk.root, modulesDir) == Lookup(old(disk.root), modulesDir)
      ensures err.Some? ==> disk.root == old(disk.root)
      ensures err.None? ==> Lookup(disk.root, clonePath) == Some(repository.value)
      ensures err.None? ==> disk.root == Put(old(disk.root), clonePath, repository.value)
      ensures Lookup(disk.root, ModulePath(u)) == Lookup(old(disk.root), ModulePath(u))
      ensures Lookup(disk.root, AuthorPath(u)) == Lookup(old(disk.root), AuthorPath(u))
    {
      err := disk.Materialize(clonePath, repository);
      if err.None? {
        LookupPutApart(old(disk.root), clonePath, repository.value, ModulePath(u));
        LookupPutApart(old(disk.root), clonePath, repository.value, AuthorPath(u));
        LookupPutApart(old(disk.root), clonePath, repository.value, modulesDir);
        LookupPutSame(old(disk.root), clonePath, repository.value);
      }
    }

    /** Checks the author directory, creating it when it is missing. */
    method EnsureAuthorDir(u: ParsedGitURL, clonePath: Path, mkdirFailure: Option<string>) returns (err: Option<ProviderError>)
      requires Apart(clonePath, AuthorPath(u))
      modifies disk
      ensures Exists(old(disk.root), AuthorPath(u)) && !IsDir(old(disk.root), AuthorPath(u)) ==>
        err == Some(AuthorNotDirectory(AuthorPath(u)))
      ensures err.Some? ==> disk.root == old(disk.root)
      ensures err.None? ==> IsDir(disk.root, AuthorPath(u))
      // it succeeds exactly when the author directory is there or can be created
      ensures err.None? <==> AuthorDirReady(old(disk.root), u, mkdirFailure)
      // the disk is unchanged, or gains exactly the missing author directory
      ensures disk.root == if err.None? && !Exists(old(disk.root), AuthorPath(u)) then Put(old(disk.root), AuthorPath(u), EmptyDir) else old(disk.root)
      ensures err.None? ==> Lookup(disk.root, AuthorPath(u)) == Some(AuthorDirBefore(old(disk.root), u))
      ensures Lookup(disk.root, ModulePath(u)) == Lookup(old(disk.root), ModulePath(u))
      ensures Lookup(disk.root, clonePath) == Lookup(old(disk.root), clonePath)
    {
      var authorPath, modulePath := AuthorPath(u), ModulePath(u);
      var author := Lookup(disk.root, authorPath);
      if author.Some? && !author.value.Dir? {
        return Some(AuthorNotDirectory(authorPath));
      }
      if author.None? {
        assert Parent(authorPath) == modulesDir;
        var mkdirError := disk.Mkdir(authorPath, mkdirFailure);
        if mkdirError.Some? {
          return Some(AuthorDirFailed(u, authorPath, mkdirError.value));
        }
        // the new author directory is empty, so the module path is still missing
        ghost var before := old(disk.root);
        assert authorPath <= modulePath;
        MissingHasNothingBelow(before, authorPath, modulePath);
        ParentDirPlaceable(before, authorPath);
        LookupPutBelow(before, authorPath, EmptyDir, modulePath);
        assert modulePath[|authorPath|..] == [u.moduleName];
        LookupPutSame(before, authorPath, EmptyDir);
        LookupPutApart(before, authorPath, EmptyDir, clonePath);
      }
      return None;
    }

    /** Moves the clone from the temporary directory to the module path, inside the author directory. */
    method MoveClone(u: ParsedGitURL, clonePath: Path, tree: Node, renameFailure: Option<string>) returns (err: Option<string>)
      requires IsDir(disk.root, AuthorPath(u)) && Lookup(disk.root, clonePath) == Some(tree)
      requires Apart(clonePath, ModulePath(u)) && Apart(clonePath, AuthorPath(u))
      modifies disk
      ensures err.Some? ==> disk.root == old(disk.root)
      ensures err.None? ==> Lookup(disk.root, ModulePath(u)) == Some(tree) && IsDir(disk.root, AuthorPath(u))
      ensures err.None? ==> !Exists(old(disk.root), ModulePath(u))
      // it succeeds exactly when the module path is free and the system's rename works
      ensures err.None? <==> renameFailure.None? && !Exists(old(disk.root), ModulePath(u))
      // the clone leaves the temporary directory and is at the module path
      ensures err.None? ==> disk.root == Put(Remove(old(disk.root), clonePath), ModulePath(u), tree)
    {
      var modulePath, authorPath := ModulePath(u), AuthorPath(u);
      assert Parent(modulePath) == authorPath;
      err := disk.Rename(clonePath, modulePath, renameFailure);
      if err.None? {
        ghost var removed := Remove(old(disk.root), clonePath);
        LookupRemoveApart(old(disk.root), clonePath, authorPath);
        assert Parent(modulePath) == authorPath;
        ParentDirPlaceable(removed, modulePath);
        LookupPutSame(removed, modulePath, tree);
        PutKeepsAncestorDirs(removed, modulePath, tree, authorPath);
      }
    }

    /** The deferred removal of the temporary directory: it goes, and the module and author paths stay as they are. */
    method RemoveTemporary(tempPath: Path, modulePath: Path, authorPath: Path)
      requires |tempPath| > 0 && Apart(tempPath, modulePath) && Apart(tempPath, authorPath)
      modifies disk
      ensures !Exists(disk.root, tempPath)
      ensures disk.root == Remove(old(disk.root), tempPath)
      ensures Lookup(disk.root, modulePath) == Lookup(old(disk.root), modulePath)
      ensures Lookup(disk.root, authorPath) == Lookup(old(disk.root), authorPath)
    {
      var ignored := disk.RemoveAll(tempPath, None);
      RemoveLeavesNothing(old(disk.root), tempPath, tempPath);
      LookupRemoveApart(old(disk.root), tempPath, modulePath);
      LookupRemoveApart(old(disk.root), tempPath, authorPath);
    }
  }
}
