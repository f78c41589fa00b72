/**
 * Classification of a build context string (`set_context_type` and the
 * predicates it consults). The filesystem and Ruby's `URI.parse` are
 * oracles passed in as parameters.
 */
module Classifier {
  import opened Wrappers
  import opened Strings

  /** The nine symbols `set_context_type` can assign to `@context_type`. */
  datatype ContextType =
    | DockerStandardInput
    | LocalDirectory
    | LocalFile
    | InvalidLocalPath
    | GitRepository
    | RemoteTarball
    | RemoteFile
    | UnknownRemoteResource
    | UnknownContext
  {
    predicate IsLocal() { LocalDirectory? || LocalFile? || InvalidLocalPath? }
    predicate IsRemote() { GitRepository? || RemoteTarball? || RemoteFile? || UnknownRemoteResource? }
  }

  /** What `Pathname#directory?` and `Pathname#file?` answer, path by path. */
  datatype FileSystem = FileSystem(directories: set<string>, files: set<string>)

  /** The parts of a parsed URI the classifier looks at; `scheme` is nil for a relative reference. */
  datatype Uri = Uri(scheme: Option<string>, path: string)

  /** `URI.parse`: None where it raises `URI::InvalidURIError`. */
  type UriParser = string -> Option<Uri>

  const RemoteSchemes: set<string> := {"http", "https", "git", "ftp"}

  /** `standard_input?` */
  predicate IsStandardInput(context: string) {
    context == "-" || context == "/dev/stdin"
  }

  /** `Pathname#absolute?` on a POSIX system: the path starts at the root. */
  predicate IsAbsolutePath(context: string) {
    |context| > 0 && context[0] == '/'
  }

  /** `Pathname#relative?`, which Ruby defines as the negation of `absolute?`. */
  predicate IsRelativePath(context: string) {
    !IsAbsolutePath(context)
  }

  /** The guard of the local-path branch of `set_context_type`: `f.relative? || f.absolute?`. */
  predicate IsLocalPath(context: string) {
    IsRelativePath(context) || IsAbsolutePath(context)
  }

  /** `remote_resource?`: the URI parses and has one of the four remote schemes; a malformed URI is not remote. */
  predicate IsRemoteResource(context: string, parse: UriParser) {
    match parse(context)
    case None => false
    case Some(uri) => uri.scheme.Some? && uri.scheme.value in RemoteSchemes
  }

  /** `git_repository?` */
  predicate IsGitRepository(context: string) {
    || EndsWith(context, ".git")
    || Contains(context, "github.com")
    || Contains(context, "gitlab.com")
    || Contains(context, "bitbucket.org")
  }

  /** `tarball?`: the pattern `\.(tar|tar\.gz|tgz|tar\.bz2|zip)$`. */
  predicate IsTarball(context: string) {
    || EndsWith(context, ".tar")
    || EndsWith(context, ".tar.gz")
    || EndsWith(context, ".tgz")
    || EndsWith(context, ".tar.bz2")
    || EndsWith(context, ".zip")
  }

  /**
   * `http_or_https_file?`: an http(s) URI whose path ends in `\.[a-zA-Z0-9]+`.
   * It re-parses the context; it is only reached once `remote_resource?` has
   * seen the same string parse, so the malformed case (where Ruby would
   * raise) answers false here.
   */
  predicate IsHttpOrHttpsFile(context: string, parse: UriParser) {
    match parse(context)
    case None => false
    case Some(uri) => (uri.scheme == Some("http") || uri.scheme == Some("https")) && HasDottedExtension(uri.path)
  }

  /** `classify_remote_resource`: git first, then tarball, then remote file. */
  function ClassifyRemote(context: string, parse: UriParser): (t: ContextType)
    ensures t.IsRemote()
  {
    if IsGitRepository(context) then GitRepository
    else if IsTarball(context) then RemoteTarball
    else if IsHttpOrHttpsFile(context, parse) then RemoteFile
    else UnknownRemoteResource
  }

  /**
   * `set_context_type`: the first matching branch decides. The local-path
   * guard holds of every string, so every context that is not standard input
   * gets a local type.
   */
  function Classify(context: string, fs: FileSystem, parse: UriParser): (t: ContextType)
    ensures IsStandardInput(context) ==> t == DockerStandardInput
    ensures !IsStandardInput(context) ==> t.IsLocal()
  {
    if IsStandardInput(context) then DockerStandardInput
    else if IsLocalPath(context) then
      if context in fs.directories then LocalDirectory
      else if context in fs.files then LocalFile
      else InvalidLocalPath
    else if IsRemoteResource(context, parse) then ClassifyRemote(context, parse)
    else UnknownContext
  }

  // ---------------------------------------------------------------------------
  // Precedence of the branches of `set_context_type`

  /** Standard input is recognised before the filesystem or the URI is consulted, and only for `-` and `/dev/stdin`. */
  lemma StandardInputFirst(context: string, fs: FileSystem, parse: UriParser)
    ensures Classify(context, fs, parse) == DockerStandardInput <==> IsStandardInput(context)
  {
  }

  /** The guard `relative? || absolute?` holds of every string. */
  lemma LocalPathGuardAlwaysHolds(context: string)
    ensures IsLocalPath(context)
  {
  }

  /** In the local branch the directory test comes first; a path that is neither directory nor file is invalid. */
  lemma LocalBranch(context: string, fs: FileSystem, parse: UriParser)
    requires !IsStandardInput(context)
    ensures Classify(context, fs, parse) == LocalDirectory <==> context in fs.directories
    ensures Classify(context, fs, parse) == LocalFile <==> context !in fs.directories && context in fs.files
    ensures Classify(context, fs, parse) == InvalidLocalPath <==> context !in fs.directories && context !in fs.files
  {
  }

  /**
   * Because the local-path branch is tested before `remote_resource?` and its
   * guard always holds, no context is ever classified as a remote type or as
   * unknown, whatever the URI parser says.
   */
  lemma NeverRemoteOrUnknown(context: string, fs: FileSystem, parse: UriParser)
    ensures !Classify(context, fs, parse).IsRemote() && Classify(context, fs, parse) != UnknownContext
  {
  }

  /** The URI parser never influences the classification. */
  lemma ClassifyIgnoresUriParser(context: string, fs: FileSystem, p1: UriParser, p2: UriParser)
    ensures Classify(context, fs, p1) == Classify(context, fs, p2)
  {
    LocalPathGuardAlwaysHolds(context);
  }

  /** `remote_resource?` rescues a malformed URI into false. */
  lemma MalformedUriIsNotRemote(context: string, parse: UriParser)
    requires parse(context).None?
    ensures !IsRemoteResource(context, parse)
  {
  }

  /** Order of the rules of `classify_remote_resource`, each with the ones before it failing. */
  lemma RemotePrecedence(context: string, parse: UriParser)
    ensures ClassifyRemote(context, parse) == GitRepository <==> IsGitRepository(context)
    ensures ClassifyRemote(context, parse) == RemoteTarball <==> !IsGitRepository(context) && IsTarball(context)
    ensures ClassifyRemote(context, parse) == RemoteFile <==>
      !IsGitRepository(context) && !IsTarball(context) && IsHttpOrHttpsFile(context, parse)
    ensures ClassifyRemote(context, parse) == UnknownRemoteResource <==>
      !IsGitRepository(context) && !IsTarball(context) && !IsHttpOrHttpsFile(context, parse)
  {
  }

  /** A remote file needs an http(s) scheme and a path matching `\.[a-zA-Z0-9]+$`. */
  lemma RemoteFileMeansDottedHttpPath(context: string, parse: UriParser)
    requires ClassifyRemote(context, parse) == RemoteFile
    ensures parse(context).value.scheme in {Some("http"), Some("https")}
    ensures MatchesDottedExtension(parse(context).value.path)
  {
    DottedExtensionMatchesPattern(parse(context).value.path);
  }

  // ---------------------------------------------------------------------------
  // Worked examples; the parser's answer for the string is given as a premise

  // The string facts each example rests on are proved one per lemma, which keeps each proof small.

  lemma GithubTarballNamesGithub()
    ensures Contains("https://github.com/o/r.tar.gz", "github.com")
  {
    ContainsByChars("https://github.com/o/r.tar.gz", "github.com", 8);
  }

  lemma GithubTarballEndsWithTarGz()
    ensures EndsWith("https://github.com/o/r.tar.gz", ".tar.gz")
  {
    EndsWithByChars("https://github.com/o/r.tar.gz", ".tar.gz");
  }

  /**
   * A GitHub URL ending in a tarball suffix is a git repository (the git rule
   * comes first), yet the whole classification sends it down the local-path
   * branch, where a string naming nothing on disk is an invalid local path.
   */
  lemma GithubTarballExample(parse: UriParser)
    requires parse("https://github.com/o/r.tar.gz") == Some(Uri(Some("https"), "/o/r.tar.gz"))
    ensures IsRemoteResource("https://github.com/o/r.tar.gz", parse)
    ensures IsTarball("https://github.com/o/r.tar.gz")
    ensures ClassifyRemote("https://github.com/o/r.tar.gz", parse) == GitRepository
    ensures Classify("https://github.com/o/r.tar.gz", FileSystem({}, {}), parse) == InvalidLocalPath
  {
    GithubTarballNamesGithub();
    GithubTarballEndsWithTarGz();
  }

  lemma GitRepositoryStringFacts()
    ensures EndsWith("https://github.com/org/repo.git", ".git")
    ensures Contains("https://github.com/org/repo.git", "github.com")
  {
    EndsWithByChars("https://github.com/org/repo.git", ".git");
    ContainsByChars("https://github.com/org/repo.git", "github.com", 8);
  }

  lemma GitRepositoryExample(parse: UriParser)
    requires parse("https://github.com/org/repo.git") == Some(Uri(Some("https"), "/org/repo.git"))
    ensures EndsWith("https://github.com/org/repo.git", ".git")
    ensures Contains("https://github.com/org/repo.git", "github.com")
    ensures ClassifyRemote("https://github.com/org/repo.git", parse) == GitRepository
  {
    GitRepositoryStringFacts();
  }

  /** None of the three git hosts can occur in a string without the letter `b`. */
  lemma NoGitHostWithoutB(context: string)
    requires 'b' !in context
    ensures !Contains(context, "github.com") && !Contains(context, "gitlab.com") && !Contains(context, "bitbucket.org")
  {
    NotContainsMissingChar(context, "github.com", 'b');
    NotContainsMissingChar(context, "gitlab.com", 'b');
    NotContainsMissingChar(context, "bitbucket.org", 'b');
  }

  /** A string whose last character is none of `t`, `r`, `z`, `2` and `p` has neither a `.git` nor a tarball suffix. */
  lemma NoGitOrTarballSuffix(context: string)
    requires |context| > 0 && context[|context| - 1] !in {'t', 'r', 'z', '2', 'p'}
    ensures !EndsWith(context, ".git") && !IsTarball(context)
  {
    NotEndsWithAt(context, ".git", 0);
    NotEndsWithAt(context, ".tar", 0);
    NotEndsWithAt(context, ".tar.gz", 0);
    NotEndsWithAt(context, ".tgz", 0);
    NotEndsWithAt(context, ".tar.bz2", 0);
    NotEndsWithAt(context, ".zip", 0);
  }

  lemma RemoteTarballStringFacts()
    ensures !IsGitRepository("https://example.com/archive.tar.gz")
    ensures EndsWith("https://example.com/archive.tar.gz", ".tar.gz")
  {
    assert !IsGitRepository("https://example.com/archive.tar.gz") by {
      NoGitHostWithoutB("https://example.com/archive.tar.gz");
      NotEndsWithAt("https://example.com/archive.tar.gz", ".git", 0);
    }
    EndsWithByChars("https://example.com/archive.tar.gz", ".tar.gz");
  }

  lemma RemoteTarballExample(parse: UriParser)
    requires parse("https://example.com/archive.tar.gz") == Some(Uri(Some("https"), "/archive.tar.gz"))
    ensures ClassifyRemote("https://example.com/archive.tar.gz", parse) == RemoteTarball
  {
    RemoteTarballStringFacts();
  }

  lemma RemoteFileIsNotGit()
    ensures !IsGitRepository("https://example.com/file.txt")
  {
    NoGitHostWithoutB("https://example.com/file.txt");
    NotEndsWithAt("https://example.com/file.txt", ".git", 1);
  }

  lemma RemoteFileIsNotTarball()
    ensures !IsTarball("https://example.com/file.txt")
  {
    var context := "https://example.com/file.txt";
    NotEndsWithAt(context, ".tar", 1);
    NotEndsWithAt(context, ".tar.gz", 0);
    NotEndsWithAt(context, ".tgz", 0);
    NotEndsWithAt(context, ".tar.bz2", 0);
    NotEndsWithAt(context, ".zip", 0);
  }

  lemma RemoteFilePathHasExtension()
    ensures HasDottedExtension("/file.txt")
  {
    var path := "/file.txt";
    assert path[5] == '.' && forall j :: 5 < j < |path| ==> IsAlnum(path[j]);
    DottedExtensionMatchesPattern(path);
  }

  lemma RemoteFileExample(parse: UriParser)
    requires parse("https://example.com/file.txt") == Some(Uri(Some("https"), "/file.txt"))
    ensures ClassifyRemote("https://example.com/file.txt", parse) == RemoteFile
  {
    RemoteFileIsNotGit();
    RemoteFileIsNotTarball();
    RemoteFilePathHasExtension();
  }

  lemma UnknownRemoteResourceStringFacts()
    ensures !IsGitRepository("ftp://example.com/unknown") && !IsTarball("ftp://example.com/unknown")
  {
    NoGitHostWithoutB("ftp://example.com/unknown");
    NoGitOrTarballSuffix("ftp://example.com/unknown");
  }

  lemma UnknownRemoteResourceExample(parse: UriParser)
    requires parse("ftp://example.com/unknown") == Some(Uri(Some("ftp"), "/unknown"))
    ensures IsRemoteResource("ftp://example.com/unknown", parse)
    ensures ClassifyRemote("ftp://example.com/unknown", parse) == UnknownRemoteResource
  {
    UnknownRemoteResourceStringFacts();
  }
}
