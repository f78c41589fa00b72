# Kamal cloud builder: context classification, command plan and builder name

This project models `Kamal::Commands::Builder::Cloud`, the Kamal builder for a
cloud-hosted Docker buildx backend, and proves properties of the model. The
class does three things:

- It classifies the build context string once, at construction, into one of
  nine context types. The order of the tests is first match wins: standard
  input, then a local path (directory, file or invalid), then a remote
  resource (git repository, tarball, remote file, unknown remote resource),
  and otherwise an unknown context.
- It builds the `create` plan. This is an optional `docker context create`
  step followed by a `docker buildx create` step. An invalid local path raises
  `Kamal::ConfigurationError` before anything else happens.
- It resolves the cloud builder's name from `docker builder ls` through jq.
  That name is the first of the sorted, de-duplicated names of the
  cloud-driver builders.

Modules, leaf to root:

- `Wrappers` (`wrappers.dfy`): `Option` and `Result`.
- `Strings` (`strings.dfy`): prefix, suffix and substring tests; the
  `\.[a-zA-Z0-9]+$` pattern, with a computable test proved equal to the
  pattern; the code-point order jq sorts strings by, proved a strict total
  order.
- `Errors` (`errors.dfy`): the two `ConfigurationError`s the class raises and
  their messages.
- `Classifier` (`classifier.dfy`): the `ContextType` enumeration, the
  classification predicates, `set_context_type` as `Classify`, and lemmas
  about precedence.
- `Resolver` (`resolver.dfy`): the builder inventory, the jq pipelines as
  functions, and `builder_name`.
- `Cloud` (`cloud.dfy`): the command steps, the base class's `chain`, and the
  class `CloudBuilder`. Its field `contextType` is set by the constructor,
  and `context_needed?`, `create`, `create_context`, `create_buildx` and
  `inspect_builder` are its functions.

Inputs the model takes as parameters:

- The filesystem is a `FileSystem` value: the set of paths for which
  `directory?` holds and the set for which `file?` holds.
- `URI.parse` is a function from the string to an optional `Uri` (an optional
  scheme and a path). `None` stands for `URI::InvalidURIError`.
- The output of `docker builder ls --format json` is an `Inventory`, a
  sequence of (name, driver) records.
- `remote`, `driver` and `builder_config.context` come from the base class and
  the configuration. They are constructor arguments.

The code has a quirk that the model keeps as written. The local-path guard at line 67 is
`f.relative? || f.absolute?`, and Ruby defines `relative?` as the negation of
`absolute?`, so the guard holds for every string. Every context other than `-`
and `/dev/stdin` therefore takes the local-path branch. The remote-resource
rules are never reached through `set_context_type` (`NeverRemoteOrUnknown`).
The model keeps the branch order and proves the remote rules about
`ClassifyRemote` directly.

The code has no separate error for a failed or malformed inventory query. When
jq prints nothing (jq is missing, or `docker builder ls` wrote something that
is not JSON), `strip!` on the empty output removes nothing and returns nil, and
line 45 raises the missing-builder error for what is a tooling failure. The
model follows the code: `Resolver.AvailabilityOutput` takes the inventory query
as an option, and there are only the two configuration errors.

## Model

| member | source | states |
|---|---|---|
| `Classifier.Classify` | lib/kamal/commands/builder/cloud.rb:59-83 | `set_context_type` gives standard input for `-` and `/dev/stdin`, and a local type (directory, file or invalid path) for every other context |
| `Classifier.StandardInputFirst` | lib/kamal/commands/builder/cloud.rb:62-65 | the type is standard input exactly for `-` and `/dev/stdin`, whatever the filesystem and URI parser say |
| `Classifier.LocalPathGuardAlwaysHolds` | lib/kamal/commands/builder/cloud.rb:67 | `relative? \|\| absolute?` holds of every string |
| `Classifier.LocalBranch` | lib/kamal/commands/builder/cloud.rb:67-75 | outside standard input: a directory is a local directory, a file that is not a directory is a local file, and anything else is an invalid local path (each as an if-and-only-if) |
| `Classifier.NeverRemoteOrUnknown` | lib/kamal/commands/builder/cloud.rb:62-82 | because the local branch precedes `remote_resource?`, no context is ever classified as a remote type or as unknown |
| `Classifier.ClassifyIgnoresUriParser` | lib/kamal/commands/builder/cloud.rb:62-82 | the URI parser's answer never changes the classification |
| `Classifier.MalformedUriIsNotRemote` | lib/kamal/commands/builder/cloud.rb:89-96 | a URI that fails to parse is not a remote resource; it yields false, not an error |
| `Classifier.ClassifyRemote` | lib/kamal/commands/builder/cloud.rb:98-111 | `classify_remote_resource` always yields one of the four remote types |
| `Classifier.RemotePrecedence` | lib/kamal/commands/builder/cloud.rb:101-110 | git repository if and only if the git test holds; tarball if and only if git fails and tarball holds; remote file if and only if both fail and the http(s) file test holds; otherwise unknown remote resource |
| `Classifier.RemoteFileMeansDottedHttpPath` | lib/kamal/commands/builder/cloud.rb:124-128 | a remote file has scheme http or https and a path that matches `\.[a-zA-Z0-9]+$` |
| `Classifier.GithubTarballExample` | lib/kamal/commands/builder/cloud.rb:101-121 | `https://github.com/o/r.tar.gz` matches the tarball rule but is a git repository (git comes first), and the full classification makes it an invalid local path when nothing exists on disk |
| `Classifier.GitRepositoryExample` | lib/kamal/commands/builder/cloud.rb:113-118 | `https://github.com/org/repo.git` matches both the `.git` suffix and the `github.com` substring and is a git repository |
| `Classifier.RemoteTarballExample` | lib/kamal/commands/builder/cloud.rb:120-122 | `https://example.com/archive.tar.gz` is a remote tarball |
| `Classifier.RemoteFileExample` | lib/kamal/commands/builder/cloud.rb:124-128 | `https://example.com/file.txt` is a remote file |
| `Classifier.UnknownRemoteResourceExample` | lib/kamal/commands/builder/cloud.rb:101-110 | `ftp://example.com/unknown` is a remote resource of unknown kind |
| `Strings.DottedExtensionMatchesPattern` | lib/kamal/commands/builder/cloud.rb:127 | the computable extension test holds exactly when the path ends with a dot followed by one or more ASCII alphanumerics |
| `Resolver.CloudNames` | lib/kamal/commands/builder/cloud.rb:51 | `map(select(.Driver == "cloud")) \| map(.Name)` yields exactly the names of cloud-driver entries |
| `Resolver.Unique` | lib/kamal/commands/builder/cloud.rb:51 | jq `unique` yields a strictly sorted sequence with exactly the input's elements |
| `Resolver.UniqueIsSortedDistinct` | lib/kamal/commands/builder/cloud.rb:51 | that sequence is the only strictly sorted one with those elements |
| `Resolver.FirstCloudName` | lib/kamal/commands/builder/cloud.rb:50-53 | `unique \| first` has a value exactly when a cloud-driver entry exists, and then it is the least cloud-driver name |
| `Resolver.LeastCloudNameUnique` | lib/kamal/commands/builder/cloud.rb:51 | the least name is unique, so the tie-break between several cloud builders is deterministic |
| `Resolver.FirstCloudNameIgnoresOrder` | lib/kamal/commands/builder/cloud.rb:51 | the resolved name depends only on the set of cloud-driver names, not on inventory order or duplicates |
| `Resolver.ResolveBuilderName` | lib/kamal/commands/builder/cloud.rb:41-53 | `builder_name` as intended: it raises `Missing cloud builder name for driver: <driver>` exactly when no cloud-driver entry exists, and otherwise returns the least cloud-driver name |
| `Resolver.AvailabilityOutput` | lib/kamal/commands/builder/cloud.rb:55-57 | the `strip!` result of the availability query is nil exactly when jq printed nothing; otherwise it is `true` or `false`, and `false` exactly when no driver contains `cloud` |
| `Resolver.BuilderNameAsWritten` | lib/kamal/commands/builder/cloud.rb:41-46 | `builder_name` as written: it raises exactly when the availability result is nil, and otherwise returns the name query's output |
| `Resolver.AsWrittenNeverRaises` | lib/kamal/commands/builder/cloud.rb:42-45 | as written, the missing-builder error is never raised for any inventory that jq reads and answers for |
| `Resolver.AsWrittenRaisesOnlyOnFailedQuery` | lib/kamal/commands/builder/cloud.rb:41-46 | as written, the missing-builder error is raised exactly when the inventory query printed nothing, and otherwise the name query's output is returned |
| `Resolver.AsWrittenGuardCounterexample` | lib/kamal/commands/builder/cloud.rb:41-57 | for an inventory holding only a docker-driver builder, the intended resolution raises but the written guard lets the call through |
| `Errors.MessageDeterminesError` | lib/kamal/commands/builder/cloud.rb:32-45 | the error message alone determines which error was raised and with what context or driver |
| `Cloud.StepKindsDistinct` | lib/kamal/commands/builder/cloud.rb:17-25 | context-create, buildx-create and buildx-inspect steps begin with `context create`, `buildx create` and `buildx inspect`, and never coincide |
| `Cloud.ContextCreateStepInjective` | lib/kamal/commands/builder/cloud.rb:17 | a context-create step determines the context, the builder name and the remote it was built from |
| `Cloud.Chain` | lib/kamal/commands/builder/cloud.rb:11-13 | `chain` keeps exactly the present steps |
| `Cloud.ChainAppend` | lib/kamal/commands/builder/cloud.rb:11-13 | `chain` preserves the order of its steps |
| `Cloud.ChainAllPresent` | lib/kamal/commands/builder/cloud.rb:11-13 | with no step absent, `chain` keeps every step in place |
| `Cloud.CloudBuilder.constructor` | lib/kamal/commands/builder/cloud.rb:5-8 | construction stores the context, remote and driver and sets the context type to the classification of the context |
| `Cloud.CloudBuilder.SetContextType` | lib/kamal/commands/builder/cloud.rb:59-62 | `set_context_type` assigns the classification of the context to the field, and changes nothing else |
| `Cloud.CloudBuilder.ContextNeeded` | lib/kamal/commands/builder/cloud.rb:30-35 | raises `Context is not a valid file or directory: <context>` exactly for an invalid local path; false for a local file or directory; true for every other type |
| `Cloud.CloudBuilder.CreateContext` | lib/kamal/commands/builder/cloud.rb:16-18 | with the corrected `builder_name`: fails with the missing-builder error exactly when no cloud builder exists; otherwise `context create <context> --description '<name> host' --docker 'host=<remote>'` with the least cloud name |
| `Cloud.CloudBuilder.CreateBuildx` | lib/kamal/commands/builder/cloud.rb:20-22 | with the corrected `builder_name`: fails likewise; otherwise `buildx create --name <name> <context>` |
| `Cloud.CloudBuilder.InspectBuilder` | lib/kamal/commands/builder/cloud.rb:24-26 | with the corrected `builder_name`: fails likewise; otherwise `buildx inspect <name>` |
| `Cloud.CloudBuilder.Create` | lib/kamal/commands/builder/cloud.rb:10-14 | with the corrected `builder_name`: an invalid local path fails first; a missing cloud builder fails next; otherwise one step for a local file or directory and two for any other type, with the buildx step last and the context step first |
| `Cloud.InvalidPathFailsBeforeLookup` | lib/kamal/commands/builder/cloud.rb:10-14 | for an invalid local path, `create` fails the same way whatever the inventory holds |
| `Cloud.ContextStepOnlyForStandardInput` | lib/kamal/commands/builder/cloud.rb:10-14 | for a builder as constructed, a successful `create` has a context step exactly when the context is `-` or `/dev/stdin` |
| `Cloud.CreateStepsDiffer` | lib/kamal/commands/builder/cloud.rb:10-25 | in a two-step plan the first step is a `context create` step and the second a `buildx create` step, so the two never coincide |
| `Cloud.CreatePlanDeterminesInputs` | lib/kamal/commands/builder/cloud.rb:10-22 | a two-step plan determines the context, the remote and the resolved builder name it was made from |
| `Cloud.CreateFailureMessageDeterminesCause` | lib/kamal/commands/builder/cloud.rb:10-14 | two failures of `create` with the same message are the same error, and the message says whether the path was invalid or the builder missing |
| `Cloud.MissingPathFailsCreate` | lib/kamal/commands/builder/cloud.rb:30-32 | a context that is not standard input and names nothing on disk makes `create` fail, with `Context is not a valid file or directory: <context>` as the message |

## Findings

| source | as written | input that shows it | evidently intended | confidence | as-written member | corrected member |
|---|---|---|---|---|---|---|
| lib/kamal/commands/builder/cloud.rb:42 | `if bln_cloud_builder_available` tests the truthiness of a `strip!` result. Whenever jq prints its answer (`true` or `false` plus a newline), the result is a non-nil string, so the else branch is dead then; only empty output, which makes `strip!` nil, reaches line 45, and that is a tooling failure rather than a missing builder. | an inventory with only the `default` builder (docker driver): the query yields `"false"`, which Ruby treats as true | raise `Missing cloud builder name for driver: <driver>` when no cloud-driver builder exists | high (by reading; not executed) | `Resolver.AsWrittenGuardCounterexample` | `Resolver.ResolveBuilderName` |

The class `CloudBuilder` uses the corrected `ResolveBuilderName`.

## Left out

- Running `docker builder ls` and `jq` through backticks is left out. The inventory is a parameter, and the two jq programs are functions over it. jq's printed JSON is not modelled: the name `str_cloud_builder_name` returns really carries JSON quotes, and an empty selection prints `null`. Of the availability query, only its `true`/`false` output and its empty output (jq printed nothing) are modelled.
- `builder_name` runs both queries on every call, so `create` can run up to four of them. The model assumes they all see one unchanged inventory.
- The base class's `docker` and `chain` helpers are not part of this model. A step is the argument list passed to `docker`, without the `docker` program name it adds. `chain` only drops absent steps and keeps order; shell joining and escaping are left out.
- `URI.parse` and `Pathname` are oracle parameters, and real filesystem probes are left out. `absolute?` is the POSIX rule (the path starts with `/`). `Pathname.new` raising on a NUL byte is not modelled. A URI whose path is nil is not modelled. The URI that line 99 parses and discards has no counterpart.
- `Classifier.IsHttpOrHttpsFile` answers false for a URI that does not parse, where Ruby would raise. This case is only reachable after `remote_resource?` has seen the same string parse, so it never arises.
- Regular-expression edge cases are left out. `$` also matches before an embedded newline; the model treats the patterns as plain suffix tests on single-line strings.
- The order in which `initialize` runs `set_context_type` before `super(...)` is left out. The constructor takes `remote`, `driver` and the context directly.
- `Resolver.ResolveBuilderName` and the class's command steps take an inventory that jq has read. A failed query, which as written raises the missing-builder error (`Resolver.AsWrittenRaisesOnlyOnFailedQuery`), has no counterpart in the corrected resolution, because the code has no error of its own for it.
- jq's `contains` is a substring test. It appears only in `Resolver.AvailabilityOutput`. The corrected resolution uses the exact driver test that the name query uses.
- Logging and the error class hierarchy are left out. Both errors are `Kamal::ConfigurationError` values, identified by their message.
