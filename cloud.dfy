/**
 * `Kamal::Commands::Builder::Cloud`: the context type fixed at construction,
 * `context_needed?`, and the command steps of `create`, `create_context`,
 * `create_buildx` and `inspect_builder`. A step is the argument list handed
 * to the base class's `docker` helper.
 */
module Cloud {
  import opened Wrappers
  import opened Errors
  import opened Classifier
  import opened Resolver

  type Step = seq<string>

  /** `docker context create <context> --description '<builder> host' --docker 'host=<remote>'` */
  function ContextCreateStep(contextName: string, builderName: string, remote: string): Step {
    ["context", "create", contextName, "--description", "'" + builderName + " host'", "--docker", "'host=" + remote + "'"]
  }

  /** `docker buildx create --name <builder> <context>` */
  function BuildxCreateStep(builderName: string, contextName: string): Step {
    ["buildx", "create", "--name", builderName, contextName]
  }

  /** `docker buildx inspect <builder>` */
  function BuildxInspectStep(builderName: string): Step {
    ["buildx", "inspect", builderName]
  }

  /** The three kinds of step are told apart by their first two arguments. */
  lemma StepKindsDistinct(c: string, n: string, r: string, n': string, c': string, n'': string)
    ensures ContextCreateStep(c, n, r)[..2] == ["context", "create"]
    ensures BuildxCreateStep(n', c')[..2] == ["buildx", "create"]
    ensures BuildxInspectStep(n'')[..2] == ["buildx", "inspect"]
    ensures ContextCreateStep(c, n, r) != BuildxCreateStep(n', c')
    ensures BuildxCreateStep(n', c') != BuildxInspectStep(n'')
  {
    assert ContextCreateStep(c, n, r)[0] != BuildxCreateStep(n', c')[0];
    assert |BuildxCreateStep(n', c')| != |BuildxInspectStep(n'')|;
  }

  /** A context-create step gives back the context, builder name and remote it was made from. */
  lemma ContextCreateStepInjective(c1: string, n1: string, r1: string, c2: string, n2: string, r2: string)
    requires ContextCreateStep(c1, n1, r1) == ContextCreateStep(c2, n2, r2)
    ensures c1 == c2 && n1 == n2 && r1 == r2
  {
    var d1, d2 := "'" + n1 + " host'", "'" + n2 + " host'";
    var h1, h2 := "'host=" + r1 + "'", "'host=" + r2 + "'";
    assert ContextCreateStep(c1, n1, r1)[4] == d1 && ContextCreateStep(c2, n2, r2)[4] == d2;
    assert ContextCreateStep(c1, n1, r1)[6] == h1 && ContextCreateStep(c2, n2, r2)[6] == h2;
    assert n1 == d1[1..|d1| - 6] && n2 == d2[1..|d2| - 6];
    assert r1 == h1[6..|h1| - 1] && r2 == h2[6..|h2| - 1];
  }

  /** The base class's `chain`, as far as `create` uses it: absent steps are dropped, the rest keep their order. */
  function Chain(steps: seq<Option<Step>>): (r: seq<Step>)
    ensures |r| <= |steps|
    ensures forall s :: s in r <==> Some(s) in steps
  {
    if steps == [] then []
    else
      var rest := Chain(steps[1..]);
      assert forall s :: Some(s) in steps <==> steps[0] == Some(s) || Some(s) in steps[1..] by {
        assert steps == [steps[0]] + steps[1..];
      }
      (if steps[0].Some? then [steps[0].value] else []) + rest
  }

  /** `chain` preserves order: chaining a concatenation is the concatenation of the chains. */
  lemma {:induction false} ChainAppend(a: seq<Option<Step>>, b: seq<Option<Step>>)
    ensures Chain(a + b) == Chain(a) + Chain(b)
    decreases |a|
  {
    if a != [] {
      assert (a + b)[0] == a[0] && (a + b)[1..] == a[1..] + b;
      ChainAppend(a[1..], b);
      var head: seq<Step> := if a[0].Some? then [a[0].value] else [];
      assert Chain(a + b) == head + Chain(a[1..] + b);
      assert head + (Chain(a[1..]) + Chain(b)) == (head + Chain(a[1..])) + Chain(b);
    } else {
      assert a + b == b;
    }
  }

  /** When no step is absent, `chain` keeps every step. */
  lemma {:induction false} ChainAllPresent(steps: seq<Option<Step>>)
    requires forall i :: 0 <= i < |steps| ==> steps[i].Some?
    ensures |Chain(steps)| == |steps|
    ensures forall i :: 0 <= i < |steps| ==> Chain(steps)[i] == steps[i].value
    decreases |steps|
  {
    if steps != [] {
      ChainAllPresent(steps[1..]);
    }
  }

  class CloudBuilder {
    /** `builder_config.context`, which `context_name` returns. */
    const context: string
    /** The base class's `remote`. */
    const remote: string
    /** The base class's `driver`. */
    const driver: string
    /** `@context_type`, set once by `set_context_type` during construction. */
    var contextType: ContextType

    /** `initialize`: classifies the context before anything else. */
    constructor (context: string, remote: string, driver: string, fs: FileSystem, parse: UriParser)
      ensures this.context == context && this.remote == remote && this.driver == driver
      ensures contextType == Classify(context, fs, parse)
    {
      this.context := context;
      this.remote := remote;
      this.driver := driver;
      new;
      SetContextType(fs, parse);
    }

    /** `set_context_type` */
    method SetContextType(fs: FileSystem, parse: UriParser)
      modifies this`contextType
      ensures contextType == Classify(context, fs, parse)
    {
      contextType := Classify(context, fs, parse);
    }

    /**
     * `context_needed?`: raises for an invalid local path, is false for a
     * local file or directory, and true for every other type.
     */
    function ContextNeeded(): (r: Result<bool, ConfigurationError>)
      reads this
      ensures r.Failure? <==> contextType == InvalidLocalPath
      ensures r.Failure? ==> r.error == InvalidContextPath(context)
      ensures r.Success? ==> (r.value <==> !contextType.IsLocal())
    {
      if contextType == InvalidLocalPath then Failure(InvalidContextPath(context))
      else if contextType == LocalFile || contextType == LocalDirectory then Success(false)
      else Success(true)
    }

    /** `create_context`; it looks the builder name up, which raises when no cloud builder exists. */
    function CreateContext(inventory: Inventory): (r: Result<Step, ConfigurationError>)
      ensures r.Failure? <==> !CloudBuilderAvailable(inventory)
      ensures r.Failure? ==> r.error == MissingCloudBuilder(driver)
      ensures r.Success? ==> exists name :: IsLeastCloudName(inventory, name) && r.value == ContextCreateStep(context, name, remote)
    {
      var name :- ResolveBuilderName(inventory, driver);
      Success(ContextCreateStep(context, name, remote))
    }

    /** `create_buildx` */
    function CreateBuildx(inventory: Inventory): (r: Result<Step, ConfigurationError>)
      ensures r.Failure? <==> !CloudBuilderAvailable(inventory)
      ensures r.Failure? ==> r.error == MissingCloudBuilder(driver)
      ensures r.Success? ==> exists name :: IsLeastCloudName(inventory, name) && r.value == BuildxCreateStep(name, context)
    {
      var name :- ResolveBuilderName(inventory, driver);
      Success(BuildxCreateStep(name, context))
    }

    /** `inspect_builder` */
    function InspectBuilder(inventory: Inventory): (r: Result<Step, ConfigurationError>)
      ensures r.Failure? <==> !CloudBuilderAvailable(inventory)
      ensures r.Failure? ==> r.error == MissingCloudBuilder(driver)
      ensures r.Success? ==> exists name :: IsLeastCloudName(inventory, name) && r.value == BuildxInspectStep(name)
    {
      var name :- ResolveBuilderName(inventory, driver);
      Success(BuildxInspectStep(name))
    }

    /**
     * `create`: `context_needed?` is evaluated first, so an invalid local path
     * raises before the builder name is looked up; otherwise the context step
     * (when needed) comes before the buildx step, which is always last.
     */
    function Create(inventory: Inventory): (r: Result<seq<Step>, ConfigurationError>)
      reads this
      ensures contextType == InvalidLocalPath ==> r == Failure(InvalidContextPath(context))
      ensures contextType != InvalidLocalPath && !CloudBuilderAvailable(inventory) ==>
        r == Failure(MissingCloudBuilder(driver))
      ensures r.Success? <==> contextType != InvalidLocalPath && CloudBuilderAvailable(inventory)
      ensures r.Success? ==>
        var name := FirstCloudName(inventory).value;
        && IsLeastCloudName(inventory, name)
        && |r.value| == (if contextType.IsLocal() then 1 else 2)
        && r.value[|r.value| - 1] == BuildxCreateStep(name, context)
        && (|r.value| == 2 ==> r.value[0] == ContextCreateStep(context, name, remote))
    {
      var needed :- ContextNeeded();
      var contextStep :- if needed then (var step :- CreateContext(inventory); Success(Some(step))) else Success(None);
      var buildxStep :- CreateBuildx(inventory);
      Success(Chain([contextStep, Some(buildxStep)]))
    }
  }

  // ---------------------------------------------------------------------------
  // Properties of a builder whose context type is the one construction gives it

  /** An invalid local path fails `create` whatever the builder inventory holds. */
  lemma InvalidPathFailsBeforeLookup(b: CloudBuilder, inv1: Inventory, inv2: Inventory)
    requires b.contextType == InvalidLocalPath
    ensures b.Create(inv1) == b.Create(inv2) == Failure(InvalidContextPath(b.context))
  {
  }

  /**
   * Since every context other than standard input takes the local-path branch,
   * `create` registers a context only for `-` and `/dev/stdin`.
   */
  lemma ContextStepOnlyForStandardInput(b: CloudBuilder, inventory: Inventory, fs: FileSystem, parse: UriParser)
    requires b.contextType == Classify(b.context, fs, parse)
    requires b.Create(inventory).Success?
    ensures |b.Create(inventory).value| == 2 <==> IsStandardInput(b.context)
  {
    NeverRemoteOrUnknown(b.context, fs, parse);
  }

  /** A context naming nothing on disk (and not standard input) always fails `create`, with the context in the message. */
  lemma MissingPathFailsCreate(b: CloudBuilder, inventory: Inventory, fs: FileSystem, parse: UriParser)
    requires b.contextType == Classify(b.context, fs, parse)
    requires !IsStandardInput(b.context) && b.context !in fs.directories && b.context !in fs.files
    ensures b.Create(inventory) == Failure(InvalidContextPath(b.context))
    ensures b.Create(inventory).error.Message() == InvalidContextPrefix + b.context
  {
    LocalBranch(b.context, fs, parse);
  }

  /** The two steps of a two-step plan are of different kinds: the context step comes first, the buildx step second. */
  lemma CreateStepsDiffer(b: CloudBuilder, inventory: Inventory)
    requires b.Create(inventory).Success? && |b.Create(inventory).value| == 2
    ensures b.Create(inventory).value[0][..2] == ["context", "create"]
    ensures b.Create(inventory).value[1][..2] == ["buildx", "create"]
    ensures b.Create(inventory).value[0] != b.Create(inventory).value[1]
  {
    var name := FirstCloudName(inventory).value;
    StepKindsDistinct(b.context, name, b.remote, name, b.context, name);
  }

  /** A two-step plan gives back the context, the remote and the resolved builder name it was made from. */
  lemma CreatePlanDeterminesInputs(b1: CloudBuilder, inv1: Inventory, b2: CloudBuilder, inv2: Inventory)
    requires b1.Create(inv1).Success? && |b1.Create(inv1).value| == 2
    requires b1.Create(inv1) == b2.Create(inv2)
    ensures b1.context == b2.context && b1.remote == b2.remote
    ensures FirstCloudName(inv1) == FirstCloudName(inv2)
  {
    var n1, n2 := FirstCloudName(inv1).value, FirstCloudName(inv2).value;
    assert b1.Create(inv1).value[0] == ContextCreateStep(b1.context, n1, b1.remote);
    assert b2.Create(inv2).value[0] == ContextCreateStep(b2.context, n2, b2.remote);
    ContextCreateStepInjective(b1.context, n1, b1.remote, b2.context, n2, b2.remote);
  }

  /** Two failures of `create` with the same message are the same failure: the message tells a bad path from a missing builder. */
  lemma CreateFailureMessageDeterminesCause(b1: CloudBuilder, inv1: Inventory, b2: CloudBuilder, inv2: Inventory)
    requires b1.Create(inv1).Failure? && b2.Create(inv2).Failure?
    requires b1.Create(inv1).error.Message() == b2.Create(inv2).error.Message()
    ensures b1.Create(inv1).error == b2.Create(inv2).error
    ensures b1.Create(inv1).error.InvalidContextPath? <==> b1.contextType == InvalidLocalPath
  {
    MessageDeterminesError(b1.Create(inv1).error, b2.Create(inv2).error);
  }
}
