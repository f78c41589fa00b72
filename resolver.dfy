/**
 * Resolution of the cloud builder's name (`builder_name` with its two
 * `docker builder ls | jq` queries). The builder inventory that
 * `docker builder ls --format json` lists is passed in as a sequence of
 * (name, driver) records; the jq programs become functions over it.
 */
module Resolver {
  import opened Wrappers
  import opened Strings
  import opened Errors

  /** One record of the builder inventory: its `.Name` and `.Driver` fields. */
  datatype BuilderEntry = BuilderEntry(name: string, driver: string)

  type Inventory = seq<BuilderEntry>

  const CloudDriver := "cloud"

  /** Some entry of the inventory uses the cloud driver. */
  predicate CloudBuilderAvailable(inventory: Inventory) {
    exists i :: 0 <= i < |inventory| && inventory[i].driver == CloudDriver
  }

  /** n is the name of a cloud-driver entry. */
  ghost predicate IsCloudName(inventory: Inventory, n: string) {
    exists i :: 0 <= i < |inventory| && inventory[i].driver == CloudDriver && inventory[i].name == n
  }

  /** n is a cloud-driver name that no other cloud-driver name precedes. */
  ghost predicate IsLeastCloudName(inventory: Inventory, n: string) {
    && IsCloudName(inventory, n)
    && forall i :: 0 <= i < |inventory| && inventory[i].driver == CloudDriver ==>
         n == inventory[i].name || Less(n, inventory[i].name)
  }

  /** jq `map(select(.Driver == "cloud")) | map(.Name)`: the cloud-driver names. */
  function CloudNames(inventory: Inventory): (names: seq<string>)
    ensures |names| <= |inventory|
    ensures forall n :: n in names <==> IsCloudName(inventory, n)
  {
    if inventory == [] then []
    else
      var rest := CloudNames(inventory[1..]);
      assert forall n :: IsCloudName(inventory[1..], n) ==> IsCloudName(inventory, n) by {
        forall n | IsCloudName(inventory[1..], n) ensures IsCloudName(inventory, n) {
          var i :| 0 <= i < |inventory[1..]| && inventory[1..][i].driver == CloudDriver && inventory[1..][i].name == n;
          assert inventory[i + 1] == inventory[1..][i];
        }
      }
      assert forall n :: IsCloudName(inventory, n) ==>
               (n == inventory[0].name && inventory[0].driver == CloudDriver) || IsCloudName(inventory[1..], n) by {
        forall n | IsCloudName(inventory, n)
          ensures (n == inventory[0].name && inventory[0].driver == CloudDriver) || IsCloudName(inventory[1..], n)
        {
          var i :| 0 <= i < |inventory| && inventory[i].driver == CloudDriver && inventory[i].name == n;
          if i > 0 { assert inventory[1..][i - 1] == inventory[i]; }
        }
      }
      (if inventory[0].driver == CloudDriver then [inventory[0].name] else []) + rest
  }

  /** Every earlier element strictly precedes every later one: sorted and without duplicates. */
  predicate StrictlySorted(s: seq<string>) {
    forall i, j :: 0 <= i < j < |s| ==> Less(s[i], s[j])
  }

  /** Inserts x into a strictly sorted sequence, unless it is already there. */
  function InsertUnique(x: string, s: seq<string>): (r: seq<string>)
    requires StrictlySorted(s)
    ensures StrictlySorted(r)
    ensures forall y :: y in r <==> y == x || y in s
  {
    if s == [] then [x]
    else if x == s[0] then s
    else if Less(x, s[0]) then
      assert forall j :: 0 < j < |s| ==> Less(x, s[j]) by {
        forall j | 0 < j < |s| ensures Less(x, s[j]) { LessTransitive(x, s[0], s[j]); }
      }
      [x] + s
    else
      LessTotal(x, s[0]);
      var tail := InsertUnique(x, s[1..]);
      assert forall y :: y in tail ==> Less(s[0], y) by {
        forall y | y in tail ensures Less(s[0], y) {
          if y != x {
            var j :| 0 <= j < |s[1..]| && s[1..][j] == y;
            assert s[j + 1] == y;
          }
        }
      }
      [s[0]] + tail
  }

  /** jq `unique`: the distinct elements, sorted. */
  function Unique(names: seq<string>): (r: seq<string>)
    ensures StrictlySorted(r)
    ensures forall y :: y in r <==> y in names
  {
    if names == [] then [] else InsertUnique(names[0], Unique(names[1..]))
  }

  /** The head of a strictly sorted sequence precedes or equals each of its elements. */
  lemma SortedHeadLeast(s: seq<string>, y: string)
    requires StrictlySorted(s) && y in s
    ensures y == s[0] || Less(s[0], y)
  {
    var j :| 0 <= j < |s| && s[j] == y;
    if j > 0 { assert Less(s[0], s[j]); }
  }

  /** The tail of a strictly sorted sequence holds exactly its elements other than the head. */
  lemma SortedTailMembers(s: seq<string>, y: string)
    requires StrictlySorted(s) && s != []
    ensures y in s[1..] <==> y in s && y != s[0]
  {
    LessIrreflexive(s[0]);
    if y in s[1..] {
      var i :| 0 <= i < |s[1..]| && s[1..][i] == y;
      assert Less(s[0], s[i + 1]);
    }
    if y in s && y != s[0] {
      var j :| 0 <= j < |s| && s[j] == y;
      assert s[1..][j - 1] == y;
    }
  }

  /** Two strictly sorted sequences with the same elements are the same sequence: `unique` has one answer. */
  lemma {:induction false} StrictlySortedCanonical(a: seq<string>, b: seq<string>)
    requires StrictlySorted(a) && StrictlySorted(b)
    requires forall y :: y in a <==> y in b
    ensures a == b
    decreases |a|
  {
    assert a != [] ==> a[0] in b;
    assert b != [] ==> b[0] in a;
    if a != [] {
      SortedHeadLeast(b, a[0]);
      SortedHeadLeast(a, b[0]);
      LessAsymmetric(a[0], b[0]);
      assert a[0] == b[0];
      forall y ensures y in a[1..] <==> y in b[1..] {
        SortedTailMembers(a, y);
        SortedTailMembers(b, y);
      }
      StrictlySortedCanonical(a[1..], b[1..]);
      assert a == [a[0]] + a[1..] && b == [b[0]] + b[1..];
    }
  }

  /** jq `unique` is the sorted sequence of distinct elements, the only strictly sorted sequence with those elements. */
  lemma UniqueIsSortedDistinct(names: seq<string>, s: seq<string>)
    requires StrictlySorted(s)
    requires forall y :: y in s <==> y in names
    ensures Unique(names) == s
  {
    StrictlySortedCanonical(Unique(names), s);
  }

  /**
   * jq `map(select(.Driver == "cloud")) | map(.Name) | unique | first`, before
   * jq prints it: None where jq's `first` of an empty array is null.
   */
  function FirstCloudName(inventory: Inventory): (r: Option<string>)
    ensures r.Some? <==> CloudBuilderAvailable(inventory)
    ensures r.Some? ==> IsLeastCloudName(inventory, r.value)
  {
    var u := Unique(CloudNames(inventory));
    assert forall i :: 0 <= i < |inventory| && inventory[i].driver == CloudDriver ==> inventory[i].name in u by {
      forall i | 0 <= i < |inventory| && inventory[i].driver == CloudDriver ensures inventory[i].name in u {
        assert IsCloudName(inventory, inventory[i].name);
      }
    }
    if u == [] then
      None
    else
      assert IsCloudName(inventory, u[0]);
      assert forall i :: 0 <= i < |inventory| && inventory[i].driver == CloudDriver ==>
               u[0] == inventory[i].name || Less(u[0], inventory[i].name) by {
        forall i | 0 <= i < |inventory| && inventory[i].driver == CloudDriver
          ensures u[0] == inventory[i].name || Less(u[0], inventory[i].name)
        {
          var j :| 0 <= j < |u| && u[j] == inventory[i].name;
        }
      }
      Some(u[0])
  }

  /** At most one name is least: the tie-break among several cloud builders is deterministic. */
  lemma LeastCloudNameUnique(inventory: Inventory, n: string, m: string)
    requires IsLeastCloudName(inventory, n) && IsLeastCloudName(inventory, m)
    ensures n == m
  {
    if n != m {
      var i :| 0 <= i < |inventory| && inventory[i].driver == CloudDriver && inventory[i].name == m;
      var j :| 0 <= j < |inventory| && inventory[j].driver == CloudDriver && inventory[j].name == n;
      assert Less(n, m) && Less(m, n);
      LessAsymmetric(n, m);
    }
  }

  /** The resolved name depends only on which cloud-driver names exist, not on their order or repetition. */
  lemma FirstCloudNameIgnoresOrder(inv1: Inventory, inv2: Inventory)
    requires forall n :: IsCloudName(inv1, n) <==> IsCloudName(inv2, n)
    ensures FirstCloudName(inv1) == FirstCloudName(inv2)
  {
    var r1, r2 := FirstCloudName(inv1), FirstCloudName(inv2);
    if r1.Some? {
      var i :| 0 <= i < |inv1| && inv1[i].driver == CloudDriver;
      assert IsCloudName(inv1, inv1[i].name);
    }
    if r2.Some? {
      var i :| 0 <= i < |inv2| && inv2[i].driver == CloudDriver;
      assert IsCloudName(inv2, inv2[i].name);
    }
    if r1.Some? && r2.Some? {
      forall i | 0 <= i < |inv2| && inv2[i].driver == CloudDriver
        ensures r1.value == inv2[i].name || Less(r1.value, inv2[i].name)
      {
        assert IsCloudName(inv2, inv2[i].name);
        var j :| 0 <= j < |inv1| && inv1[j].driver == CloudDriver && inv1[j].name == inv2[i].name;
      }
      LeastCloudNameUnique(inv2, r1.value, r2.value);
    }
  }

  /**
   * `builder_name` as the class uses it: the least cloud-driver name, or
   * `ConfigurationError("Missing cloud builder name for driver: <driver>")`
   * when the inventory has no cloud-driver entry.
   */
  function ResolveBuilderName(inventory: Inventory, driver: string): (r: Result<string, ConfigurationError>)
    ensures r.Failure? <==> !CloudBuilderAvailable(inventory)
    ensures r.Failure? ==> r.error == MissingCloudBuilder(driver)
    ensures r.Success? ==> IsLeastCloudName(inventory, r.value)
  {
    match FirstCloudName(inventory)
    case None => Failure(MissingCloudBuilder(driver))
    case Some(name) => Success(name)
  }

  // ---------------------------------------------------------------------------
  // The guard of `builder_name` as written

  /**
   * `bln_cloud_builder_available` as written. `query` is the inventory jq
   * reads, or None when jq prints nothing: jq is missing, or `docker builder
   * ls` wrote something that is not JSON. jq `map(.Driver) | contains(["cloud"])`
   * prints `true` or `false` and a newline, and `strip!` returns the stripped
   * string because it removed that newline; on empty output it removes
   * nothing and returns nil. jq's `contains` on strings is a substring test,
   * so a driver that merely includes "cloud" also counts.
   */
  function AvailabilityOutput(query: Option<Inventory>): (r: Option<string>)
    ensures r.None? <==> query.None?
    ensures r.Some? ==> r.value == "true" || r.value == "false"
    ensures query.Some? ==>
      (r.value == "false" <==> forall i :: 0 <= i < |query.value| ==> !Contains(query.value[i].driver, CloudDriver))
  {
    match query
    case None => None
    case Some(inventory) =>
      Some(if exists i :: 0 <= i < |inventory| && Contains(inventory[i].driver, CloudDriver) then "true" else "false")
  }

  /**
   * `builder_name` as written: line 42 tests the truthiness of the `strip!`
   * result, so it raises only when that result is nil; any string, "false"
   * included, selects the name query's output.
   */
  function BuilderNameAsWritten(availability: Option<string>, nameOutput: Option<string>, driver: string)
    : (r: Result<Option<string>, ConfigurationError>)
    ensures r.Failure? <==> availability.None?
    ensures r.Failure? ==> r.error == MissingCloudBuilder(driver)
    ensures r.Success? ==> r.value == nameOutput
  {
    if availability.Some? then Success(nameOutput) else Failure(MissingCloudBuilder(driver))
  }

  /** As written, the missing-builder error is never raised when jq prints its answer. */
  lemma AsWrittenNeverRaises(inventory: Inventory, nameOutput: Option<string>, driver: string)
    ensures BuilderNameAsWritten(AvailabilityOutput(Some(inventory)), nameOutput, driver).Success?
  {
  }

  /** As written, the missing-builder error is raised exactly when the inventory query printed nothing. */
  lemma AsWrittenRaisesOnlyOnFailedQuery(query: Option<Inventory>, nameOutput: Option<string>, driver: string)
    ensures BuilderNameAsWritten(AvailabilityOutput(query), nameOutput, driver) ==
      if query.None? then Failure(MissingCloudBuilder(driver)) else Success(nameOutput)
  {
  }

  /** An inventory with only a docker-driver builder: the intended resolution raises, the written guard lets it through. */
  lemma AsWrittenGuardCounterexample(nameOutput: Option<string>, driver: string)
    ensures var inventory := [BuilderEntry("default", "docker")];
      && AvailabilityOutput(Some(inventory)) == Some("false")
      && ResolveBuilderName(inventory, driver) == Failure(MissingCloudBuilder(driver))
      && BuilderNameAsWritten(AvailabilityOutput(Some(inventory)), nameOutput, driver).Success?
  {
    var inventory := [BuilderEntry("default", "docker")];
    NotContainsMissingChar("docker", CloudDriver, 'l');
    assert !CloudBuilderAvailable(inventory) by {
      assert inventory[0].driver != CloudDriver;
    }
  }
}
