/** The AWS rollback plugin's target selection (lib/plugins/aws/rollback.js):
    `setStackToUpdate`, which picks the stored deployment to roll back to and
    points the service's artifact directory at it, and the `rollback:rollback`
    hook that drives it. The S3 listing together with its grouping into
    deployments, and the host's date conversion, are inputs of the model. */
module Rollback {
  import opened Wrappers

  /** One stored object of a deployment: the deployment directory (named
      `<millis>-<ISO date>`) and the file name within it. */
  datatype Item = Item(directory: string, file: string)

  /** The `listObjectsV2` query: the deployment bucket (undefined until it
      has been resolved) and the key prefix. */
  datatype ListQuery = ListQuery(bucket: Option<string>, prefix: string)

  /** What the rollback can fail with. The first and the last are
      ServerlessErrors with a code; the middle one is the RangeError that
      `toISOString` throws for an invalid date. */
  datatype RollbackError =
    | DeploymentsNotFound
    | InvalidTimeValue
    | DeploymentNotFound(timestamp: string)
  {
    function Code(): Option<string> {
      match this
      case DeploymentsNotFound => Some("ROLLBACK_DEPLOYMENTS_NOT_FOUND")
      case InvalidTimeValue => None
      case DeploymentNotFound(_) => Some("ROLLBACK_DEPLOYMENT_NOT_FOUND")
    }

    function Message(): string {
      match this
      case DeploymentsNotFound =>
        "Couldn't find any existing deployments. Please verify that stage and region are correct."
      case InvalidTimeValue => "Invalid time value"
      case DeploymentNotFound(t) =>
        "Couldn't find a deployment for the timestamp: " + t
        + ". Please verify that the timestamp, stage and region are correct."
    }
  }

  /** The steps the rollback hook takes, in the order it takes them. */
  datatype Step = Spawn(event: string) | CallSetBucketName | CallSetStackToUpdate | CallUpdateStack

  /** The storage key prefix `<deploymentPrefix>/<service>/<stage>`. */
  function Prefix(deploymentPrefix: string, serviceName: string, stage: string): string {
    deploymentPrefix + "/" + serviceName + "/" + stage
  }

  /** A template literal's rendering of the `timestamp` option. */
  function TimestampText(timestamp: Option<string>): string {
    match timestamp
    case None => "undefined"
    case Some(t) => t
  }

  /** `!options.timestamp` fails: the option is absent or the empty string. */
  predicate TimestampGiven(timestamp: Option<string>) {
    timestamp.Some? && timestamp.value != ""
  }

  /** The `<millis>-<ISO>` string of the timestamp option. `dateStringOf` is
      the host's date conversion (parse as a date, else as a number, then
      format); it gives None where the date is invalid and `toISOString`
      throws. An absent option is always an invalid date. */
  function DateString(timestamp: Option<string>, dateStringOf: string -> Option<string>): Option<string> {
    match timestamp
    case None => None
    case Some(t) => dateStringOf(t)
  }

  /** An item marks the deployment to roll back to. */
  predicate Matches(item: Item, dateString: string, templateSuffix: string) {
    item.directory == dateString && item.file == templateSuffix
  }

  /** The inner `deployment.some(...)`. */
  function GroupHasMatch(group: seq<Item>, dateString: string, templateSuffix: string): (r: bool)
    ensures r <==> exists i :: 0 <= i < |group| && Matches(group[i], dateString, templateSuffix)
  {
    if group == [] then false
    else Matches(group[0], dateString, templateSuffix) || GroupHasMatch(group[1..], dateString, templateSuffix)
  }

  /** The outer `deployments.some(...)`. */
  function DeploymentExists(groups: seq<seq<Item>>, dateString: string, templateSuffix: string): (r: bool)
    ensures r <==> exists g, i :: 0 <= g < |groups| && 0 <= i < |groups[g]|
                                  && Matches(groups[g][i], dateString, templateSuffix)
  {
    if groups == [] then false
    else GroupHasMatch(groups[0], dateString, templateSuffix)
         || DeploymentExists(groups[1..], dateString, templateSuffix)
  }

  /** What `setStackToUpdate` decides from the listing it receives: an error,
      or the artifact directory to deploy from. */
  function SelectTarget(prefix: string, groups: seq<seq<Item>>, timestamp: Option<string>,
                        dateString: Option<string>, templateSuffix: string): (r: Result<string, RollbackError>)
    // no deployments at all is reported first, whatever the timestamp
    ensures groups == [] ==> r == Failure(DeploymentsNotFound)
    ensures groups != [] && dateString.None? ==> r == Failure(InvalidTimeValue)
    // with a valid date the result succeeds iff some item matches on both fields
    ensures groups != [] && dateString.Some? ==>
              (r.Success? <==> exists g, i :: 0 <= g < |groups| && 0 <= i < |groups[g]|
                                              && Matches(groups[g][i], dateString.value, templateSuffix))
    ensures groups != [] && dateString.Some? && r.Failure? ==>
              r.error == DeploymentNotFound(TimestampText(timestamp))
    // the chosen directory is the date string below the listing prefix
    ensures r.Success? ==> dateString.Some? && |prefix| + 1 <= |r.value|
                           && r.value[..|prefix| + 1] == prefix + "/"
                           && r.value[|prefix| + 1..] == dateString.value
  {
    if groups == [] then Failure(DeploymentsNotFound)
    else if dateString.None? then Failure(InvalidTimeValue)
    else if !DeploymentExists(groups, dateString.value, templateSuffix) then
      Failure(DeploymentNotFound(TimestampText(timestamp)))
    else
      Success(prefix + "/" + dateString.value)
  }

  /** Each failure of the selection carries the error code the source
      throws it with; the RangeError of an invalid date has none. */
  lemma SelectTargetErrorCodes(prefix: string, groups: seq<seq<Item>>, timestamp: Option<string>,
                               dateString: Option<string>, templateSuffix: string)
    ensures groups == [] ==>
              SelectTarget(prefix, groups, timestamp, dateString, templateSuffix).error.Code()
              == Some("ROLLBACK_DEPLOYMENTS_NOT_FOUND")
    ensures groups != [] && dateString.None? ==>
              SelectTarget(prefix, groups, timestamp, dateString, templateSuffix).error.Code() == None
    ensures groups != [] && dateString.Some? && !DeploymentExists(groups, dateString.value, templateSuffix) ==>
              var e := SelectTarget(prefix, groups, timestamp, dateString, templateSuffix).error;
              e.Code() == Some("ROLLBACK_DEPLOYMENT_NOT_FOUND")
              && e.Message() == "Couldn't find a deployment for the timestamp: " + TimestampText(timestamp)
                                + ". Please verify that the timestamp, stage and region are correct."
  {
  }

  /** All items of all groups, in order. */
  function Flatten(groups: seq<seq<Item>>): seq<Item> {
    if groups == [] then [] else groups[0] + Flatten(groups[1..])
  }

  /** How the listing is split into groups does not matter: a deployment is
      found iff some listed item matches. */
  lemma {:induction false} ExistsIgnoresGrouping(groups: seq<seq<Item>>, dateString: string, templateSuffix: string)
    ensures DeploymentExists(groups, dateString, templateSuffix)
            == GroupHasMatch(Flatten(groups), dateString, templateSuffix)
  {
    if groups != [] {
      ExistsIgnoresGrouping(groups[1..], dateString, templateSuffix);
      GroupHasMatchConcat(groups[0], Flatten(groups[1..]), dateString, templateSuffix);
    }
  }

  lemma GroupHasMatchConcat(a: seq<Item>, b: seq<Item>, dateString: string, templateSuffix: string)
    ensures GroupHasMatch(a + b, dateString, templateSuffix)
            == (GroupHasMatch(a, dateString, templateSuffix) || GroupHasMatch(b, dateString, templateSuffix))
  {
    if GroupHasMatch(a, dateString, templateSuffix) {
      var i :| 0 <= i < |a| && Matches(a[i], dateString, templateSuffix);
      assert (a + b)[i] == a[i];
    }
    if GroupHasMatch(b, dateString, templateSuffix) {
      var i :| 0 <= i < |b| && Matches(b[i], dateString, templateSuffix);
      assert (a + b)[|a| + i] == b[i];
    }
    if GroupHasMatch(a + b, dateString, templateSuffix) {
      var i :| 0 <= i < |a + b| && Matches((a + b)[i], dateString, templateSuffix);
      if i >= |a| {
        assert b[i - |a|] == (a + b)[i];
      } else {
        assert a[i] == (a + b)[i];
      }
    }
  }

  /** A directory match alone is not enough: with no item carrying the
      compiled-template file name, nothing is found. */
  lemma DirectoryAloneNotFound(groups: seq<seq<Item>>, dateString: string, templateSuffix: string)
    requires forall g, i :: 0 <= g < |groups| && 0 <= i < |groups[g]| ==> groups[g][i].file != templateSuffix
    ensures !DeploymentExists(groups, dateString, templateSuffix)
  {
  }

  /** A file match alone is not enough: with no item in the timestamp's
      directory, nothing is found. */
  lemma FileAloneNotFound(groups: seq<seq<Item>>, dateString: string, templateSuffix: string)
    requires forall g, i :: 0 <= g < |groups| && 0 <= i < |groups[g]| ==> groups[g][i].directory != dateString
    ensures !DeploymentExists(groups, dateString, templateSuffix)
  {
  }

  /** On success the artifact directory is
      `<deploymentPrefix>/<service>/<stage>/<dateString>`. */
  lemma ArtifactDirectoryLayout(deploymentPrefix: string, serviceName: string, stage: string,
                                groups: seq<seq<Item>>, timestamp: Option<string>,
                                dateString: Option<string>, templateSuffix: string)
    requires SelectTarget(Prefix(deploymentPrefix, serviceName, stage), groups, timestamp,
                          dateString, templateSuffix).Success?
    ensures dateString.Some?
    ensures SelectTarget(Prefix(deploymentPrefix, serviceName, stage), groups, timestamp,
                         dateString, templateSuffix).value
            == deploymentPrefix + "/" + serviceName + "/" + stage + "/" + dateString.value
  {
  }

  /** A listing with the template in a matching directory selects it, and
      the same listing with the wrong file or the wrong directory does not. */
  lemma TwoFieldMatchExamples()
    ensures SelectTarget("serverless/svc/dev", [[Item("1-A", "other.json"), Item("1-A", "t.json")]],
                         Some("1"), Some("1-A"), "t.json")
            == Success("serverless/svc/dev/1-A")
    ensures SelectTarget("serverless/svc/dev", [[Item("1-A", "other.json")], [Item("2-B", "t.json")]],
                         Some("1"), Some("1-A"), "t.json")
            == Failure(DeploymentNotFound("1"))
    ensures SelectTarget("serverless/svc/dev", [], Some("1"), None, "t.json")
            == Failure(DeploymentsNotFound)
  {
    assert !Matches(Item("1-A", "other.json"), "1-A", "t.json");
    assert !Matches(Item("2-B", "t.json"), "1-A", "t.json");
    var hit := [[Item("1-A", "other.json"), Item("1-A", "t.json")]];
    assert Matches(hit[0][1], "1-A", "t.json");
    assert "serverless/svc/dev" + "/" + "1-A" == "serverless/svc/dev/1-A";
  }

  /** `serverless.service`: its name and the package's artifact directory. */
  class Service {
    var name: string
    var artifactDirectoryName: Option<string>

    constructor (name: string, artifactDirectoryName: Option<string>)
      ensures this.name == name && this.artifactDirectoryName == artifactDirectoryName
    {
      this.name := name;
      this.artifactDirectoryName := artifactDirectoryName;
    }
  }

  /** The plugin instance. Provider answers (stage, deployment prefix,
      compiled-template suffix), the options' timestamp, the date conversion
      and the S3 listing already grouped into deployments are fixed inputs. */
  class AwsRollback {
    const service: Service
    const stage: string
    const deploymentPrefix: string
    const templateSuffix: string
    const timestamp: Option<string>
    const dateStringOf: string -> Option<string>
    const listDeployments: ListQuery -> seq<seq<Item>>
    var bucketName: Option<string>
    /** The steps the hook has taken, oldest first. */
    var steps: seq<Step>

    constructor (service: Service, stage: string, deploymentPrefix: string, templateSuffix: string,
                 timestamp: Option<string>, dateStringOf: string -> Option<string>,
                 listDeployments: ListQuery -> seq<seq<Item>>)
      ensures this.service == service && this.stage == stage
      ensures this.deploymentPrefix == deploymentPrefix && this.templateSuffix == templateSuffix
      ensures this.timestamp == timestamp && this.dateStringOf == dateStringOf
      ensures this.listDeployments == listDeployments
      ensures bucketName == None && steps == []
    {
      this.service := service;
      this.stage := stage;
      this.deploymentPrefix := deploymentPrefix;
      this.templateSuffix := templateSuffix;
      this.timestamp := timestamp;
      this.dateStringOf := dateStringOf;
      this.listDeployments := listDeployments;
      bucketName := None;
      steps := [];
    }

    /** The selection `setStackToUpdate` makes in the current state. */
    function Selection(): Result<string, RollbackError>
      reads this, service`name
    {
      var prefix := Prefix(deploymentPrefix, service.name, stage);
      SelectTarget(prefix, listDeployments(ListQuery(bucketName, prefix)), timestamp,
                   DateString(timestamp, dateStringOf), templateSuffix)
    }

    /** `setStackToUpdate`: lists the deployments under the service's prefix,
        picks the one for the timestamp and points the artifact directory at
        it; on an error nothing changes. */
    method SetStackToUpdate() returns (r: Outcome<RollbackError>)
      modifies service`artifactDirectoryName
      ensures service.name == old(service.name)
      ensures old(Selection()).Success? ==>
                r == Pass && service.artifactDirectoryName == Some(old(Selection()).value)
      ensures old(Selection()).Failure? ==>
                r == Fail(old(Selection()).error)
                && service.artifactDirectoryName == old(service.artifactDirectoryName)
    {
      var prefix := Prefix(deploymentPrefix, service.name, stage);
      var deployments := listDeployments(ListQuery(bucketName, prefix));
      if |deployments| == 0 {
        return Fail(DeploymentsNotFound);
      }
      var dateString := DateString(timestamp, dateStringOf);
      if dateString.None? {
        return Fail(InvalidTimeValue);
      }
      var found := DeploymentExists(deployments, dateString.value, templateSuffix);
      if !found {
        return Fail(DeploymentNotFound(TimestampText(timestamp)));
      }
      service.artifactDirectoryName := Some(prefix + "/" + dateString.value);
      r := Pass;
    }

    /** The `rollback:rollback` hook. Without a timestamp it only asks for the
        deployment list. Otherwise it stores the deployment bucket `resolved`
        (the result of the external `setBucketName`), runs `setStackToUpdate`
        and, when that succeeds, hands over to the stack update. */
    method RollbackHook(resolved: string) returns (r: Outcome<RollbackError>)
      modifies this`bucketName, this`steps, service`artifactDirectoryName
      ensures service.name == old(service.name)
      ensures !TimestampGiven(timestamp) ==>
                r == Pass && steps == old(steps) + [Spawn("deploy:list")]
                && bucketName == old(bucketName)
                && service.artifactDirectoryName == old(service.artifactDirectoryName)
      ensures TimestampGiven(timestamp) ==>
                bucketName == Some(resolved)
      ensures TimestampGiven(timestamp) && Selection().Success? ==>
                r == Pass && steps == old(steps) + [CallSetBucketName, CallSetStackToUpdate, CallUpdateStack]
                && service.artifactDirectoryName == Some(Selection().value)
      ensures TimestampGiven(timestamp) && Selection().Failure? ==>
                r == Fail(Selection().error) && steps == old(steps) + [CallSetBucketName, CallSetStackToUpdate]
                && service.artifactDirectoryName == old(service.artifactDirectoryName)
    {
      if !TimestampGiven(timestamp) {
        steps := steps + [Spawn("deploy:list")];
        return Pass;
      }
      steps := steps + [CallSetBucketName];
      bucketName := Some(resolved);
      steps := steps + [CallSetStackToUpdate];
      r := SetStackToUpdate();
      if r.Fail? {
        return;
      }
      steps := steps + [CallUpdateStack];
    }
  }
}
