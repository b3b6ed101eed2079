# Console enablement and rollback target selection

This project models two decision cores of the Serverless Framework CLI in
Dafny and proves properties of them.

- **Console enablement** (`lib/classes/console.js`). Constructing a `Console`
  joins `processedInput.commands` with single spaces. It sets `isEnabled`
  when three things hold: that joined command is one of `deploy`,
  `deploy function`, `package` and `rollback`; the configuration's
  `console` value is truthy; and its `org` value is truthy. The model
  (`console.dfy`, module `Console`) writes this as a pure function over a
  command path and a configuration map whose values carry JavaScript
  truthiness. `a && b` is modelled as JavaScript evaluates it. The main
  lemma, `JoinSupported`, gives the exact set of command paths that join to
  a supported command: `["deploy"]`, `["deploy function"]`,
  `["deploy", "function"]`, `["package"]` and `["rollback"]`.
- **Rollback target selection** (`lib/plugins/aws/rollback.js`). The model is
  in `rollback.dfy`, module `Rollback`. `setStackToUpdate` builds the prefix
  `<deploymentPrefix>/<service>/<stage>` and lists the deployments stored
  under it. It then checks for errors in this order:
  1. no deployments at all: fails with `ROLLBACK_DEPLOYMENTS_NOT_FOUND`;
  2. the timestamp is not a valid date: `toISOString` throws a RangeError;
  3. no item has directory `<millis>-<ISO>` and the compiled-template file
     name: fails with `ROLLBACK_DEPLOYMENT_NOT_FOUND`.

  If none of these applies, it sets `service.package.artifactDirectoryName`
  to `<prefix>/<dateString>`. The pure decision is the function
  `SelectTarget`. The state change is the method `SetStackToUpdate` on class
  `AwsRollback`, which holds the plugin's inputs and a `Service` object. Its
  `modifies` clause names only the service's `artifactDirectoryName`. The
  `rollback:rollback` hook is the method `RollbackHook`. It records the steps
  it takes in a `steps` trace. Without a timestamp it only requests
  `deploy:list`.

`wrappers.dfy` holds the `Option`, `Result` and `Outcome` datatypes.

Inputs and external collaborators:

- The S3 `listObjectsV2` request and the grouping done by
  `findAndGroupDeployments` are one input function, `listDeployments`. It
  maps the query (bucket and prefix) to the grouped items.
- The host's date handling is the input function `dateStringOf`. This covers
  `new Date(...)`, the numeric fallback and the `getTime()-toISOString()`
  string. It returns None for an invalid date. An absent timestamp is always
  an invalid date, because both `new Date(undefined)` and
  `Number(undefined)` are invalid.
- The provider's stage, the deployment prefix and the compiled-template S3
  suffix are constants of the `AwsRollback` object.
- `setBucketName` comes from `lib/plugins/aws/lib/set-bucket-name`, which is
  not part of this model. The hook takes the bucket name that step resolves
  as a parameter and stores it in `bucketName`.

`lib/classes/console.js` decides from the joined command, `console` and
`org` alone. It has no CLI org override, no provider check and no scan of
functions.

## Model

| member | source | states |
|---|---|---|
| `Console.JsAndTruthy` | lib/classes/console.js:17 | `Boolean(a && b)` is true iff both `a` and `b` are truthy |
| `Console.JoinSupported` | lib/classes/console.js:5-16 | the space-joined command is in the supported set iff the command path is one of the five paths `["deploy"]`, `["deploy function"]`, `["deploy","function"]`, `["package"]`, `["rollback"]` (both directions) |
| `Console.IsEnabled` | lib/classes/console.js:14-17 | `isEnabled` is a boolean that holds iff the joined command is supported and `console` and `org` are both truthy; equivalently, iff the command path is one of the five supported paths and both values are truthy |
| `Console.ConsoleRequired` | lib/classes/console.js:17 | with `console` absent or falsy, the integration is off for every command path |
| `Console.OrgRequired` | lib/classes/console.js:17 | with `org` absent or falsy, the integration is off for every command path, even with `console: true` |
| `Console.UnsupportedCommandDisabled` | lib/classes/console.js:16 | a command path whose join is not supported leaves the integration off, whatever the configuration |
| `Console.EnabledBySupportedCommand` | lib/classes/console.js:15-17 | with `console` and `org` both truthy, the integration is on exactly for the supported command paths |
| `Console.DependsOnlyOnConsoleAndOrg` | lib/classes/console.js:15-17 | two configurations whose `console` and `org` values have the same truthiness give the same decision for every command path; no other key matters |
| `Console.SingleSpaceSeparator` | lib/classes/console.js:14 | `["deploy","function"]` joins to a supported command, but `["deploy"," function"]` and `["deployfunction"]` do not |
| `Console.PackageWithConsoleAndOrg` | test/unit/lib/classes/console.test.js:21-37 | `package` with `console: true` and `org: 'testorg'` is enabled |
| `Console.PackageWithoutConsole` | test/unit/lib/classes/console.test.js:53-59 | `package` with only `org: 'testorg'` is not enabled |
| `Console.PrintUnsupported` | test/unit/lib/classes/console.test.js:61-67 | `print` with `console: true` and `org: 'testorg'` is not enabled |
| `Rollback.GroupHasMatch` | lib/plugins/aws/rollback.js:106-110 | the inner `some` is true iff some item of the group has both the timestamp's directory and the template file name |
| `Rollback.DeploymentExists` | lib/plugins/aws/rollback.js:105-111 | the nested `some` is true iff some item of some group matches on both directory and file |
| `Rollback.SelectTarget` | lib/plugins/aws/rollback.js:83-119 | an empty listing fails with `DeploymentsNotFound` whatever the timestamp; a non-empty listing with an invalid date fails with the RangeError; with a valid date it succeeds iff some item matches on both fields, and otherwise fails with `DeploymentNotFound` carrying the timestamp; on success the directory is `<prefix>/` followed by the date string |
| `Rollback.SelectTargetErrorCodes` | lib/plugins/aws/rollback.js:91-117 | an empty listing fails with code `ROLLBACK_DEPLOYMENTS_NOT_FOUND`; a non-empty listing with a valid date and no matching item fails with code `ROLLBACK_DEPLOYMENT_NOT_FOUND` and a message naming the timestamp; the invalid-date RangeError carries no code |
| `Rollback.ExistsIgnoresGrouping` | lib/plugins/aws/rollback.js:105-111 | how the listing is grouped does not matter: a deployment is found iff some item of the flattened listing matches |
| `Rollback.DirectoryAloneNotFound` | lib/plugins/aws/rollback.js:107-110 | if no item has the template file name, nothing is found, even when directories match |
| `Rollback.FileAloneNotFound` | lib/plugins/aws/rollback.js:107-110 | if no item is in the timestamp's directory, nothing is found, even when file names match |
| `Rollback.ArtifactDirectoryLayout` | lib/plugins/aws/rollback.js:83-119 | on success the artifact directory is `deploymentPrefix + "/" + service + "/" + stage + "/" + dateString` |
| `Rollback.TwoFieldMatchExamples` | lib/plugins/aws/rollback.js:89-119 | concrete listings: an item matching on both fields is selected; a matching directory with another file, or the template file in another directory, gives `DeploymentNotFound`; an empty listing gives `DeploymentsNotFound` |
| `Rollback.AwsRollback.SetStackToUpdate` | lib/plugins/aws/rollback.js:78-120 | queries the listing with the bucket and the service's prefix; on success sets only `artifactDirectoryName` to the selected directory; on each error it throws that error and leaves the service unchanged; the service name never changes |
| `Rollback.AwsRollback.RollbackHook` | lib/plugins/aws/rollback.js:35-54 | without a timestamp (absent or empty) it only spawns `deploy:list`, and the bucket name and service stay unchanged; with one it resolves the bucket and runs `setStackToUpdate`, and it hands over to the stack update only when that step succeeds; an error stops the hook with that error |

## Left out

- The S3 `listObjectsV2` call and `findAndGroupDeployments`: network I/O,
  and `lib/plugins/aws/utils/find-and-group-deployments` is not part of this
  model. Together they are the input function `listDeployments`. That
  function is total, so the model drops a rejected `provider.request`
  (lib/plugins/aws/rollback.js:85-88), which would propagate out of
  `setStackToUpdate`.
- `provider.naming.getCompiledTemplateS3Suffix`, `provider.getStage` and
  `provider.getDeploymentPrefix`: their source is not part of this model.
  They are constants of `AwsRollback`.
- JavaScript `Date` parsing, the numeric fallback and the `toISOString`
  formatting (lib/plugins/aws/rollback.js:97-104): host date behaviour, so
  they are the input function `dateStringOf`.
- `setBucketName` (`lib/plugins/aws/lib/set-bucket-name` is not part of this
  model): the hook takes the resolved bucket name as a parameter. The model
  therefore drops a failing `setBucketName` (lib/plugins/aws/rollback.js:51),
  which would stop the hook before `setStackToUpdate`.
- `updateStack`, `monitorStack` and the change-set helpers mixed in at
  lib/plugins/aws/rollback.js:21-30: an external stack-update engine. The
  hook only records that it hands over to `updateStack`.
- Rollback.AwsRollback.RollbackHook: does not model a failure of
  `updateStack` or its true/false result, because that result only selects
  a log message.
- The `before:rollback:initialize` hook (`validate`): its source is not part
  of this model.
- All `log` and `progress` output, and the elapsed seconds computed from
  `Date.now()` (lib/plugins/aws/rollback.js:37-40, 45-49, 53, 56-73):
  console output and wall-clock time.
- `pluginManager.spawn`: the model records the spawned `deploy:list` event
  in the `steps` trace and does not run it.
- The `CONSOLE_NOT_AUTHENTICATED` abort tested at
  test/unit/lib/classes/console.test.js:41-48: the code that raises it is not
  part of this model.
- Ingestion token create, activate and deactivate, layer versioning, the
  persisted-state consistency checks, and the provider and function-support
  checks: none of these is in the modelled code.
- `_.get` with a deep path or an inherited property: the console code reads
  two top-level keys. The configuration is a map of top-level keys.
- JavaScript numbers are reals plus a separate NaN. Only their truthiness
  is used.
