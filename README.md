# GitLab / Gitee webhook plugin for Jenkins: the decision logic, in Dafny

This project models the part of the Jenkins GitLab plugin (and of its Gitee
fork) that decides what an incoming webhook does. Models of the Java classes
are proved against specification functions, and the properties those classes
promise are proved about the functions. The model covers:

- **Branch filters.** `BranchFilterFactory.newBranchFilter` picks a filter
  variant from a `BranchFilterConfig`. `RegexBasedFilter` fails open on an
  empty branch name or an empty regex and otherwise demands a full match. Its
  `getConfig` rebuilds the same filter through the factory (module
  `BranchFilters`).
- **Handler factories and the no-op handlers.** The Gitee merge-request
  factory turns its flags into allowed-state and allowed-action lists, or into
  a no-op handler. The push factory builds an ordered handler list, or a no-op
  handler. The three `Nop*HookTriggerHandler.handle` methods change nothing
  (modules `MergeRequestHandlerFactory`, `PushHandlerFactory`, `NopHandlers`).
  The list-building methods keep the source's step-by-step appends. Each is
  proved equal to a specification built from one "select by flags" function
  (module `SeqUtil`).
- **Payload objects.** `MergeRequestHook`, `NoteHook` and
  `NoteObjectAttributes` are classes with their setters. `equals` is proved
  to be field-wise equality, and `hashCode` is the `HashCodeBuilder(17, 37)`
  computation in 32-bit `int` arithmetic. A `NoteHook` holds a reference to
  its mutable attributes object, and the model keeps that aliasing (module
  `HookModel`).
- **Trigger configuration.**
  - `GitLabPushTrigger` (module `GitLabTrigger`): the constructor builds the
    handlers and filters once; `readResolve` migrates `branchFilterName` to
    `branchFilterType`; `getFromJob` finds the last matching trigger; and the
    open-merge-request-on-push option list.
  - `GiteePushTrigger` (module `GiteeTrigger`): the field defaults, the
    setters, the lazy building of filters and handlers in the four `onPost`
    methods, `readResolve` and `getFromJob`.
- **Request routing.** `ActionResolver` splits the rest of the path, walks the
  item tree to a project, and chooses one of eight actions from the HTTP
  method, the path, the `ref`/`sha1` parameters and the `X-Gitlab-Event`
  header. `COMMIT_STATUS_PATTERN` is a hand-written recogniser with round-trip
  lemmas in both directions (module `ActionResolver`).
- **The build actions.**
  - `BuildWebHookAction`: its `execute(response)` ordering, the
    accepted-response text, and the secret-token and permission decision of
    `TriggerNotifier` (module `BuildWebHook`).
  - `MergeRequestBuildAction`: the in-place compatibility backfill of `url`,
    `homepage` and `project`, and its `execute` guard (module
    `MergeRequestBuild`).
  - `PushBuildAction`: the namespace backfill and its `execute` guard (module
    `PushBuild`).

Shared pieces:

- **Java nulls and exceptions.** Java `null` is `Option.None`. An exception
  the Java code lets escape is a `JavaException` value in a `Result` or an
  `Option` (module `Wrappers`).
- **Java strings.** The `String` and `StringUtils` operations the code relies
  on are written out with Java's index conventions (module `JavaStrings`).
- **Jenkins.** The parts of Jenkins the code touches are a job's build queue,
  the job's trigger list, and the HTTP responses the code raises (module
  `Jenkins`).

What is abstracted:

- **JSON and URLs.** The JSON body arrives already parsed into a hook.
- **URL paths.** `new URL(spec).getPath()` is a function parameter (`PushBuild.UrlPath`). It is `None` when the URL is malformed. It is applied to the repository's `gitHttpUrl`, and a null one counts as malformed, as Java's constructor rejects it.
- **Regular expressions.** `String.matches` with a user regex is a function
  parameter. The branch-filter test cases are proved for every matcher that
  agrees with Java on `feature/.*` over names without a line terminator.
- **Item lookup.** Jenkins' item lookups are a pair of function parameters.
- **Security facts.** Whether the authenticated endpoint is on and whether the
  caller holds `Job/Build` form a `SecurityContext` parameter.
- **Hook description.** A hook's `getWebHookDescription` text is a parameter.
- **Integer fields.** The `Integer` fields of the note attributes are
  `Option<Int32>`, so they hold only Java int values.
- **Foreign hash codes.** The `hashCode` of a field type whose class is not
  part of this model is a function parameter.
- **Unseen handler and filter classes.** The handler classes and the
  name-based, all-branches and label filters are tags carrying the arguments
  they were built with.

Decisions where the code decides:

- **The commit-status pattern.** The `.` in `/status.json` is unescaped.
  Without `DOTALL`, Java's `.` matches any character except a line
  terminator, so the recogniser excludes `\n`, `\r`, U+0085, U+2028 and U+2029
  there, whereas any character at all would be the plain reading of the
  pattern. `ActionResolver.LineTerminatorInStatusJsonRejected` states this.
- **The push namespace.** It keeps the trailing `/` (`"/group/project.git"`
  gives `"group/"`). It is modelled as written.
- **The resolver's merge-request action.**
  `src/main/java/com/dabsquared/gitlabjenkins/webhook/ActionResolver.java:87`
  builds it with two arguments, while the class shown takes three. The
  resolver's actions are therefore tags holding the project and the body.
  `MergeRequestBuild.MergeRequestBuildAction` models the
  three-argument class.

## Model

| member | source | states |
|---|---|---|
| JavaStrings.LastIndexOf | src/main/java/com/dabsquared/gitlabjenkins/webhook/build/MergeRequestBuildAction.java:46 | String.lastIndexOf: the greatest index where the pattern occurs, -1 when it occurs nowhere; no later index holds it |
| JavaStrings.LastIndexAtOrBefore | src/main/java/com/dabsquared/gitlabjenkins/webhook/build/MergeRequestBuildAction.java:46 | the greatest occurrence at or below a bound, or -1; none between the result and the bound |
| JavaStrings.IndexOfFrom | src/main/java/com/dabsquared/gitlabjenkins/webhook/build/PushBuildAction.java:44 | the first index at or after i holding the character, or -1, with no occurrence between i and it |
| JavaStrings.RemoveFirst | src/main/java/com/dabsquared/gitlabjenkins/webhook/build/PushBuildAction.java:44 | replaceFirst of one plain character: unchanged when the character is absent; otherwise the result is the string with its first occurrence, the one at an index with no earlier occurrence, cut out |
| JavaStrings.IsLineTerminator | src/main/java/com/dabsquared/gitlabjenkins/webhook/ActionResolver.java:34 | the characters Java's '.' does not match without DOTALL: newline, carriage return, U+0085, U+2028 and U+2029 |
| JavaStrings.Substring | src/main/java/com/dabsquared/gitlabjenkins/webhook/build/MergeRequestBuildAction.java:46 | String.substring succeeds exactly when 0 <= begin <= end <= length, gives end - begin characters that sit between the prefix and the rest, and otherwise throws StringIndexOutOfBoundsException |
| SeqUtil.Selected | src/main/java/com/gitee/jenkins/trigger/handler/merge/MergeRequestHookTriggerHandlerFactory.java:34-57 | the elements whose flags are set, in their order: what a run of "if (flag) list.add(x)" on an empty list leaves; its properties are the SeqUtil lemmas below |
| SeqUtil.SelectedLength | src/main/java/com/gitee/jenkins/trigger/handler/merge/MergeRequestHookTriggerHandlerFactory.java:34-57 | a list built by conditional appends has one element per set flag |
| SeqUtil.SelectedMember | src/main/java/com/gitee/jenkins/trigger/handler/merge/MergeRequestHookTriggerHandlerFactory.java:34-57 | an element is in the built list iff some position holding it has its flag set |
| SeqUtil.SelectedDistinct | src/main/java/com/gitee/jenkins/trigger/handler/merge/MergeRequestHookTriggerHandlerFactory.java:59-79 | conditional appends of distinct constants give a list without duplicates |
| SeqUtil.SelectedAppend | src/main/java/com/gitee/jenkins/trigger/handler/merge/MergeRequestHookTriggerHandlerFactory.java:34-57 | the appends of two consecutive blocks of checks concatenate |
| SeqUtil.SelectedSingleton | src/main/java/com/gitee/jenkins/trigger/handler/merge/MergeRequestHookTriggerHandlerFactory.java:40-42 | one check appends its element iff its flag is set |
| BranchFilters.ValueOf | src/main/java/com/dabsquared/gitlabjenkins/GitLabPushTrigger.java:280 | BranchFilterType.valueOf returns the constant with exactly that name; no constant has the name when it fails |
| BranchFilters.ValueOfTypeName | src/main/java/com/dabsquared/gitlabjenkins/GitLabPushTrigger.java:280 | valueOf inverts the constant's name |
| BranchFilters.NewBranchFilter | src/main/java/com/dabsquared/gitlabjenkins/trigger/filter/BranchFilterFactory.java:10-19 | NameBasedFilter iff the type is NameBasedFilter, with the include and exclude specs; RegexBasedFilter iff the type is RegexBasedFilter, with the target regex |
| BranchFilters.OtherTypesAllowAll | src/main/java/com/dabsquared/gitlabjenkins/trigger/filter/BranchFilterFactory.java:16-17 | the remaining type yields AllBranchesFilter |
| BranchFilters.IrrelevantFieldsIgnored | src/main/java/com/dabsquared/gitlabjenkins/trigger/filter/BranchFilterFactory.java:10-19 | the factory ignores the config fields that do not belong to the chosen type |
| BranchFilters.RegexIsBranchAllowed | src/main/java/com/dabsquared/gitlabjenkins/trigger/filter/RegexBasedFilter.java:19-21 | isBranchAllowed: true iff the branch name is null or empty, or the regex is null or empty, or the matcher fully matches the name against the regex |
| BranchFilters.EmptyBranchAllowed | src/main/java/com/dabsquared/gitlabjenkins/trigger/filter/RegexBasedFilter.java:19-21 | a null or empty branch name is allowed whatever the regex |
| BranchFilters.EmptyRegexAllowsAll | src/main/java/com/dabsquared/gitlabjenkins/trigger/filter/RegexBasedFilter.java:19-21 | a null or empty regex allows every branch |
| BranchFilters.NonEmptyRegexIsFullMatch | src/main/java/com/dabsquared/gitlabjenkins/trigger/filter/RegexBasedFilter.java:19-21 | with both non-empty, the verdict is exactly String.matches, a whole-name match |
| BranchFilters.BlankRegexCanReject | src/main/java/com/dabsquared/gitlabjenkins/trigger/filter/RegexBasedFilter.java:20 | the test is isEmpty, not isBlank: a one-space regex can reject a branch |
| BranchFilters.FeatureRegexAccepts | src/test/java/com/dabsquared/gitlabjenkins/trigger/filter/RegexBasedFilterTest.java:20-31 | "feature/.*" allows feature/test and feature/awesome-feature, for any matcher that agrees with Java on that pattern over names without a line terminator |
| BranchFilters.FeatureRegexRejects | src/test/java/com/dabsquared/gitlabjenkins/trigger/filter/RegexBasedFilterTest.java:23-38 | "feature/.*" rejects hotfix/test, hotfix/awesome-feature, master and develop, for the same matchers |
| BranchFilters.RegexGetConfig | src/main/java/com/dabsquared/gitlabjenkins/trigger/filter/RegexBasedFilter.java:23-26 | getConfig has type RegexBasedFilter, null include and exclude specs and the filter's regex |
| BranchFilters.RegexConfigRoundTrip | src/main/java/com/dabsquared/gitlabjenkins/trigger/filter/RegexBasedFilter.java:23-26 | the factory applied to getConfig rebuilds the same regex filter, so every verdict is unchanged |
| MergeRequestHandlerFactory.AllowedActionsFor | src/main/java/com/gitee/jenkins/trigger/handler/merge/MergeRequestHookTriggerHandlerFactory.java:34-57 | the allowed actions: open, update, merge and close, each present iff its own flag is set, in that order |
| MergeRequestHandlerFactory.AllowedStatesFor | src/main/java/com/gitee/jenkins/trigger/handler/merge/MergeRequestHookTriggerHandlerFactory.java:59-79 | the allowed states: opened, open, reopened and updated iff open or update is set, then merged iff accepted, then closed iff closed |
| MergeRequestHandlerFactory.RetrieveAllowedActions | src/main/java/com/gitee/jenkins/trigger/handler/merge/MergeRequestHookTriggerHandlerFactory.java:34-57 | the appended actions equal the allowed-actions specification: open, update, merge, close, each iff its flag |
| MergeRequestHandlerFactory.RetrieveAllowedStates | src/main/java/com/gitee/jenkins/trigger/handler/merge/MergeRequestHookTriggerHandlerFactory.java:59-79 | the appended states equal the allowed-states specification: the open-like group, merged, closed |
| MergeRequestHandlerFactory.NewMergeRequestHookTriggerHandler | src/main/java/com/gitee/jenkins/trigger/handler/merge/MergeRequestHookTriggerHandlerFactory.java:18-32 | the no-op handler iff none of open, update, accepted, closed and approved is set; otherwise the real handler with the allowed states and actions and both pass-through flags |
| MergeRequestHandlerFactory.ActionsClosedForm | src/main/java/com/gitee/jenkins/trigger/handler/merge/MergeRequestHookTriggerHandlerFactory.java:34-57 | the allowed actions written out as four optional one-element lists in order |
| MergeRequestHandlerFactory.StatesClosedForm | src/main/java/com/gitee/jenkins/trigger/handler/merge/MergeRequestHookTriggerHandlerFactory.java:59-79 | the allowed states written out: opened, open, reopened, updated when open or update, then merged, then closed |
| MergeRequestHandlerFactory.AllowedStatesMembership | src/main/java/com/gitee/jenkins/trigger/handler/merge/MergeRequestHookTriggerHandlerFactory.java:63-76 | each open-like state is allowed iff open or update is set; merged iff accepted; closed iff closed |
| MergeRequestHandlerFactory.AllowedActionsMembership | src/main/java/com/gitee/jenkins/trigger/handler/merge/MergeRequestHookTriggerHandlerFactory.java:38-54 | each action is allowed iff its own flag is set |
| MergeRequestHandlerFactory.AllowedListsDistinct | src/main/java/com/gitee/jenkins/trigger/handler/merge/MergeRequestHookTriggerHandlerFactory.java:34-79 | neither list holds a duplicate |
| MergeRequestHandlerFactory.AllowedListsLength | src/main/java/com/gitee/jenkins/trigger/handler/merge/MergeRequestHookTriggerHandlerFactory.java:34-79 | one action per set flag; four open-like states plus one each for accepted and closed |
| MergeRequestHandlerFactory.ApprovedOnlyHandler | src/main/java/com/gitee/jenkins/trigger/handler/merge/MergeRequestHookTriggerHandlerFactory.java:25-28 | approved alone selects the real handler, with no state and no action, carrying the skip-WIP and cancel flags as given |
| PushHandlerFactory.HandlersFor | src/main/java/com/dabsquared/gitlabjenkins/trigger/handler/push/PushHookTriggerHandlerFactory.java:25-36 | the handler list: the push handler iff push triggering is on, then the open-merge-request handler with the skip-WIP flag iff the mode is both |
| PushHandlerFactory.HandlerFor | src/main/java/com/dabsquared/gitlabjenkins/trigger/handler/push/PushHookTriggerHandlerFactory.java:15-23 | the composite handler over that list when push is on or the mode is both, the no-op handler otherwise |
| PushHandlerFactory.RetrieveHandlers | src/main/java/com/dabsquared/gitlabjenkins/trigger/handler/push/PushHookTriggerHandlerFactory.java:25-36 | the appended handlers equal the specification: the push handler if push is on, then the open-merge-request handler if the mode is both |
| PushHandlerFactory.NewPushHookTriggerHandler | src/main/java/com/dabsquared/gitlabjenkins/trigger/handler/push/PushHookTriggerHandlerFactory.java:15-23 | the no-op handler iff push is off and the mode is not both; otherwise the list of handlers |
| PushHandlerFactory.HandlersClosedForm | src/main/java/com/dabsquared/gitlabjenkins/trigger/handler/push/PushHookTriggerHandlerFactory.java:28-35 | the handler list written out as two optional one-element lists |
| PushHandlerFactory.HandlerListShape | src/main/java/com/dabsquared/gitlabjenkins/trigger/handler/push/PushHookTriggerHandlerFactory.java:18-35 | a list the factory builds is never empty; the push handler comes first and the open-merge-request handler, with the skip flag, last |
| PushHandlerFactory.HandlerListLength | src/main/java/com/dabsquared/gitlabjenkins/trigger/handler/push/PushHookTriggerHandlerFactory.java:25-36 | at most two handlers, two exactly when push is on and the mode is both |
| PushHandlerFactory.NeverSourceAndNullAgree | src/main/java/com/dabsquared/gitlabjenkins/trigger/handler/push/PushHookTriggerHandlerFactory.java:32 | modes never, source and null build the same handlers; only both adds the open-merge-request handler |
| NopHandlers.NopMergeRequestHookTriggerHandler.Handle | src/main/java/com/dabsquared/gitlabjenkins/trigger/handler/merge/NopMergeRequestHookTriggerHandler.java:12-14 | no build is scheduled and the hook is unchanged |
| NopHandlers.NopNoteHookTriggerHandler.Handle | src/main/java/com/dabsquared/gitlabjenkins/trigger/handler/note/NopNoteHookTriggerHandler.java:12-14 | no build is scheduled and the note hook is unchanged |
| NopHandlers.NopPushHookTriggerHandler.Handle | src/main/java/com/dabsquared/gitlabjenkins/trigger/handler/push/NopPushHookTriggerHandler.java:12-14 | no build is scheduled and the push hook is unchanged |
| Jenkins.LastInstance | src/main/java/com/dabsquared/gitlabjenkins/GitLabPushTrigger.java:288-299 | None iff no slot is a trigger of the class; otherwise a trigger of the class after which no slot is one |
| Jenkins.LastInstanceSnoc | src/main/java/com/dabsquared/gitlabjenkins/GitLabPushTrigger.java:292-296 | one more slot keeps the previous answer unless that slot is a trigger |
| HookModel.Wrap32 | src/main/java/com/dabsquared/gitlabjenkins/gitlab/hook/model/MergeRequestHook.java:82-90 | reduction to a Java int: in range, congruent modulo 2^32, the identity on ints |
| HookModel.HashCodeBuilder | src/main/java/com/dabsquared/gitlabjenkins/gitlab/hook/model/MergeRequestHook.java:82-90 | HashCodeBuilder(17, 37) over the appended field hashes always yields an int |
| HookModel.HashCodeBuilderAppend | src/main/java/com/dabsquared/gitlabjenkins/gitlab/hook/model/MergeRequestHook.java:82-90 | appending a field multiplies by 37 and adds its hash, 0 for null, in int arithmetic |
| HookModel.StringHash | src/main/java/com/dabsquared/gitlabjenkins/gitlab/hook/model/NoteObjectAttributes.java:101-111 | String.hashCode is an int |
| HookModel.MergeRequestHook.constructor | src/main/java/com/dabsquared/gitlabjenkins/gitlab/hook/model/MergeRequestHook.java:17-21 | a fresh hook has all five fields null |
| HookModel.MergeRequestHook.SetUser | src/main/java/com/dabsquared/gitlabjenkins/gitlab/hook/model/MergeRequestHook.java:27-29 | the field takes the argument and the other four fields are unchanged |
| HookModel.MergeRequestHook.SetAssignee | src/main/java/com/dabsquared/gitlabjenkins/gitlab/hook/model/MergeRequestHook.java:35-37 | the field takes the argument and the other four fields are unchanged |
| HookModel.MergeRequestHook.SetProject | src/main/java/com/dabsquared/gitlabjenkins/gitlab/hook/model/MergeRequestHook.java:43-45 | the field takes the argument and the other four fields are unchanged |
| HookModel.MergeRequestHook.SetObjectAttributes | src/main/java/com/dabsquared/gitlabjenkins/gitlab/hook/model/MergeRequestHook.java:51-53 | the field takes the argument and the other four fields are unchanged |
| HookModel.MergeRequestHook.SetLabels | src/main/java/com/dabsquared/gitlabjenkins/gitlab/hook/model/MergeRequestHook.java:59-61 | the field takes the argument and the other four fields are unchanged |
| HookModel.MergeRequestHook.Equals | src/main/java/com/dabsquared/gitlabjenkins/gitlab/hook/model/MergeRequestHook.java:64-79 | equal iff the other object is a MergeRequestHook with the same five field values |
| HookModel.MergeRequestHook.HashCode | src/main/java/com/dabsquared/gitlabjenkins/gitlab/hook/model/MergeRequestHook.java:82-90 | the hash code is an int |
| HookModel.NoteObjectAttributes.constructor | src/main/java/com/dabsquared/gitlabjenkins/gitlab/hook/model/NoteObjectAttributes.java:16-22 | a fresh instance has all seven fields null |
| HookModel.NoteObjectAttributes.SetId | src/main/java/com/dabsquared/gitlabjenkins/gitlab/hook/model/NoteObjectAttributes.java:28-30 | the field takes the argument and the other six fields are unchanged |
| HookModel.NoteObjectAttributes.SetProjectId | src/main/java/com/dabsquared/gitlabjenkins/gitlab/hook/model/NoteObjectAttributes.java:36-38 | the field takes the argument and the other six fields are unchanged |
| HookModel.NoteObjectAttributes.SetAuthorId | src/main/java/com/dabsquared/gitlabjenkins/gitlab/hook/model/NoteObjectAttributes.java:44-46 | the field takes the argument and the other six fields are unchanged |
| HookModel.NoteObjectAttributes.SetCreatedAt | src/main/java/com/dabsquared/gitlabjenkins/gitlab/hook/model/NoteObjectAttributes.java:52-54 | the field takes the argument and the other six fields are unchanged |
| HookModel.NoteObjectAttributes.SetUpdatedAt | src/main/java/com/dabsquared/gitlabjenkins/gitlab/hook/model/NoteObjectAttributes.java:60-62 | the field takes the argument and the other six fields are unchanged |
| HookModel.NoteObjectAttributes.SetNote | src/main/java/com/dabsquared/gitlabjenkins/gitlab/hook/model/NoteObjectAttributes.java:68-70 | the field takes the argument and the other six fields are unchanged |
| HookModel.NoteObjectAttributes.SetUrl | src/main/java/com/dabsquared/gitlabjenkins/gitlab/hook/model/NoteObjectAttributes.java:76-78 | the field takes the argument and the other six fields are unchanged |
| HookModel.NoteObjectAttributes.Equals | src/main/java/com/dabsquared/gitlabjenkins/gitlab/hook/model/NoteObjectAttributes.java:81-98 | equal iff the other object is a NoteObjectAttributes with the same seven field values |
| HookModel.NoteObjectAttributes.HashCode | src/main/java/com/dabsquared/gitlabjenkins/gitlab/hook/model/NoteObjectAttributes.java:101-111 | the hash code is an int |
| HookModel.NoteHook.constructor | src/main/java/com/dabsquared/gitlabjenkins/gitlab/hook/model/NoteHook.java:15-18 | a fresh note hook has all four fields null |
| HookModel.NoteHook.SetUser | src/main/java/com/dabsquared/gitlabjenkins/gitlab/hook/model/NoteHook.java:24-26 | the field takes the argument and the rest of the hook's value is unchanged |
| HookModel.NoteHook.SetProject | src/main/java/com/dabsquared/gitlabjenkins/gitlab/hook/model/NoteHook.java:32-34 | the field takes the argument and the rest of the hook's value is unchanged |
| HookModel.NoteHook.SetMergeRequest | src/main/java/com/dabsquared/gitlabjenkins/gitlab/hook/model/NoteHook.java:48-50 | the field takes the argument and the rest of the hook's value is unchanged |
| HookModel.NoteHook.SetObjectAttributes | src/main/java/com/dabsquared/gitlabjenkins/gitlab/hook/model/NoteHook.java:40-42 | the hook holds the very object passed, so its value shows that object's current value |
| HookModel.NoteHook.Equals | src/main/java/com/dabsquared/gitlabjenkins/gitlab/hook/model/NoteHook.java:53-67 | equal iff the other object is a NoteHook with the same user, project and merge request and attributes of equal value |
| HookModel.NoteHook.HashCode | src/main/java/com/dabsquared/gitlabjenkins/gitlab/hook/model/NoteHook.java:70-77 | the hash code is an int |
| HookModel.AttributesEqual | src/main/java/com/dabsquared/gitlabjenkins/gitlab/hook/model/NoteHook.java:64 | EqualsBuilder on two attribute references: equal iff both null or both of the same value |
| HookModel.PushHook.constructor | src/main/java/com/dabsquared/gitlabjenkins/webhook/build/PushBuildAction.java:34 | the parsed push hook holds the given project and repository |
| HookModel.PushHook.SetProject | src/main/java/com/dabsquared/gitlabjenkins/webhook/build/PushBuildAction.java:45 | the hook's project becomes the argument |
| HookModel.MergeRequestHookEquality | src/main/java/com/dabsquared/gitlabjenkins/gitlab/hook/model/MergeRequestHook.java:64-90 | equals is reflexive, false for null and other classes, symmetric and transitive; equal hooks hash alike |
| HookModel.NoteHookEquality | src/main/java/com/dabsquared/gitlabjenkins/gitlab/hook/model/NoteHook.java:53-77 | the same properties for NoteHook |
| HookModel.NoteObjectAttributesEquality | src/main/java/com/dabsquared/gitlabjenkins/gitlab/hook/model/NoteObjectAttributes.java:81-111 | the same properties for NoteObjectAttributes |
| HookModel.SharedAttributesCompareEqual | src/main/java/com/dabsquared/gitlabjenkins/gitlab/hook/model/NoteHook.java:40-42 | two note hooks holding one attributes object see the same attribute values |
| HookModel.NullFieldAppended | src/main/java/com/dabsquared/gitlabjenkins/gitlab/hook/model/MergeRequestHook.java:82-90 | a null field appended to the builder multiplies its hash by 37, in int arithmetic |
| HookModel.FreshNoteHookHashCode | src/main/java/com/dabsquared/gitlabjenkins/gitlab/hook/model/NoteHook.java:70-77 | a note hook with every field null hashes to 17 * 37^4 = 31860737 |
| HookModel.FreshMergeRequestHookHashCode | src/main/java/com/dabsquared/gitlabjenkins/gitlab/hook/model/MergeRequestHook.java:82-90 | a merge request hook with every field null hashes to 17 * 37^5 = 1178847269 |
| HookModel.FreshNoteObjectAttributesHashCode | src/main/java/com/dabsquared/gitlabjenkins/gitlab/hook/model/NoteObjectAttributes.java:101-111 | attributes with every field null hash to 17 * 37^7 wrapped to an int, -1065792035 |
| HookModel.FreshObjectHashes | src/main/java/com/dabsquared/gitlabjenkins/gitlab/hook/model/MergeRequestHook.java:82-90 | freshly constructed hooks hash to those constants whatever the foreign hash functions |
| GitLabTrigger.GitLabPushTrigger.constructor | src/main/java/com/dabsquared/gitlabjenkins/GitLabPushTrigger.java:102-132 | every argument is stored, the secret made non-null, and the handlers and filters are those the factories build |
| GitLabTrigger.GitLabPushTrigger.GetNoteRegex | src/main/java/com/dabsquared/gitlabjenkins/GitLabPushTrigger.java:194-196 | empty exactly when no regex or the empty regex is stored, else the stored regex |
| GitLabTrigger.GitLabPushTrigger.GetSecretToken | src/main/java/com/dabsquared/gitlabjenkins/GitLabPushTrigger.java:234-236 | null exactly when no secret is stored, else its plain text |
| GitLabTrigger.GitLabPushTrigger.InitializeTriggerHandler | src/main/java/com/dabsquared/gitlabjenkins/GitLabPushTrigger.java:259-263 | the three handlers are the factories' results for the current flags |
| GitLabTrigger.GitLabPushTrigger.InitializeBranchFilter | src/main/java/com/dabsquared/gitlabjenkins/GitLabPushTrigger.java:265-271 | the branch filter is the factory's result for the specs and the type |
| GitLabTrigger.GitLabPushTrigger.InitializeMergeRequestLabelFilter | src/main/java/com/dabsquared/gitlabjenkins/GitLabPushTrigger.java:273-275 | the label filter is built from the stored config |
| GitLabTrigger.GitLabPushTrigger.OnPostPush | src/main/java/com/dabsquared/gitlabjenkins/GitLabPushTrigger.java:238-241 | the push handler for the current configuration is called with the hook, ciSkip and both filters |
| GitLabTrigger.GitLabPushTrigger.OnPostMergeRequest | src/main/java/com/dabsquared/gitlabjenkins/GitLabPushTrigger.java:243-246 | the merge-request handler is called with the hook, ciSkip and both filters |
| GitLabTrigger.GitLabPushTrigger.OnPostNote | src/main/java/com/dabsquared/gitlabjenkins/GitLabPushTrigger.java:248-251 | the note handler is called with the hook, ciSkip and both filters |
| GitLabTrigger.GitLabPushTrigger.ReadResolve | src/main/java/com/dabsquared/gitlabjenkins/GitLabPushTrigger.java:277-286 | fails with IllegalArgumentException, changing nothing, iff a null type meets a non-blank unknown name; otherwise the type is migrated and everything rebuilt |
| GitLabTrigger.MigratedType | src/main/java/com/dabsquared/gitlabjenkins/GitLabPushTrigger.java:279-281 | a set type is kept; a null type becomes the constant named by a non-blank name, else All |
| GitLabTrigger.MigrationRecoversSavedType | src/main/java/com/dabsquared/gitlabjenkins/GitLabPushTrigger.java:279-281 | a name saved from a type migrates back to that type |
| GitLabTrigger.GetFromJob | src/main/java/com/dabsquared/gitlabjenkins/GitLabPushTrigger.java:288-299 | the last GitLabPushTrigger of a parameterized job, by the loop's invariant; null for any other job |
| GitLabTrigger.DoFillTriggerOpenMergeRequestOnPushItems | src/main/java/com/dabsquared/gitlabjenkins/GitLabPushTrigger.java:367-371 | three options never, source and both with their labels, each selected iff the value equals it; a null value throws |
| GitLabTrigger.AtMostOneOptionSelected | src/main/java/com/dabsquared/gitlabjenkins/GitLabPushTrigger.java:367-371 | at most one option is selected, and one is iff the value is one of the three |
| GiteeTrigger.GiteePushTrigger.constructor | src/main/java/com/gitee/jenkins/trigger/GiteePushTrigger.java:71-150 | the data-bound no-argument constructor (lines 149-150) leaves the field initialisers of lines 71-104 in place: push, open merge request, note, ciSkip and build description on, the rest off, an empty note regex, no secret, nothing built |
| GiteeTrigger.GiteePushTrigger.GetNoteRegex | src/main/java/com/gitee/jenkins/trigger/GiteePushTrigger.java:230-232 | empty exactly when no regex or the empty regex is stored, else the stored regex |
| GiteeTrigger.GiteePushTrigger.GetSecretToken | src/main/java/com/gitee/jenkins/trigger/GiteePushTrigger.java:266-268 | null exactly when no secret is stored, else its plain text |
| GiteeTrigger.GiteePushTrigger.SetTriggerOnPush | src/main/java/com/gitee/jenkins/trigger/GiteePushTrigger.java:279-281 | the field takes the argument; no other field changes |
| GiteeTrigger.GiteePushTrigger.SetTriggerOnApprovedMergeRequest | src/main/java/com/gitee/jenkins/trigger/GiteePushTrigger.java:284-286 | the field takes the argument; no other field changes |
| GiteeTrigger.GiteePushTrigger.SetTriggerOnTestedMergeRequest | src/main/java/com/gitee/jenkins/trigger/GiteePushTrigger.java:289-291 | the field takes the argument; no other field changes |
| GiteeTrigger.GiteePushTrigger.SetTriggerOnOpenMergeRequest | src/main/java/com/gitee/jenkins/trigger/GiteePushTrigger.java:294-296 | the field takes the argument; no other field changes |
| GiteeTrigger.GiteePushTrigger.SetTriggerOnAcceptedMergeRequest | src/main/java/com/gitee/jenkins/trigger/GiteePushTrigger.java:299-301 | the field takes the argument; no other field changes |
| GiteeTrigger.GiteePushTrigger.SetTriggerOnClosedMergeRequest | src/main/java/com/gitee/jenkins/trigger/GiteePushTrigger.java:304-306 | the field takes the argument; no other field changes |
| GiteeTrigger.GiteePushTrigger.SetTriggerOnNoteRequest | src/main/java/com/gitee/jenkins/trigger/GiteePushTrigger.java:309-311 | the field takes the argument; no other field changes |
| GiteeTrigger.GiteePushTrigger.SetNoteRegex | src/main/java/com/gitee/jenkins/trigger/GiteePushTrigger.java:314-316 | the regex is stored as given, null included; no other field changes |
| GiteeTrigger.GiteePushTrigger.SetCiSkip | src/main/java/com/gitee/jenkins/trigger/GiteePushTrigger.java:319-321 | the field takes the argument; no other field changes |
| GiteeTrigger.GiteePushTrigger.SetSkipWorkInProgressMergeRequest | src/main/java/com/gitee/jenkins/trigger/GiteePushTrigger.java:324-326 | the field takes the argument; no other field changes |
| GiteeTrigger.GiteePushTrigger.SetSetBuildDescription | src/main/java/com/gitee/jenkins/trigger/GiteePushTrigger.java:329-331 | the field takes the argument; no other field changes |
| GiteeTrigger.GiteePushTrigger.SetAddNoteOnMergeRequest | src/main/java/com/gitee/jenkins/trigger/GiteePushTrigger.java:334-336 | the field takes the argument; no other field changes |
| GiteeTrigger.GiteePushTrigger.SetAddCiMessage | src/main/java/com/gitee/jenkins/trigger/GiteePushTrigger.java:339-341 | the field takes the argument; no other field changes |
| GiteeTrigger.GiteePushTrigger.SetAddVoteOnMergeRequest | src/main/java/com/gitee/jenkins/trigger/GiteePushTrigger.java:344-346 | the field takes the argument; no other field changes |
| GiteeTrigger.GiteePushTrigger.SetBranchFilterName | src/main/java/com/gitee/jenkins/trigger/GiteePushTrigger.java:349-351 | the field takes the argument; no other field changes |
| GiteeTrigger.GiteePushTrigger.SetBranchFilterType | src/main/java/com/gitee/jenkins/trigger/GiteePushTrigger.java:354-356 | the field takes the argument; no other field changes |
| GiteeTrigger.GiteePushTrigger.SetIncludeBranchesSpec | src/main/java/com/gitee/jenkins/trigger/GiteePushTrigger.java:359-361 | the field takes the argument; no other field changes |
| GiteeTrigger.GiteePushTrigger.SetExcludeBranchesSpec | src/main/java/com/gitee/jenkins/trigger/GiteePushTrigger.java:364-366 | the field takes the argument; no other field changes |
| GiteeTrigger.GiteePushTrigger.SetTargetBranchRegex | src/main/java/com/gitee/jenkins/trigger/GiteePushTrigger.java:369-371 | the field takes the argument; no other field changes |
| GiteeTrigger.GiteePushTrigger.SetMergeRequestLabelFilterConfig | src/main/java/com/gitee/jenkins/trigger/GiteePushTrigger.java:374-376 | the field takes the argument; no other field changes |
| GiteeTrigger.GiteePushTrigger.SetSecretToken | src/main/java/com/gitee/jenkins/trigger/GiteePushTrigger.java:379-381 | the secret becomes the argument, an empty secret for null; no other field changes |
| GiteeTrigger.GiteePushTrigger.SetAcceptMergeRequestOnSuccess | src/main/java/com/gitee/jenkins/trigger/GiteePushTrigger.java:384-386 | the field takes the argument; no other field changes |
| GiteeTrigger.GiteePushTrigger.SetTriggerOnUpdateMergeRequest | src/main/java/com/gitee/jenkins/trigger/GiteePushTrigger.java:389-391 | the field takes the argument; no other field changes |
| GiteeTrigger.GiteePushTrigger.SetTriggerOnPipelineEvent | src/main/java/com/gitee/jenkins/trigger/GiteePushTrigger.java:393-395 | the field takes the argument; no other field changes |
| GiteeTrigger.GiteePushTrigger.SetPendingBuildName | src/main/java/com/gitee/jenkins/trigger/GiteePushTrigger.java:398-400 | the field takes the argument; no other field changes |
| GiteeTrigger.GiteePushTrigger.SetCancelPendingBuildsOnUpdate | src/main/java/com/gitee/jenkins/trigger/GiteePushTrigger.java:403-405 | the field takes the argument; no other field changes |
| GiteeTrigger.GiteePushTrigger.InitializeTriggerHandler | src/main/java/com/gitee/jenkins/trigger/GiteePushTrigger.java:457-464 | all four handlers are built from the current configuration |
| GiteeTrigger.GiteePushTrigger.InitializeBranchFilter | src/main/java/com/gitee/jenkins/trigger/GiteePushTrigger.java:466-476 | a null type becomes All for good; the filter is built from the specs and that type |
| GiteeTrigger.GiteePushTrigger.InitializeMergeRequestLabelFilter | src/main/java/com/gitee/jenkins/trigger/GiteePushTrigger.java:478-480 | the label filter is built from the stored config |
| GiteeTrigger.GiteePushTrigger.EnsureFilters | src/main/java/com/gitee/jenkins/trigger/GiteePushTrigger.java:409-414 | whichever filter is null is built, and an existing one is kept |
| GiteeTrigger.GiteePushTrigger.OnPostPush | src/main/java/com/gitee/jenkins/trigger/GiteePushTrigger.java:408-420 | a null branch filter is built from the type defaulted to All, and an existing one is kept with its type; a null label filter becomes the one built from the stored label config, and an existing one is kept; all four handlers are built from the configuration when the push handler is null and left alone otherwise; then the push handler gets the hook, ciSkip and both filters |
| GiteeTrigger.GiteePushTrigger.OnPostMergeRequest | src/main/java/com/gitee/jenkins/trigger/GiteePushTrigger.java:422-434 | the same filter building as for a push; the handlers are built when the merge-request handler is null; then the merge-request handler gets the hook, ciSkip and both filters |
| GiteeTrigger.GiteePushTrigger.OnPostNote | src/main/java/com/gitee/jenkins/trigger/GiteePushTrigger.java:436-448 | the same filter building as for a push; the handlers are built when the note handler is null; then the note handler gets the hook, ciSkip and both filters |
| GiteeTrigger.GiteePushTrigger.OnPostPipeline | src/main/java/com/gitee/jenkins/trigger/GiteePushTrigger.java:450-455 | only the handlers are built; the filters go on as they are, possibly null |
| GiteeTrigger.GiteePushTrigger.ReadResolve | src/main/java/com/gitee/jenkins/trigger/GiteePushTrigger.java:482-488 | handlers, branch filter and label filter are all rebuilt from the current configuration |
| GiteeTrigger.GetFromJob | src/main/java/com/gitee/jenkins/trigger/GiteePushTrigger.java:490-501 | the last GiteePushTrigger of a parameterized job, by the loop's invariant; null for any other job |
| GiteeTrigger.StaleFilterAfterSetter | src/main/java/com/gitee/jenkins/trigger/GiteePushTrigger.java:408-420 | a filter built by onPost survives a later setTargetBranchRegex until readResolve |
| BuildWebHook.FoundTrigger | src/main/java/com/dabsquared/gitlabjenkins/GitLabPushTrigger.java:288-299 | the trigger getFromJob finds belongs to the job, and none for a job that is not parameterized |
| BuildWebHook.ResponseWithHook | src/main/java/com/dabsquared/gitlabjenkins/webhook/build/BuildWebHookAction.java:40-48 | a plain-text UTF-8 response whose text is the description followed by " has been accepted." |
| BuildWebHook.ResponseWithHookInjective | src/main/java/com/dabsquared/gitlabjenkins/webhook/build/BuildWebHookAction.java:43 | different descriptions give different responses |
| BuildWebHook.CheckPermission | src/main/java/com/dabsquared/gitlabjenkins/webhook/build/BuildWebHookAction.java:74-82 | a 403 naming the caller and Job/Build iff the authenticated endpoint is on and the caller lacks the permission |
| BuildWebHook.Authorize | src/main/java/com/dabsquared/gitlabjenkins/webhook/build/BuildWebHookAction.java:64-70 | the post goes ahead iff the trigger's token is empty and the permission check passes, or it is non-empty and equals the request's; else 401 for a token, 403 without one |
| BuildWebHook.MismatchedTokenIsUnauthorized | src/main/java/com/dabsquared/gitlabjenkins/webhook/build/BuildWebHookAction.java:67-68 | a non-empty token that differs gives 401 in every security context |
| BuildWebHook.MatchingTokenSkipsPermissionCheck | src/main/java/com/dabsquared/gitlabjenkins/webhook/build/BuildWebHookAction.java:65-70 | a matching non-empty token is accepted without any permission check |
| BuildWebHook.EmptyTokenDefersToPermission | src/main/java/com/dabsquared/gitlabjenkins/webhook/build/BuildWebHookAction.java:65-66 | with an empty trigger token the request's token plays no part; only the permission check decides |
| BuildWebHook.RunOutcome | src/main/java/com/dabsquared/gitlabjenkins/webhook/build/BuildWebHookAction.java:62-72 | TriggerNotifier.run: nothing when getFromJob finds no trigger; performOnPost on the found trigger when its token and the caller pass; otherwise the 401 or 403 raised instead |
| BuildWebHook.RunOutcomeMeaning | src/main/java/com/dabsquared/gitlabjenkins/webhook/build/BuildWebHookAction.java:62-72 | no trigger means nothing happens; the post is performed on the found trigger iff authorised; a rejection is the authorisation's response |
| BuildWebHook.TriggerNotifier.constructor | src/main/java/com/dabsquared/gitlabjenkins/webhook/build/BuildWebHookAction.java:56-60 | the notifier holds the item, the request's token and the caller |
| BuildWebHook.TriggerNotifier.Run | src/main/java/com/dabsquared/gitlabjenkins/webhook/build/BuildWebHookAction.java:62-72 | the run ends as the run specification says for the job, the token and the caller |
| MergeRequestBuild.SourceCompat | src/main/java/com/dabsquared/gitlabjenkins/webhook/build/MergeRequestBuildAction.java:41-48 | a null url becomes the httpUrl; a null homepage becomes the httpUrl before its last ".git", and without one it throws with the url already written |
| MergeRequestBuild.Compat | src/main/java/com/dabsquared/gitlabjenkins/webhook/build/MergeRequestBuildAction.java:36-55 | user, assignee, labels and the target project never change, and attributes stay present or absent |
| MergeRequestBuild.NullAttributesUnchanged | src/main/java/com/dabsquared/gitlabjenkins/webhook/build/MergeRequestBuildAction.java:38-39 | null attributes leave the hook unchanged |
| MergeRequestBuild.SourceWithoutHttpUrlUntouched | src/main/java/com/dabsquared/gitlabjenkins/webhook/build/MergeRequestBuildAction.java:40-53 | a source that is null or has no httpUrl is untouched, and only the project may change |
| MergeRequestBuild.SourceUrlBackfill | src/main/java/com/dabsquared/gitlabjenkins/webhook/build/MergeRequestBuildAction.java:42-44 | an existing url is kept; a missing one becomes the httpUrl even when the homepage step then fails |
| MergeRequestBuild.HomepageStripsGitSuffix | src/main/java/com/dabsquared/gitlabjenkins/webhook/build/MergeRequestBuildAction.java:45-47 | for an httpUrl ending in ".git" the homepage is the httpUrl without it, and no exception escapes |
| MergeRequestBuild.HttpUrlWithoutGitThrows | src/main/java/com/dabsquared/gitlabjenkins/webhook/build/MergeRequestBuildAction.java:46 | an httpUrl without ".git" throws StringIndexOutOfBoundsException; the homepage stays null and the project unset |
| MergeRequestBuild.ProjectBackfill | src/main/java/com/dabsquared/gitlabjenkins/webhook/build/MergeRequestBuildAction.java:51-53 | an existing project is never replaced; a null one becomes the target when the backfill completes |
| MergeRequestBuild.CompatIdempotent | src/main/java/com/dabsquared/gitlabjenkins/webhook/build/MergeRequestBuildAction.java:36-55 | a second backfill changes nothing and fails exactly as the first did |
| MergeRequestBuild.MergeRequestBuildAction.constructor | src/main/java/com/dabsquared/gitlabjenkins/webhook/build/MergeRequestBuildAction.java:29-34 | the action holds the item, the parsed hook and the request's token |
| MergeRequestBuild.MergeRequestBuildAction.ProcessForCompatibility | src/main/java/com/dabsquared/gitlabjenkins/webhook/build/MergeRequestBuildAction.java:36-55 | the hook's new state and the escaping exception are those of the backfill specification on the old state |
| MergeRequestBuild.MergeRequestBuildAction.ExecuteOutcome | src/main/java/com/dabsquared/gitlabjenkins/webhook/build/MergeRequestBuildAction.java:57-68 | execute: 409 "Merge Request Hook is not supported for this project" for an item that is not a job; otherwise the notifier's rejection, or the accepted response with the post delivered to the trigger the notifier performed it on |
| MergeRequestBuild.MergeRequestBuildAction.Execute | src/main/java/com/dabsquared/gitlabjenkins/webhook/build/MergeRequestBuildAction.java:57-68 | the outcome is the execute specification's: 409 for a non-job, the notifier's rejection, else the accepted response |
| MergeRequestBuild.MergeRequestBuildAction.ExecuteResponse | src/main/java/com/dabsquared/gitlabjenkins/webhook/build/BuildWebHookAction.java:35-38 | the backfill runs first; its exception ends the action, otherwise execute's outcome follows |
| MergeRequestBuild.ExecuteOutcomeCases | src/main/java/com/dabsquared/gitlabjenkins/webhook/build/MergeRequestBuildAction.java:57-68 | 409 for a non-job item; otherwise the post is delivered iff the notifier performed it, and the response is the rejection or the accepted response |
| PushBuild.Namespace | src/main/java/com/dabsquared/gitlabjenkins/webhook/build/PushBuildAction.java:44 | succeeds iff the path holds a '/'; otherwise StringIndexOutOfBoundsException |
| PushBuild.ProjectWithNamespace | src/main/java/com/dabsquared/gitlabjenkins/webhook/build/PushBuildAction.java:43-44 | a new project with only the namespace set |
| PushBuild.GitHttpUrlPath | src/main/java/com/dabsquared/gitlabjenkins/webhook/build/PushBuildAction.java:40 | new URL(gitHttpUrl).getPath(): a null gitHttpUrl is malformed and has no path; otherwise the URL parser's answer |
| PushBuild.PushCompat | src/main/java/com/dabsquared/gitlabjenkins/webhook/build/PushBuildAction.java:37-53 | processForCompatibility: with no project and a repository, a non-blank path of gitHttpUrl sets a project holding the derived namespace or lets the substring exception escape; in every other case nothing changes and nothing escapes |
| PushBuild.ProjectOrRepositoryMissingUnchanged | src/main/java/com/dabsquared/gitlabjenkins/webhook/build/PushBuildAction.java:39 | an existing project or a null repository leaves everything unchanged |
| PushBuild.MalformedOrBlankPathUnchanged | src/main/java/com/dabsquared/gitlabjenkins/webhook/build/PushBuildAction.java:40-51 | a malformed gitHttpUrl, a null one included, or a blank path sets no project and lets nothing escape |
| PushBuild.NullGitHttpUrlUnchanged | src/main/java/com/dabsquared/gitlabjenkins/webhook/build/PushBuildAction.java:40-50 | a repository without a gitHttpUrl never gets a project and nothing escapes, whatever the URL parser does: the MalformedURLException is caught |
| PushBuild.NamespaceBackfill | src/main/java/com/dabsquared/gitlabjenkins/webhook/build/PushBuildAction.java:42-45 | a non-blank path with '/' sets a project with the derived namespace; one without '/' throws and leaves the project null |
| PushBuild.NamespaceOfAbsolutePath | src/main/java/com/dabsquared/gitlabjenkins/webhook/build/PushBuildAction.java:44 | for a path starting with '/' the namespace runs from index 1 through the last '/', so it ends with '/' when that slash is not the first |
| PushBuild.GroupProjectLastSlash | src/main/java/com/dabsquared/gitlabjenkins/webhook/build/PushBuildAction.java:44 | the last '/' of "/group/project.git" is at index 6 |
| PushBuild.GroupProjectExample | src/main/java/com/dabsquared/gitlabjenkins/webhook/build/PushBuildAction.java:44 | the path "/group/project.git" gives the namespace "group/" |
| PushBuild.PushBuildAction.constructor | src/main/java/com/dabsquared/gitlabjenkins/webhook/build/PushBuildAction.java:31-35 | the action holds the job and the parsed hook |
| PushBuild.PushBuildAction.ProcessForCompatibility | src/main/java/com/dabsquared/gitlabjenkins/webhook/build/PushBuildAction.java:37-53 | the hook's project and the escaping exception are those of the backfill specification on the old project |
| PushBuild.PushBuildAction.ExecuteOutcome | src/main/java/com/dabsquared/gitlabjenkins/webhook/build/PushBuildAction.java:55-70 | returns at once with no delivery iff the repository is present without a url; otherwise OK is raised and the post goes to the trigger getFromJob finds, with no token check |
| PushBuild.PushBuildAction.Execute | src/main/java/com/dabsquared/gitlabjenkins/webhook/build/PushBuildAction.java:55-70 | the outcome is the execute specification's |
| PushBuild.PushBuildAction.ExecuteResponse | src/main/java/com/dabsquared/gitlabjenkins/webhook/build/BuildWebHookAction.java:35-38 | the backfill runs first; its exception ends the action, otherwise execute's outcome follows |
| ActionResolver.FirstSlash | src/main/java/com/dabsquared/gitlabjenkins/webhook/ActionResolver.java:37 | the index of the first '/', or the length when there is none |
| ActionResolver.Split | src/main/java/com/dabsquared/gitlabjenkins/webhook/ActionResolver.java:37 | every part the splitter yields is non-empty and slash-free |
| ActionResolver.Join | src/main/java/com/dabsquared/gitlabjenkins/webhook/ActionResolver.java:42 | Joiner.on('/').join: the parts with one '/' between neighbours; Split undoes it by SplitJoin and JoinSplit |
| ActionResolver.JoinNormalised | src/main/java/com/dabsquared/gitlabjenkins/webhook/ActionResolver.java:42 | joining parts gives a path with no slash at either end and none doubled, empty only for no parts |
| ActionResolver.FirstSlashAfter | src/main/java/com/dabsquared/gitlabjenkins/webhook/ActionResolver.java:37 | the first '/' after a slash-free prefix is where the prefix ends |
| ActionResolver.SplitCons | src/main/java/com/dabsquared/gitlabjenkins/webhook/ActionResolver.java:37 | a part, a '/' and a rest split into that part and the rest's parts |
| ActionResolver.SplitPart | src/main/java/com/dabsquared/gitlabjenkins/webhook/ActionResolver.java:37 | a single part splits into itself |
| ActionResolver.SplitJoin | src/main/java/com/dabsquared/gitlabjenkins/webhook/ActionResolver.java:37-42 | splitting what was joined gives the parts back |
| ActionResolver.NormalisedDecompose | src/main/java/com/dabsquared/gitlabjenkins/webhook/ActionResolver.java:37 | a normalised path is a part, or a part, a '/' and a normalised rest |
| ActionResolver.JoinSplit | src/main/java/com/dabsquared/gitlabjenkins/webhook/ActionResolver.java:37-42 | joining what was split gives a normalised path back unchanged |
| ActionResolver.RemainingPathNormalised | src/main/java/com/dabsquared/gitlabjenkins/webhook/ActionResolver.java:42 | the parts left after the project re-join into a normalised path |
| ActionResolver.Walk | src/main/java/com/dabsquared/gitlabjenkins/webhook/ActionResolver.java:110-112 | the walk consumes a prefix of the parts and stops on an item it does not descend into or when the parts run out |
| ActionResolver.ResolvedProject | src/main/java/com/dabsquared/gitlabjenkins/webhook/ActionResolver.java:104-120 | only an AbstractProject is returned, and a missing Jenkins finds nothing and consumes nothing |
| ActionResolver.ProjectByFullNameConsumesNothing | src/main/java/com/dabsquared/gitlabjenkins/webhook/ActionResolver.java:109-114 | a project found by its full name consumes no part of the path |
| ActionResolver.ResolveProject | src/main/java/com/dabsquared/gitlabjenkins/webhook/ActionResolver.java:104-120 | the loop's result is the resolveProject specification's, by its invariant |
| ActionResolver.HexRun | src/main/java/com/dabsquared/gitlabjenkins/webhook/ActionResolver.java:34 | the longest all-hex prefix: it is hex, and the next character is not |
| ActionResolver.ParseCommitStatus | src/main/java/com/dabsquared/gitlabjenkins/webhook/ActionResolver.java:33-34 | COMMIT_STATUS_PATTERN under matches(): an optional "refs/<part>/", commits or builds, '/', a non-empty hex sha1, then nothing or the statusJson group "/status", one character that is not a line terminator, "json"; Render is its inverse by ParseRender and RenderParse |
| ActionResolver.StripRefsNoRefs | src/main/java/com/dabsquared/gitlabjenkins/webhook/ActionResolver.java:34 | a path starting with the word has no refs segment to strip |
| ActionResolver.StripRefsWithRefs | src/main/java/com/dabsquared/gitlabjenkins/webhook/ActionResolver.java:34 | "refs/", a part and '/' are stripped, leaving the rest |
| ActionResolver.StripRefsHead | src/main/java/com/dabsquared/gitlabjenkins/webhook/ActionResolver.java:34 | the refs step on a well-formed head yields its refs segment |
| ActionResolver.StripKindWord | src/main/java/com/dabsquared/gitlabjenkins/webhook/ActionResolver.java:34 | the word step yields the word and what follows its '/' |
| ActionResolver.HexRunOf | src/main/java/com/dabsquared/gitlabjenkins/webhook/ActionResolver.java:34 | the hex run of a hex string followed by '/' or nothing is that whole string |
| ActionResolver.ParseAfterHead | src/main/java/com/dabsquared/gitlabjenkins/webhook/ActionResolver.java:34 | after a well-formed head and sha1, what follows alone decides the match |
| ActionResolver.StripRefsInverse | src/main/java/com/dabsquared/gitlabjenkins/webhook/ActionResolver.java:34 | the refs step's output rebuilds its input |
| ActionResolver.StripKindInverse | src/main/java/com/dabsquared/gitlabjenkins/webhook/ActionResolver.java:34 | the word step's output rebuilds its input |
| ActionResolver.ParseRender | src/main/java/com/dabsquared/gitlabjenkins/webhook/ActionResolver.java:33-34 | every well-formed parse is recognised in the path it describes |
| ActionResolver.ParseSteps | src/main/java/com/dabsquared/gitlabjenkins/webhook/ActionResolver.java:34 | a recognised path's parse, step by step |
| ActionResolver.RenderSplit | src/main/java/com/dabsquared/gitlabjenkins/webhook/ActionResolver.java:34 | the path of a parse split at the hex run is the path the steps consumed |
| ActionResolver.RenderParse | src/main/java/com/dabsquared/gitlabjenkins/webhook/ActionResolver.java:33-34 | every recognised path is well-formed and is the path its parse describes |
| ActionResolver.LineTerminatorInStatusJsonRejected | src/main/java/com/dabsquared/gitlabjenkins/webhook/ActionResolver.java:34 | a line terminator where the pattern's '.' stands is not matched |
| ActionResolver.Parameter | src/main/java/com/dabsquared/gitlabjenkins/webhook/ActionResolver.java:58 | getParameter is non-null exactly for a present parameter, and then its value |
| ActionResolver.OnGetCommitStatus | src/main/java/com/dabsquared/gitlabjenkins/webhook/ActionResolver.java:67-73 | the redirect iff the statusJson group is null, the status JSON iff it is present |
| ActionResolver.OnGetStatusPng | src/main/java/com/dabsquared/gitlabjenkins/webhook/ActionResolver.java:75-81 | the branch badge iff a ref parameter is present, else the commit badge for the sha1 parameter |
| ActionResolver.OnGet | src/main/java/com/dabsquared/gitlabjenkins/webhook/ActionResolver.java:55-65 | onGet: the branch redirect for an empty path with a ref parameter, else a badge for a path ending in status.png, else the commit action for a path the pattern matches, else the no-op action |
| ActionResolver.OnPost | src/main/java/com/dabsquared/gitlabjenkins/webhook/ActionResolver.java:83-102 | onPost: 500 when the body cannot be read, a NullPointerException for a missing event header, the merge request or push build action for those two events, the no-op action for any other |
| ActionResolver.ResolveAction | src/main/java/com/dabsquared/gitlabjenkins/webhook/ActionResolver.java:45-53 | resolveAction: onPost for POST, onGet on the remaining path for GET, the no-op action for any other method |
| ActionResolver.Resolve | src/main/java/com/dabsquared/gitlabjenkins/webhook/ActionResolver.java:36-43 | 404 when no project is resolved; otherwise the action for the re-joined remaining parts |
| ActionResolver.OtherMethodsAreNoop | src/main/java/com/dabsquared/gitlabjenkins/webhook/ActionResolver.java:45-53 | a method other than POST or GET gives the no-op action |
| ActionResolver.BranchRedirectComesFirst | src/main/java/com/dabsquared/gitlabjenkins/webhook/ActionResolver.java:57-58 | an empty path with a ref is the branch redirect before any other rule |
| ActionResolver.StatusPngPath | src/main/java/com/dabsquared/gitlabjenkins/webhook/ActionResolver.java:59-60 | a path ending in status.png is a badge |
| ActionResolver.CommitPatternPath | src/main/java/com/dabsquared/gitlabjenkins/webhook/ActionResolver.java:61-62 | a path of the commit pattern gives the commit redirect, or the status JSON with the suffix |
| ActionResolver.OtherGetsAreNoop | src/main/java/com/dabsquared/gitlabjenkins/webhook/ActionResolver.java:55-65 | a GET is a no-op iff no rule applies |
| ActionResolver.PostCases | src/main/java/com/dabsquared/gitlabjenkins/webhook/ActionResolver.java:83-102 | an unreadable body is a 500 before the header is read; a missing header throws; the two events give their build actions with the body; any other is a no-op |
| ActionResolver.PostIgnoresPath | src/main/java/com/dabsquared/gitlabjenkins/webhook/ActionResolver.java:47-48 | the rest of the path does not matter to a POST |

## Left out

- `java.net.URL` parsing, JSON binding (`JsonUtil.read`) and `toPrettyPrint` logging: the URL parser is a parameter and the parsed hook is an input.
- Reading the request body: `Request.body` is `None` when `getInputStream` fails.
- The Java regular-expression engine: `String.matches` with a user-supplied regex is an uninterpreted `FullMatch` parameter. Only the fixed commit-status pattern is written out.
- `ACL.impersonate` / `ACLUtil.impersonate` (running as SYSTEM): these change who the code runs as. Jenkins' authorization state is the `SecurityContext` parameter instead.
- `Jenkins.getInstance()` and `getActiveInstance()`: a missing instance is an `Option`, and the ACL lookup is the `SecurityContext`.
- The wording of Jenkins' "missing permission" message, which lives in resource bundles: it is `MissingPermission(user, "Job/Build")`.
- The line separator `println` adds after the accepted-response text: it belongs to the servlet writer, and the model stops at the text.
- `migrateJobs`, the descriptors (except `doFillTriggerOpenMergeRequestOnPushItems`) and the deprecated 24-argument Gitee constructor: Jenkins glue with no stateable logic of its own.
- `SecureRandom` token generation and `Secret` encryption: a secret is its plain text, as an optional string.
- `super.readResolve()` at the end of both `readResolve` methods: Jenkins' trigger base class is not part of this model.
- The `volatile` secret field, the build queue's threads and any other concurrency: the model is sequential.
- `hashCode` of `User`, `Project`, `MergeRequestObjectAttributes`, `MergeRequestLabel` lists and `Date`, and every `toString`: these are foreign-library computations, represented by the `ForeignHashes` parameter or not at all.
- The plain getters of the payload objects and of both triggers: they return their field, which the model reads directly.
- The iteration order of `getTriggers().values()` (a Java map): it is given as the sequence of trigger slots.
- `MergeRequestHookTriggerHandlerImpl`, `PushHookTriggerHandlerImpl`, `OpenMergeRequestPushHookTriggerHandler`, the note and pipeline handlers, `NameBasedFilter`, `AllBranchesFilter` and the label filter: their classes are not part of this model. They appear as tags with their constructor arguments.
- The Gitee handler factories other than the merge-request factory and the Gitee branch filter factory: not part of this model. The Gitee trigger calls them with eight arguments, while the merge-request factory shown takes seven, so the trigger's handlers are tags of the call it makes.
- Java `char` is a UTF-16 code unit, while Dafny's `char` is a Unicode scalar value. Supplementary characters are therefore not modelled: not in paths or regexes, and not in `String.hashCode` (`HookModel.StringHash`), whose value for a payload string such as a note or a url holding one differs from Java's.
- The aliasing of the `Project` objects inside a merge-request hook: they are values. Writing the source's url and homepage updates the copy held by the attributes, and setting the hook's project to the target copies the value.
- `BranchFilters.NewBranchFilter`: requires a non-null filter type. Java's `switch` on a null enum throws `NullPointerException`, and that exception path is not modelled.
- `GitLabTrigger.GitLabPushTrigger.constructor`: requires a non-null `branchFilterType` for the same reason. A null type makes the Java constructor throw from the factory.
- `GitLabTrigger.GitLabPushTrigger.OnPostPush`, `OnPostMergeRequest` and `OnPostNote`: require `Valid()`; the constructor and `readResolve` establish it. A trigger whose transient fields were never built (a `NullPointerException` in Java) is not modelled.
- `GiteeTrigger.GiteePushTrigger.OnPostPush`, `OnPostMergeRequest`, `OnPostNote` and `OnPostPipeline`: require `Valid()` (all four handlers null, or all built); every method keeps it, so the half-built state cannot arise in the model.
- `BuildWebHook.TriggerNotifier.Run`: requires a job item. Java's cast would throw `ClassCastException` for another item, a case `MergeRequestBuildAction.execute` rules out before it runs the notifier.
- The build actions record which trigger received `onPost`, not the trigger's internal handling: that handling is modelled separately by the triggers' `onPost` methods.
