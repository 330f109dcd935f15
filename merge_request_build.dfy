/** MergeRequestBuildAction: the compatibility backfill of a merge-request
    hook and the guarded hand-off to the job's trigger. */
module MergeRequestBuild {
  import opened Wrappers
  import opened JavaStrings
  import opened Jenkins
  import opened HookModel
  import opened GitLabTrigger
  import opened BuildWebHook

  /** The backfill's result: the hook's new state, and the exception that cut
      it short, if any. */
  datatype CompatResult = CompatResult(after: MergeRequestHookValue, failure: Option<JavaException>)

  /** The source project's backfill, for a source with an httpUrl: a null url
      becomes the httpUrl; a null homepage becomes the httpUrl up to its last
      ".git", and that substring throws when there is no ".git" (index -1), in
      which case the url has already been written. */
  function SourceCompat(source: Project): (r: (Project, Option<JavaException>))
    requires source.httpUrl.Some?
    ensures r.0.namespace == source.namespace && r.0.httpUrl == source.httpUrl
    ensures r.0.url == (if source.url.None? then source.httpUrl else source.url)
    ensures source.homepage.Some? ==> r.0.homepage == source.homepage && r.1.None?
    ensures source.homepage.None? ==>
      var u := source.httpUrl.value;
      var k := LastIndexOf(u, ".git");
      && (r.1.None? <==> k >= 0)
      && (k >= 0 ==> r.0.homepage == Some(u[..k]))
      && (k < 0 ==> r.0.homepage.None? && r.1 == Some(StringIndexOutOfBoundsException))
  {
    var u := source.httpUrl.value;
    var withUrl := if source.url.None? then source.(url := Some(u)) else source;
    if source.homepage.None? then
      match Substring(u, 0, LastIndexOf(u, ".git"))
      case Success(homepage) => (withUrl.(homepage := Some(homepage)), None)
      case Failure(e) => (withUrl, Some(e))
    else (withUrl, None)
  }

  /** The specification of processForCompatibility on the hook's state. */
  function Compat(v: MergeRequestHookValue): (r: CompatResult)
    ensures r.after.user == v.user && r.after.assignee == v.assignee && r.after.labels == v.labels
    ensures r.after.objectAttributes.Some? <==> v.objectAttributes.Some?
    ensures v.objectAttributes.Some? ==> r.after.objectAttributes.value.target == v.objectAttributes.value.target
  {
    match v.objectAttributes
    case None => CompatResult(v, None)
    case Some(attributes) =>
      var (attributes', failure) :=
        if attributes.source.Some? && attributes.source.value.httpUrl.Some? then
          var (source', failure) := SourceCompat(attributes.source.value);
          (attributes.(source := Some(source')), failure)
        else (attributes, None);
      var v' := v.(objectAttributes := Some(attributes'));
      if failure.Some? then CompatResult(v', failure)
      else if v.project.None? && attributes.target.Some? then CompatResult(v'.(project := attributes.target), None)
      else CompatResult(v', None)
  }

  /** Null object attributes leave the hook as it is. */
  lemma NullAttributesUnchanged(v: MergeRequestHookValue)
    requires v.objectAttributes.None?
    ensures Compat(v) == CompatResult(v, None)
  {
  }

  /** A null source, or one without an httpUrl, is left as it is, and only the
      project can change. */
  lemma SourceWithoutHttpUrlUntouched(v: MergeRequestHookValue)
    requires v.objectAttributes.Some?
    requires v.objectAttributes.value.source.None? || v.objectAttributes.value.source.value.httpUrl.None?
    ensures Compat(v).failure.None?
    ensures Compat(v).after.objectAttributes == v.objectAttributes
    ensures Compat(v).after == v || (v.project.None? && Compat(v).after == v.(project := v.objectAttributes.value.target))
  {
  }

  /** The source's url: a url already there is never overwritten; a missing
      one becomes the httpUrl, even when the homepage step then throws. */
  lemma SourceUrlBackfill(v: MergeRequestHookValue)
    requires v.objectAttributes.Some? && v.objectAttributes.value.source.Some?
    requires v.objectAttributes.value.source.value.httpUrl.Some?
    ensures var source := v.objectAttributes.value.source.value;
      var source' := Compat(v).after.objectAttributes.value.source;
      && source'.Some?
      && source'.value.url == (if source.url.Some? then source.url else source.httpUrl)
  {
  }

  /** The homepage of an httpUrl ending in ".git" is the httpUrl without that
      suffix, and the backfill then completes. */
  lemma HomepageStripsGitSuffix(v: MergeRequestHookValue)
    requires v.objectAttributes.Some? && v.objectAttributes.value.source.Some?
    requires v.objectAttributes.value.source.value.httpUrl.Some?
    requires v.objectAttributes.value.source.value.homepage.None?
    requires EndsWith(v.objectAttributes.value.source.value.httpUrl.value, ".git")
    ensures var u := v.objectAttributes.value.source.value.httpUrl.value;
      && Compat(v).failure.None?
      && Compat(v).after.objectAttributes.value.source.value.homepage == Some(u[..|u| - 4])
  {
    var u := v.objectAttributes.value.source.value.httpUrl.value;
    assert OccursAt(u, ".git", |u| - 4);
    var k := LastIndexOf(u, ".git");
    assert k == |u| - 4;
  }

  /** An httpUrl with no ".git" in it makes the homepage step throw
      StringIndexOutOfBoundsException; the hook's project is then not set and
      the homepage stays null. */
  lemma HttpUrlWithoutGitThrows(v: MergeRequestHookValue)
    requires v.objectAttributes.Some? && v.objectAttributes.value.source.Some?
    requires v.objectAttributes.value.source.value.httpUrl.Some?
    requires v.objectAttributes.value.source.value.homepage.None?
    requires forall j :: 0 <= j <= |v.objectAttributes.value.source.value.httpUrl.value| ==>
      !OccursAt(v.objectAttributes.value.source.value.httpUrl.value, ".git", j)
    ensures Compat(v).failure == Some(StringIndexOutOfBoundsException)
    ensures Compat(v).after.project == v.project
    ensures Compat(v).after.objectAttributes.value.source.value.homepage.None?
  {
    var u := v.objectAttributes.value.source.value.httpUrl.value;
    var k := LastIndexOf(u, ".git");
    assert k < 0;
  }

  /** An existing project is never replaced; a null one becomes the target
      when the backfill completes. */
  lemma ProjectBackfill(v: MergeRequestHookValue)
    ensures v.project.Some? ==> Compat(v).after.project == v.project
    ensures v.project.None? && v.objectAttributes.Some? && Compat(v).failure.None? ==>
      Compat(v).after.project == v.objectAttributes.value.target
  {
  }

  /** A second run changes nothing, and fails exactly as the first did. */
  lemma CompatIdempotent(v: MergeRequestHookValue)
    ensures Compat(Compat(v).after) == Compat(v)
  {
    var r := Compat(v);
    match v.objectAttributes
    case None =>
    case Some(attributes) =>
      if attributes.source.Some? && attributes.source.value.httpUrl.Some? {
        var source := attributes.source.value;
        var (source', failure) := SourceCompat(source);
        var (source'', failure') := SourceCompat(source');
        assert source'' == source' && failure' == failure;
      }
  }

  /** MergeRequestBuildAction: the item, the parsed hook and the request's token. */
  class MergeRequestBuildAction {
    const project: Item
    const mergeRequestHook: MergeRequestHook
    const secretToken: Option<string>

    /** The JSON body is given already parsed into the hook. */
    constructor (project: Item, mergeRequestHook: MergeRequestHook, secretToken: Option<string>)
      ensures this.project == project && this.mergeRequestHook == mergeRequestHook && this.secretToken == secretToken
    {
      this.project := project;
      this.mergeRequestHook := mergeRequestHook;
      this.secretToken := secretToken;
    }

    /** processForCompatibility: rewrites the hook as Compat says, updating the
        source project inside the attributes and then the hook's project. */
    method ProcessForCompatibility() returns (failure: Option<JavaException>)
      modifies mergeRequestHook`objectAttributes, mergeRequestHook`project
      ensures CompatResult(mergeRequestHook.Value(), failure) == Compat(old(mergeRequestHook.Value()))
    {
      failure := None;
      var attributes := mergeRequestHook.objectAttributes;
      if attributes.Some? {
        var source := attributes.value.source;
        if source.Some? && source.value.httpUrl.Some? {
          var httpUrl := source.value.httpUrl.value;
          var s := source.value;
          if s.url.None? {
            s := s.(url := Some(httpUrl));
            mergeRequestHook.SetObjectAttributes(Some(attributes.value.(source := Some(s))));
          }
          if s.homepage.None? {
            var homepage := Substring(httpUrl, 0, LastIndexOf(httpUrl, ".git"));
            if homepage.Failure? {
              return Some(homepage.error);
            }
            s := s.(homepage := Some(homepage.value));
            mergeRequestHook.SetObjectAttributes(Some(attributes.value.(source := Some(s))));
          }
        }
        if mergeRequestHook.project.None? && attributes.value.target.Some? {
          mergeRequestHook.SetProject(attributes.value.target);
        }
      }
    }

    /** The specification of execute. */
    function ExecuteOutcome(ctx: SecurityContext, caller: Authentication, webHookDescription: string): (r: Outcome)
      reads if project.JobItem? then Triggers(project.job.triggers) else {}
    {
      if !project.JobItem? then
        Outcome(None, Raised(ErrorWithoutStack(409, Text("Merge Request Hook is not supported for this project"))))
      else
        match RunOutcome(project.job, secretToken, ctx, caller)
        case NoTrigger => Outcome(None, Raised(ResponseWithHook(webHookDescription)))
        case Performed(t) => Outcome(Some(t), Raised(ResponseWithHook(webHookDescription)))
        case Rejected(response) => Outcome(None, Raised(response))
    }

    /** execute: a non-job item is refused with 409 before any trigger is
        looked up; otherwise the notifier runs as SYSTEM with the caller's
        authentication, and unless it raised its own response the accepted
        response follows. webHookDescription is what the hook's
        getWebHookDescription returns. */
    method Execute(ctx: SecurityContext, caller: Authentication, webHookDescription: string) returns (outcome: Outcome)
      ensures outcome == ExecuteOutcome(ctx, caller, webHookDescription)
    {
      if !project.JobItem? {
        return Outcome(None, Raised(ErrorWithoutStack(409, Text("Merge Request Hook is not supported for this project"))));
      }
      var notifier := new TriggerNotifier(project, secretToken, caller);
      var run := notifier.Run(ctx);
      match run
      case NoTrigger =>
        outcome := Outcome(None, Raised(ResponseWithHook(webHookDescription)));
      case Performed(t) =>
        outcome := Outcome(Some(t), Raised(ResponseWithHook(webHookDescription)));
      case Rejected(response) =>
        outcome := Outcome(None, Raised(response));
    }

    /** execute(response): the backfill first, then execute; an exception in
        the backfill ends the action before execute. */
    method ExecuteResponse(ctx: SecurityContext, caller: Authentication, webHookDescription: string) returns (outcome: Outcome)
      modifies mergeRequestHook`objectAttributes, mergeRequestHook`project
      ensures var c := Compat(old(mergeRequestHook.Value()));
        && mergeRequestHook.Value() == c.after
        && (c.failure.Some? ==> outcome == Outcome(None, Threw(c.failure.value)))
        && (c.failure.None? ==> outcome == ExecuteOutcome(ctx, caller, webHookDescription))
    {
      var failure := ProcessForCompatibility();
      if failure.Some? {
        return Outcome(None, Threw(failure.value));
      }
      outcome := Execute(ctx, caller, webHookDescription);
    }
  }

  /** The action's outcome, by cases: 409 for a non-job item, the notifier's
      own rejection, and otherwise the accepted response, with the post
      delivered to the trigger exactly when the notifier performed it. */
  lemma ExecuteOutcomeCases(a: MergeRequestBuildAction, ctx: SecurityContext, caller: Authentication, webHookDescription: string)
    ensures !a.project.JobItem? ==>
      a.ExecuteOutcome(ctx, caller, webHookDescription) ==
        Outcome(None, Raised(ErrorWithoutStack(409, Text("Merge Request Hook is not supported for this project"))))
    ensures a.project.JobItem? ==>
      var run := RunOutcome(a.project.job, a.secretToken, ctx, caller);
      var o := a.ExecuteOutcome(ctx, caller, webHookDescription);
      && (o.delivered.Some? <==> run.Performed?)
      && (run.Rejected? ==> o.completion == Raised(run.response))
      && (!run.Rejected? ==> o.completion == Raised(ResponseWithHook(webHookDescription)))
  {
  }
}
