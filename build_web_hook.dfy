/** What the two build actions share: the accepted-hook response, the
    secret-token and permission decision of TriggerNotifier, and the outcome of
    running an action. */
module BuildWebHook {
  import opened Wrappers
  import opened JavaStrings
  import opened Jenkins
  import opened GitLabTrigger

  /** A job as the actions see it: whether it is a parameterized job (the kind
      getFromJob looks into) and its triggers in iteration order. */
  datatype JobView = JobView(isParameterizedJob: bool, triggers: seq<TriggerSlot<GitLabPushTrigger>>)

  /** A Jenkins item: a job, or an item of another kind (a folder, say). */
  datatype Item = JobItem(job: JobView) | OtherItem

  /** The caller, by the name the permission message shows. */
  datatype Authentication = Authentication(name: string)

  /** The Jenkins-wide facts checkPermission consults: whether the GitLab
      connection configuration asks for the authenticated endpoint, and
      whether the caller holds the Job/Build permission. */
  datatype SecurityContext = SecurityContext(useAuthenticatedEndpoint: bool, hasBuildPermission: bool)

  /** The permission the notifier checks, as group title and name. */
  const BuildPermission := "Job/Build"

  /** The accepted-response text's fixed suffix and content type. */
  const AcceptedSuffix := " has been accepted."
  const PlainTextUtf8 := "text/plain;charset=UTF-8"

  /** The triggers among the slots. */
  function Triggers(slots: seq<TriggerSlot<GitLabPushTrigger>>): set<GitLabPushTrigger> {
    set i | 0 <= i < |slots| && slots[i].Instance? :: slots[i].trigger
  }

  /** What GitLabPushTrigger.getFromJob returns for the job. */
  function FoundTrigger(job: JobView): (r: Option<GitLabPushTrigger>)
    ensures r.Some? ==> r.value in Triggers(job.triggers)
    ensures !job.isParameterizedJob ==> r.None?
    ensures job.isParameterizedJob ==> r == LastInstance(job.triggers)
  {
    if job.isParameterizedJob then
      var r := LastInstance(job.triggers);
      assert r.Some? ==> exists i :: 0 <= i < |job.triggers| && job.triggers[i] == Instance(r.value);
      r
    else None
  }

  // ---------------------------------------------------------------------------
  // responseWithHook

  /** responseWithHook: a plain-text UTF-8 response whose line is the hook's
      description followed by " has been accepted.". */
  function ResponseWithHook(webHookDescription: string): (r: HttpResponse)
    ensures r.PlainText? && r.contentType == PlainTextUtf8
    ensures EndsWith(r.text, AcceptedSuffix)
    ensures r.text[..|r.text| - |AcceptedSuffix|] == webHookDescription
  {
    PlainText(PlainTextUtf8, webHookDescription + AcceptedSuffix)
  }

  /** Different descriptions give different responses. */
  lemma ResponseWithHookInjective(a: string, b: string)
    ensures ResponseWithHook(a) == ResponseWithHook(b) ==> a == b
  {
    if ResponseWithHook(a) == ResponseWithHook(b) {
      var t := ResponseWithHook(a).text;
      assert a == t[..|t| - |AcceptedSuffix|];
    }
  }

  // ---------------------------------------------------------------------------
  // The token and permission decision

  /** checkPermission(Item.BUILD): a 403 exactly when the authenticated
      endpoint is on and the caller lacks the permission. */
  function CheckPermission(ctx: SecurityContext, caller: Authentication): (r: Option<HttpResponse>)
    ensures r.Some? <==> ctx.useAuthenticatedEndpoint && !ctx.hasBuildPermission
    ensures r.Some? ==> r.value == ErrorWithoutStack(403, MissingPermission(caller.name, BuildPermission))
  {
    if ctx.useAuthenticatedEndpoint && !ctx.hasBuildPermission then
      Some(ErrorWithoutStack(403, MissingPermission(caller.name, BuildPermission)))
    else None
  }

  /** The decision of TriggerNotifier.run once a trigger is found: None lets
      performOnPost run, Some is the response raised instead. An empty trigger
      token falls back to the permission check; a non-empty one must equal the
      request's token under StringUtils.equals, which is null-safe and so is
      plain equality of the optional strings. */
  function Authorize(triggerToken: Option<string>, requestToken: Option<string>, ctx: SecurityContext, caller: Authentication): (r: Option<HttpResponse>)
    ensures r.None? <==>
      || (IsEmpty(triggerToken) && (!ctx.useAuthenticatedEndpoint || ctx.hasBuildPermission))
      || (!IsEmpty(triggerToken) && triggerToken == requestToken)
    ensures r.Some? && !IsEmpty(triggerToken) ==> r.value == ErrorWithoutStack(401, Text("Invalid token"))
    ensures r.Some? && IsEmpty(triggerToken) ==> r.value == ErrorWithoutStack(403, MissingPermission(caller.name, BuildPermission))
  {
    if IsEmpty(triggerToken) then CheckPermission(ctx, caller)
    else if triggerToken != requestToken then Some(ErrorWithoutStack(401, Text("Invalid token")))
    else None
  }

  /** A non-empty trigger token that differs from the request's gives 401,
      whatever the permission context. */
  lemma MismatchedTokenIsUnauthorized(triggerToken: Option<string>, requestToken: Option<string>, ctx: SecurityContext, caller: Authentication)
    requires !IsEmpty(triggerToken) && triggerToken != requestToken
    ensures Authorize(triggerToken, requestToken, ctx, caller) == Some(ErrorWithoutStack(401, Text("Invalid token")))
  {
  }

  /** A matching non-empty token is accepted with no permission check: the
      outcome is the same in every security context. */
  lemma MatchingTokenSkipsPermissionCheck(token: string, ctx1: SecurityContext, ctx2: SecurityContext, caller: Authentication)
    requires token != ""
    ensures Authorize(Some(token), Some(token), ctx1, caller) == Authorize(Some(token), Some(token), ctx2, caller) == None
  {
  }

  /** With an empty trigger token the request's token plays no part: only the
      permission check decides, and it rejects with 403, never 401. */
  lemma EmptyTokenDefersToPermission(triggerToken: Option<string>, requestToken1: Option<string>, requestToken2: Option<string>, ctx: SecurityContext, caller: Authentication)
    requires IsEmpty(triggerToken)
    ensures Authorize(triggerToken, requestToken1, ctx, caller) == Authorize(triggerToken, requestToken2, ctx, caller)
         == CheckPermission(ctx, caller)
  {
  }

  // ---------------------------------------------------------------------------
  // TriggerNotifier

  /** What TriggerNotifier.run does: nothing when the job has no trigger,
      performOnPost on the trigger, or raise a response instead. */
  datatype NotifierOutcome = NoTrigger | Performed(trigger: GitLabPushTrigger) | Rejected(response: HttpResponse)

  /** The specification of run for a job, a request token and a caller. */
  function RunOutcome(job: JobView, secretToken: Option<string>, ctx: SecurityContext, caller: Authentication): (r: NotifierOutcome)
    reads Triggers(job.triggers)
  {
    match FoundTrigger(job)
    case None => NoTrigger
    case Some(t) =>
      match Authorize(t.GetSecretToken(), secretToken, ctx, caller)
      case None => Performed(t)
      case Some(response) => Rejected(response)
  }

  /** A job without a trigger performs nothing and raises nothing; a performed
      post goes to the trigger getFromJob finds; a rejection is the response
      Authorize gives for that trigger's token. */
  lemma RunOutcomeMeaning(job: JobView, secretToken: Option<string>, ctx: SecurityContext, caller: Authentication)
    ensures FoundTrigger(job).None? <==> RunOutcome(job, secretToken, ctx, caller) == NoTrigger
    ensures RunOutcome(job, secretToken, ctx, caller).Performed? <==>
      FoundTrigger(job).Some? && Authorize(FoundTrigger(job).value.GetSecretToken(), secretToken, ctx, caller).None?
    ensures RunOutcome(job, secretToken, ctx, caller).Performed? ==>
      Some(RunOutcome(job, secretToken, ctx, caller).trigger) == FoundTrigger(job)
    ensures RunOutcome(job, secretToken, ctx, caller).Rejected? ==>
      Some(RunOutcome(job, secretToken, ctx, caller).response) == Authorize(FoundTrigger(job).value.GetSecretToken(), secretToken, ctx, caller)
  {
  }

  /** TriggerNotifier: the item, the token the request carried and the caller. */
  class TriggerNotifier {
    const project: Item
    const secretToken: Option<string>
    const authentication: Authentication

    constructor (project: Item, secretToken: Option<string>, authentication: Authentication)
      ensures this.project == project && this.secretToken == secretToken && this.authentication == authentication
    {
      this.project := project;
      this.secretToken := secretToken;
      this.authentication := authentication;
    }

    /** run: the cast to Job requires the item to be a job. */
    method Run(ctx: SecurityContext) returns (outcome: NotifierOutcome)
      requires project.JobItem?
      ensures outcome == RunOutcome(project.job, secretToken, ctx, authentication)
    {
      var trigger := GetFromJob(project.job.isParameterizedJob, project.job.triggers);
      if trigger.None? {
        return NoTrigger;
      }
      var t := trigger.value;
      var token := t.GetSecretToken();
      if IsEmpty(token) {
        var denied := CheckPermission(ctx, authentication);
        if denied.Some? {
          return Rejected(denied.value);
        }
      } else if token != secretToken {
        return Rejected(ErrorWithoutStack(401, Text("Invalid token")));
      }
      outcome := Performed(t);
    }
  }

  // ---------------------------------------------------------------------------
  // Outcome of an action

  /** How an action's execute ends: it returns, raises an HTTP response, or
      throws a Java runtime exception. */
  datatype Completion = Returned | Raised(response: HttpResponse) | Threw(exception: JavaException)

  /** Which trigger, if any, received onPost with the action's hook, and how
      the action ended. */
  datatype Outcome = Outcome(delivered: Option<GitLabPushTrigger>, completion: Completion)
}
