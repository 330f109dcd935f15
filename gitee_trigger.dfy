/** GiteePushTrigger: the trigger configuration of a job, the filters and
    handlers it builds lazily from that configuration, and the lookup of a
    job's trigger. */
module GiteeTrigger {
  import opened Wrappers
  import opened BranchFilters
  import opened Jenkins

  // ---------------------------------------------------------------------------
  // What the trigger builds. The Gitee factories and classes named here are not
  // part of this model: each built object is a tag carrying the arguments the
  // trigger passes to its factory.

  /** newMergeRequestHookTriggerHandler, called with eight arguments. */
  datatype MergeRequestHandler = MergeRequestHandler(
    triggerOnOpenMergeRequest: bool,
    triggerOnUpdateMergeRequest: bool,
    triggerOnAcceptedMergeRequest: bool,
    triggerOnClosedMergeRequest: bool,
    skipWorkInProgressMergeRequest: bool,
    triggerOnApprovedMergeRequest: bool,
    triggerOnTestedMergeRequest: bool,
    cancelPendingBuildsOnUpdate: bool)

  /** newNoteHookTriggerHandler, given the noteRegex field itself (possibly null). */
  datatype NoteHandler = NoteHandler(triggerOnNoteRequest: bool, noteRegex: Option<string>)

  /** newPushHookTriggerHandler. */
  datatype PushHandler = PushHandler(triggerOnPush: bool, skipWorkInProgressMergeRequest: bool)

  /** newPipelineHookTriggerHandler. */
  datatype PipelineHandler = PipelineHandler(triggerOnPipelineEvent: bool)

  /** The Gitee BranchFilterFactory's filter, built from a complete config. */
  datatype GiteeBranchFilter = GiteeBranchFilter(config: BranchFilterConfig)

  /** The label filter configuration, an opaque value. */
  datatype MergeRequestLabelFilterConfig = MergeRequestLabelFilterConfig(payload: string)

  /** MergeRequestLabelFilterFactory's filter, built from the (possibly null) config. */
  datatype MergeRequestLabelFilter = MergeRequestLabelFilter(config: Option<MergeRequestLabelFilterConfig>)

  /** The Gitee hook payloads, opaque values handed on to the handlers. */
  datatype GiteeHook =
    | GiteePushHook(payload: string)
    | GiteeMergeRequestHook(payload: string)
    | GiteeNoteHook(payload: string)
    | GiteePipelineHook(payload: string)

  /** What an onPost hands to a handler. */
  type GiteeCall<H> = HandleCall<H, GiteeHook, GiteeBranchFilter, MergeRequestLabelFilter>

  class GiteePushTrigger {
    var triggerOnPush: bool
    var triggerOnOpenMergeRequest: bool
    var triggerOnPipelineEvent: bool
    var triggerOnAcceptedMergeRequest: bool
    var triggerOnUpdateMergeRequest: bool
    var triggerOnClosedMergeRequest: bool
    var triggerOnApprovedMergeRequest: bool
    var triggerOnTestedMergeRequest: bool
    var triggerOnNoteRequest: bool
    var noteRegex: Option<string>
    var ciSkip: bool
    var skipWorkInProgressMergeRequest: bool
    var setBuildDescription: bool
    var addNoteOnMergeRequest: bool
    var addCiMessage: bool
    var addVoteOnMergeRequest: bool
    var branchFilterName: Option<string>
    var branchFilterType: Option<BranchFilterType>
    var includeBranchesSpec: Option<string>
    var excludeBranchesSpec: Option<string>
    var targetBranchRegex: Option<string>
    var mergeRequestLabelFilterConfig: Option<MergeRequestLabelFilterConfig>
    /** The plain text of the stored Secret; None while no secret is stored. */
    var secretToken: Option<string>
    var pendingBuildName: Option<string>
    var cancelPendingBuildsOnUpdate: bool
    var acceptMergeRequestOnSuccess: bool

    // The transient fields, null (None) until built.
    var branchFilter: Option<GiteeBranchFilter>
    var pushHookTriggerHandler: Option<PushHandler>
    var mergeRequestHookTriggerHandler: Option<MergeRequestHandler>
    var noteHookTriggerHandler: Option<NoteHandler>
    var pipelineTriggerHandler: Option<PipelineHandler>
    var mergeRequestLabelFilter: Option<MergeRequestLabelFilter>

    /** The four handlers are only ever built together, so either all are null
        or none is. */
    predicate Valid()
      reads this
    {
      || (pushHookTriggerHandler.None? && mergeRequestHookTriggerHandler.None?
          && noteHookTriggerHandler.None? && pipelineTriggerHandler.None?)
      || (pushHookTriggerHandler.Some? && mergeRequestHookTriggerHandler.Some?
          && noteHookTriggerHandler.Some? && pipelineTriggerHandler.Some?)
    }

    // --- What the configuration determines --------------------------------

    function MergeRequestHandlerFor(): MergeRequestHandler
      reads this
    {
      MergeRequestHandler(triggerOnOpenMergeRequest, triggerOnUpdateMergeRequest, triggerOnAcceptedMergeRequest,
                          triggerOnClosedMergeRequest, skipWorkInProgressMergeRequest, triggerOnApprovedMergeRequest,
                          triggerOnTestedMergeRequest, cancelPendingBuildsOnUpdate)
    }

    /** The four handlers initializeTriggerHandler builds from the current configuration. */
    predicate HandlersMatchConfig()
      reads this
    {
      && mergeRequestHookTriggerHandler == Some(MergeRequestHandlerFor())
      && noteHookTriggerHandler == Some(NoteHandler(triggerOnNoteRequest, noteRegex))
      && pushHookTriggerHandler == Some(PushHandler(triggerOnPush, skipWorkInProgressMergeRequest))
      && pipelineTriggerHandler == Some(PipelineHandler(triggerOnPipelineEvent))
    }

    /** The branch filter built from the current specs and the given type. */
    function BranchFilterFor(filterType: BranchFilterType): GiteeBranchFilter
      reads this
    {
      GiteeBranchFilter(BranchFilterConfig(Some(filterType), includeBranchesSpec, excludeBranchesSpec, targetBranchRegex))
    }

    // --- Construction -------------------------------------------------------

    /** The data-bound constructor: the field defaults, no secret, and no
        filter or handler built yet. */
    constructor ()
      ensures triggerOnPush && triggerOnOpenMergeRequest && triggerOnNoteRequest && ciSkip && setBuildDescription
      ensures !triggerOnPipelineEvent && !triggerOnAcceptedMergeRequest && !triggerOnUpdateMergeRequest
      ensures !triggerOnClosedMergeRequest && !triggerOnApprovedMergeRequest && !triggerOnTestedMergeRequest
      ensures !skipWorkInProgressMergeRequest && !cancelPendingBuildsOnUpdate && !acceptMergeRequestOnSuccess
      ensures !addNoteOnMergeRequest && !addCiMessage && !addVoteOnMergeRequest
      ensures noteRegex == Some("")
      ensures branchFilterName.None? && branchFilterType.None? && includeBranchesSpec.None?
      ensures excludeBranchesSpec.None? && targetBranchRegex.None? && mergeRequestLabelFilterConfig.None?
      ensures secretToken.None? && pendingBuildName.None?
      ensures branchFilter.None? && mergeRequestLabelFilter.None? && pushHookTriggerHandler.None?
      ensures Valid()
    {
      triggerOnPush := true;
      triggerOnOpenMergeRequest := true;
      triggerOnPipelineEvent := false;
      triggerOnAcceptedMergeRequest := false;
      triggerOnUpdateMergeRequest := false;
      triggerOnClosedMergeRequest := false;
      triggerOnApprovedMergeRequest := false;
      triggerOnTestedMergeRequest := false;
      triggerOnNoteRequest := true;
      noteRegex := Some("");
      ciSkip := true;
      skipWorkInProgressMergeRequest := false;
      setBuildDescription := true;
      addNoteOnMergeRequest := false;
      addCiMessage := false;
      addVoteOnMergeRequest := false;
      branchFilterName := None;
      branchFilterType := None;
      includeBranchesSpec := None;
      excludeBranchesSpec := None;
      targetBranchRegex := None;
      mergeRequestLabelFilterConfig := None;
      secretToken := None;
      pendingBuildName := None;
      cancelPendingBuildsOnUpdate := false;
      acceptMergeRequestOnSuccess := false;
      branchFilter := None;
      pushHookTriggerHandler := None;
      mergeRequestHookTriggerHandler := None;
      noteHookTriggerHandler := None;
      pipelineTriggerHandler := None;
      mergeRequestLabelFilter := None;
    }

    // --- Getters with logic of their own --------------------------------------

    /** getNoteRegex never returns null: it is empty exactly when no regex, or
        the empty regex, is stored, and otherwise the stored regex. */
    function GetNoteRegex(): (r: string)
      reads this
      ensures r == "" <==> noteRegex == None || noteRegex == Some("")
      ensures noteRegex.Some? ==> r == noteRegex.value
    {
      noteRegex.GetOr("")
    }

    /** getSecretToken is null exactly when no secret is stored. */
    function GetSecretToken(): (r: Option<string>)
      reads this
      ensures r.None? <==> secretToken.None?
      ensures r.Some? ==> r == secretToken
    {
      secretToken
    }

    // --- The data-bound setters, each changing its own field only -------------

    method SetTriggerOnPush(triggerOnPush: bool)
      modifies this`triggerOnPush
      ensures this.triggerOnPush == triggerOnPush
    {
      this.triggerOnPush := triggerOnPush;
    }

    method SetTriggerOnApprovedMergeRequest(triggerOnApprovedMergeRequest: bool)
      modifies this`triggerOnApprovedMergeRequest
      ensures this.triggerOnApprovedMergeRequest == triggerOnApprovedMergeRequest
    {
      this.triggerOnApprovedMergeRequest := triggerOnApprovedMergeRequest;
    }

    method SetTriggerOnTestedMergeRequest(triggerOnTestedMergeRequest: bool)
      modifies this`triggerOnTestedMergeRequest
      ensures this.triggerOnTestedMergeRequest == triggerOnTestedMergeRequest
    {
      this.triggerOnTestedMergeRequest := triggerOnTestedMergeRequest;
    }

    method SetTriggerOnOpenMergeRequest(triggerOnOpenMergeRequest: bool)
      modifies this`triggerOnOpenMergeRequest
      ensures this.triggerOnOpenMergeRequest == triggerOnOpenMergeRequest
    {
      this.triggerOnOpenMergeRequest := triggerOnOpenMergeRequest;
    }

    method SetTriggerOnAcceptedMergeRequest(triggerOnAcceptedMergeRequest: bool)
      modifies this`triggerOnAcceptedMergeRequest
      ensures this.triggerOnAcceptedMergeRequest == triggerOnAcceptedMergeRequest
    {
      this.triggerOnAcceptedMergeRequest := triggerOnAcceptedMergeRequest;
    }

    method SetTriggerOnClosedMergeRequest(triggerOnClosedMergeRequest: bool)
      modifies this`triggerOnClosedMergeRequest
      ensures this.triggerOnClosedMergeRequest == triggerOnClosedMergeRequest
    {
      this.triggerOnClosedMergeRequest := triggerOnClosedMergeRequest;
    }

    method SetTriggerOnNoteRequest(triggerOnNoteRequest: bool)
      modifies this`triggerOnNoteRequest
      ensures this.triggerOnNoteRequest == triggerOnNoteRequest
    {
      this.triggerOnNoteRequest := triggerOnNoteRequest;
    }

    /** Stores the argument as given, null included; getNoteRegex hides the null. */
    method SetNoteRegex(noteRegex: Option<string>)
      modifies this`noteRegex
      ensures this.noteRegex == noteRegex
    {
      this.noteRegex := noteRegex;
    }

    method SetCiSkip(ciSkip: bool)
      modifies this`ciSkip
      ensures this.ciSkip == ciSkip
    {
      this.ciSkip := ciSkip;
    }

    method SetSkipWorkInProgressMergeRequest(skipWorkInProgressMergeRequest: bool)
      modifies this`skipWorkInProgressMergeRequest
      ensures this.skipWorkInProgressMergeRequest == skipWorkInProgressMergeRequest
    {
      this.skipWorkInProgressMergeRequest := skipWorkInProgressMergeRequest;
    }

    method SetSetBuildDescription(setBuildDescription: bool)
      modifies this`setBuildDescription
      ensures this.setBuildDescription == setBuildDescription
    {
      this.setBuildDescription := setBuildDescription;
    }

    method SetAddNoteOnMergeRequest(addNoteOnMergeRequest: bool)
      modifies this`addNoteOnMergeRequest
      ensures this.addNoteOnMergeRequest == addNoteOnMergeRequest
    {
      this.addNoteOnMergeRequest := addNoteOnMergeRequest;
    }

    method SetAddCiMessage(addCiMessage: bool)
      modifies this`addCiMessage
      ensures this.addCiMessage == addCiMessage
    {
      this.addCiMessage := addCiMessage;
    }

    method SetAddVoteOnMergeRequest(addVoteOnMergeRequest: bool)
      modifies this`addVoteOnMergeRequest
      ensures this.addVoteOnMergeRequest == addVoteOnMergeRequest
    {
      this.addVoteOnMergeRequest := addVoteOnMergeRequest;
    }

    method SetBranchFilterName(branchFilterName: Option<string>)
      modifies this`branchFilterName
      ensures this.branchFilterName == branchFilterName
    {
      this.branchFilterName := branchFilterName;
    }

    method SetBranchFilterType(branchFilterType: Option<BranchFilterType>)
      modifies this`branchFilterType
      ensures this.branchFilterType == branchFilterType
    {
      this.branchFilterType := branchFilterType;
    }

    method SetIncludeBranchesSpec(includeBranchesSpec: Option<string>)
      modifies this`includeBranchesSpec
      ensures this.includeBranchesSpec == includeBranchesSpec
    {
      this.includeBranchesSpec := includeBranchesSpec;
    }

    method SetExcludeBranchesSpec(excludeBranchesSpec: Option<string>)
      modifies this`excludeBranchesSpec
      ensures this.excludeBranchesSpec == excludeBranchesSpec
    {
      this.excludeBranchesSpec := excludeBranchesSpec;
    }

    method SetTargetBranchRegex(targetBranchRegex: Option<string>)
      modifies this`targetBranchRegex
      ensures this.targetBranchRegex == targetBranchRegex
    {
      this.targetBranchRegex := targetBranchRegex;
    }

    method SetMergeRequestLabelFilterConfig(mergeRequestLabelFilterConfig: Option<MergeRequestLabelFilterConfig>)
      modifies this`mergeRequestLabelFilterConfig
      ensures this.mergeRequestLabelFilterConfig == mergeRequestLabelFilterConfig
    {
      this.mergeRequestLabelFilterConfig := mergeRequestLabelFilterConfig;
    }

    /** Secret.fromString turns a null argument into the empty secret, so after
        this call a secret is always stored. */
    method SetSecretToken(secretToken: Option<string>)
      modifies this`secretToken
      ensures this.secretToken == Some(secretToken.GetOr(""))
    {
      this.secretToken := Some(secretToken.GetOr(""));
    }

    method SetAcceptMergeRequestOnSuccess(acceptMergeRequestOnSuccess: bool)
      modifies this`acceptMergeRequestOnSuccess
      ensures this.acceptMergeRequestOnSuccess == acceptMergeRequestOnSuccess
    {
      this.acceptMergeRequestOnSuccess := acceptMergeRequestOnSuccess;
    }

    method SetTriggerOnUpdateMergeRequest(triggerOnUpdateMergeRequest: bool)
      modifies this`triggerOnUpdateMergeRequest
      ensures this.triggerOnUpdateMergeRequest == triggerOnUpdateMergeRequest
    {
      this.triggerOnUpdateMergeRequest := triggerOnUpdateMergeRequest;
    }

    method SetTriggerOnPipelineEvent(triggerOnPipelineEvent: bool)
      modifies this`triggerOnPipelineEvent
      ensures this.triggerOnPipelineEvent == triggerOnPipelineEvent
    {
      this.triggerOnPipelineEvent := triggerOnPipelineEvent;
    }

    method SetPendingBuildName(pendingBuildName: Option<string>)
      modifies this`pendingBuildName
      ensures this.pendingBuildName == pendingBuildName
    {
      this.pendingBuildName := pendingBuildName;
    }

    method SetCancelPendingBuildsOnUpdate(cancelPendingBuildsOnUpdate: bool)
      modifies this`cancelPendingBuildsOnUpdate
      ensures this.cancelPendingBuildsOnUpdate == cancelPendingBuildsOnUpdate
    {
      this.cancelPendingBuildsOnUpdate := cancelPendingBuildsOnUpdate;
    }

    // --- Initialisation of the transient fields --------------------------------

    /** initializeTriggerHandler: all four handlers from the current configuration. */
    method InitializeTriggerHandler()
      modifies this`mergeRequestHookTriggerHandler, this`noteHookTriggerHandler,
               this`pushHookTriggerHandler, this`pipelineTriggerHandler
      ensures HandlersMatchConfig() && Valid()
    {
      mergeRequestHookTriggerHandler := Some(MergeRequestHandlerFor());
      noteHookTriggerHandler := Some(NoteHandler(triggerOnNoteRequest, noteRegex));
      pushHookTriggerHandler := Some(PushHandler(triggerOnPush, skipWorkInProgressMergeRequest));
      pipelineTriggerHandler := Some(PipelineHandler(triggerOnPipelineEvent));
    }

    /** initializeBranchFilter: a null type is replaced by All for good, and the
        filter is built from the specs and that type. */
    method InitializeBranchFilter()
      modifies this`branchFilterType, this`branchFilter
      ensures branchFilterType == Some(old(branchFilterType).GetOr(All))
      ensures branchFilter == Some(BranchFilterFor(branchFilterType.value))
    {
      if branchFilterType.None? {
        branchFilterType := Some(All);
      }
      branchFilter := Some(BranchFilterFor(branchFilterType.value));
    }

    /** initializeMergeRequestLabelFilter. */
    method InitializeMergeRequestLabelFilter()
      modifies this`mergeRequestLabelFilter
      ensures mergeRequestLabelFilter == Some(MergeRequestLabelFilter(mergeRequestLabelFilterConfig))
    {
      mergeRequestLabelFilter := Some(MergeRequestLabelFilter(mergeRequestLabelFilterConfig));
    }

    /** The first half of the push, merge-request and note onPost methods:
        build whichever filter is still null; an existing filter is kept. */
    method EnsureFilters()
      modifies this`branchFilterType, this`branchFilter, this`mergeRequestLabelFilter
      ensures branchFilter.Some? && mergeRequestLabelFilter.Some?
      ensures old(branchFilter).Some? ==> branchFilter == old(branchFilter) && branchFilterType == old(branchFilterType)
      ensures old(branchFilter).None? ==>
        branchFilterType == Some(old(branchFilterType).GetOr(All)) && branchFilter == Some(BranchFilterFor(branchFilterType.value))
      ensures mergeRequestLabelFilter ==
        if old(mergeRequestLabelFilter).Some? then old(mergeRequestLabelFilter)
        else Some(MergeRequestLabelFilter(mergeRequestLabelFilterConfig))
    {
      if branchFilter.None? {
        InitializeBranchFilter();
      }
      if mergeRequestLabelFilter.None? {
        InitializeMergeRequestLabelFilter();
      }
    }

    // --- onPost ----------------------------------------------------------------

    /** onPost(PushHook): both filters and, when the push handler is null, all
        four handlers are built first; then the push handler is called. */
    method OnPostPush(hook: GiteeHook) returns (call: GiteeCall<PushHandler>)
      requires Valid()
      modifies this`branchFilterType, this`branchFilter, this`mergeRequestLabelFilter,
               this`mergeRequestHookTriggerHandler, this`noteHookTriggerHandler,
               this`pushHookTriggerHandler, this`pipelineTriggerHandler
      ensures Valid() && pushHookTriggerHandler.Some?
      ensures branchFilter.Some? && mergeRequestLabelFilter.Some?
      ensures old(branchFilter).Some? ==> branchFilter == old(branchFilter) && branchFilterType == old(branchFilterType)
      ensures old(branchFilter).None? ==>
        branchFilterType == Some(old(branchFilterType).GetOr(All)) && branchFilter == Some(BranchFilterFor(branchFilterType.value))
      ensures mergeRequestLabelFilter ==
        if old(mergeRequestLabelFilter).Some? then old(mergeRequestLabelFilter)
        else Some(MergeRequestLabelFilter(mergeRequestLabelFilterConfig))
      ensures old(pushHookTriggerHandler).None? ==> HandlersMatchConfig()
      ensures old(pushHookTriggerHandler).Some? ==>
        unchanged(this`mergeRequestHookTriggerHandler, this`noteHookTriggerHandler, this`pushHookTriggerHandler, this`pipelineTriggerHandler)
      ensures call == HandleCall(pushHookTriggerHandler.value, hook, ciSkip, branchFilter, mergeRequestLabelFilter)
    {
      EnsureFilters();
      if pushHookTriggerHandler.None? {
        InitializeTriggerHandler();
      }
      call := HandleCall(pushHookTriggerHandler.value, hook, ciSkip, branchFilter, mergeRequestLabelFilter);
    }

    /** onPost(MergeRequestHook): as for a push, with the merge-request handler. */
    method OnPostMergeRequest(hook: GiteeHook) returns (call: GiteeCall<MergeRequestHandler>)
      requires Valid()
      modifies this`branchFilterType, this`branchFilter, this`mergeRequestLabelFilter,
               this`mergeRequestHookTriggerHandler, this`noteHookTriggerHandler,
               this`pushHookTriggerHandler, this`pipelineTriggerHandler
      ensures Valid() && mergeRequestHookTriggerHandler.Some?
      ensures branchFilter.Some? && mergeRequestLabelFilter.Some?
      ensures old(branchFilter).Some? ==> branchFilter == old(branchFilter) && branchFilterType == old(branchFilterType)
      ensures old(branchFilter).None? ==>
        branchFilterType == Some(old(branchFilterType).GetOr(All)) && branchFilter == Some(BranchFilterFor(branchFilterType.value))
      ensures mergeRequestLabelFilter ==
        if old(mergeRequestLabelFilter).Some? then old(mergeRequestLabelFilter)
        else Some(MergeRequestLabelFilter(mergeRequestLabelFilterConfig))
      ensures old(mergeRequestHookTriggerHandler).None? ==> HandlersMatchConfig()
      ensures old(mergeRequestHookTriggerHandler).Some? ==>
        unchanged(this`mergeRequestHookTriggerHandler, this`noteHookTriggerHandler, this`pushHookTriggerHandler, this`pipelineTriggerHandler)
      ensures call == HandleCall(mergeRequestHookTriggerHandler.value, hook, ciSkip, branchFilter, mergeRequestLabelFilter)
    {
      EnsureFilters();
      if mergeRequestHookTriggerHandler.None? {
        InitializeTriggerHandler();
      }
      call := HandleCall(mergeRequestHookTriggerHandler.value, hook, ciSkip, branchFilter, mergeRequestLabelFilter);
    }

    /** onPost(NoteHook): as for a push, with the note handler. */
    method OnPostNote(hook: GiteeHook) returns (call: GiteeCall<NoteHandler>)
      requires Valid()
      modifies this`branchFilterType, this`branchFilter, this`mergeRequestLabelFilter,
               this`mergeRequestHookTriggerHandler, this`noteHookTriggerHandler,
               this`pushHookTriggerHandler, this`pipelineTriggerHandler
      ensures Valid() && noteHookTriggerHandler.Some?
      ensures branchFilter.Some? && mergeRequestLabelFilter.Some?
      ensures old(branchFilter).Some? ==> branchFilter == old(branchFilter) && branchFilterType == old(branchFilterType)
      ensures old(branchFilter).None? ==>
        branchFilterType == Some(old(branchFilterType).GetOr(All)) && branchFilter == Some(BranchFilterFor(branchFilterType.value))
      ensures mergeRequestLabelFilter ==
        if old(mergeRequestLabelFilter).Some? then old(mergeRequestLabelFilter)
        else Some(MergeRequestLabelFilter(mergeRequestLabelFilterConfig))
      ensures old(noteHookTriggerHandler).None? ==> HandlersMatchConfig()
      ensures old(noteHookTriggerHandler).Some? ==>
        unchanged(this`mergeRequestHookTriggerHandler, this`noteHookTriggerHandler, this`pushHookTriggerHandler, this`pipelineTriggerHandler)
      ensures call == HandleCall(noteHookTriggerHandler.value, hook, ciSkip, branchFilter, mergeRequestLabelFilter)
    {
      EnsureFilters();
      if noteHookTriggerHandler.None? {
        InitializeTriggerHandler();
      }
      call := HandleCall(noteHookTriggerHandler.value, hook, ciSkip, branchFilter, mergeRequestLabelFilter);
    }

    /** onPost(PipelineHook): only the handlers are built; the filters are
        handed on as they are, possibly null. */
    method OnPostPipeline(hook: GiteeHook) returns (call: GiteeCall<PipelineHandler>)
      requires Valid()
      modifies this`mergeRequestHookTriggerHandler, this`noteHookTriggerHandler,
               this`pushHookTriggerHandler, this`pipelineTriggerHandler
      ensures Valid() && pipelineTriggerHandler.Some?
      ensures old(pipelineTriggerHandler).None? ==> HandlersMatchConfig()
      ensures old(pipelineTriggerHandler).Some? ==>
        unchanged(this`mergeRequestHookTriggerHandler, this`noteHookTriggerHandler, this`pushHookTriggerHandler, this`pipelineTriggerHandler)
      ensures call == HandleCall(pipelineTriggerHandler.value, hook, ciSkip, branchFilter, mergeRequestLabelFilter)
    {
      if pipelineTriggerHandler.None? {
        InitializeTriggerHandler();
      }
      call := HandleCall(pipelineTriggerHandler.value, hook, ciSkip, branchFilter, mergeRequestLabelFilter);
    }

    /** readResolve: the handlers, the branch filter and the label filter are
        all rebuilt from the configuration as it now stands. */
    method ReadResolve()
      modifies this`branchFilterType, this`branchFilter, this`mergeRequestLabelFilter,
               this`mergeRequestHookTriggerHandler, this`noteHookTriggerHandler,
               this`pushHookTriggerHandler, this`pipelineTriggerHandler
      ensures Valid() && HandlersMatchConfig()
      ensures branchFilterType == Some(old(branchFilterType).GetOr(All))
      ensures branchFilter == Some(BranchFilterFor(branchFilterType.value))
      ensures mergeRequestLabelFilter == Some(MergeRequestLabelFilter(mergeRequestLabelFilterConfig))
    {
      InitializeTriggerHandler();
      InitializeBranchFilter();
      InitializeMergeRequestLabelFilter();
    }
  }

  /** getFromJob: the last GiteePushTrigger among the triggers of a
      parameterized job, in the order the job lists them; null otherwise. */
  method GetFromJob(isParameterizedJob: bool, triggers: seq<TriggerSlot<GiteePushTrigger>>)
    returns (trigger: Option<GiteePushTrigger>)
    ensures trigger == if isParameterizedJob then LastInstance(triggers) else None
  {
    trigger := None;
    if isParameterizedJob {
      var i := 0;
      while i < |triggers|
        invariant 0 <= i <= |triggers|
        invariant trigger == LastInstance(triggers[..i])
      {
        LastInstanceSnoc(triggers[..i], triggers[i]);
        assert triggers[..i + 1] == triggers[..i] + [triggers[i]];
        if triggers[i].Instance? {
          trigger := Some(triggers[i].trigger);
        }
        i := i + 1;
      }
      assert triggers[..i] == triggers;
    }
  }

  /** A lazily built branch filter does not follow later configuration changes:
      after onPost, a setter leaves the filter as it was until readResolve. */
  method StaleFilterAfterSetter(t: GiteePushTrigger, hook: GiteeHook, regex: Option<string>)
    returns (before: GiteeBranchFilter, after: GiteeBranchFilter)
    requires t.Valid()
    modifies t
    ensures before == after
  {
    var call := t.OnPostPush(hook);
    before := call.branchFilter.value;
    t.SetTargetBranchRegex(regex);
    var again := t.OnPostPush(hook);
    after := again.branchFilter.value;
  }
}
