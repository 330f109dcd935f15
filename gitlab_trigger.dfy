/** GitLabPushTrigger: a trigger configured once by its constructor, its
    handlers and filters built from that configuration, the readResolve
    migration of the branch filter type, the lookup of a job's trigger, and
    the option list of the open-merge-request-on-push setting. */
module GitLabTrigger {
  import opened Wrappers
  import opened JavaStrings
  import opened BranchFilters
  import opened PushHandlerFactory
  import opened HookModel
  import opened Jenkins

  // The factories named here, other than the push handler factory and the
  // branch filter factory, are not part of this model: what they build is a
  // tag carrying the arguments the trigger passes.

  /** newMergeRequestHookTriggerHandler(triggerOnMergeRequest, triggerOpenMergeRequestOnPush, skipWorkInProgressMergeRequest). */
  datatype MergeRequestHandler = MergeRequestHandler(
    triggerOnMergeRequest: bool,
    triggerOpenMergeRequestOnPush: Option<TriggerOpenMergeRequest>,
    skipWorkInProgressMergeRequest: bool)

  /** newNoteHookTriggerHandler(triggerOnNoteRequest, noteRegex), given the field itself. */
  datatype NoteHandler = NoteHandler(triggerOnNoteRequest: bool, noteRegex: Option<string>)

  /** The label filter configuration, an opaque value. */
  datatype MergeRequestLabelFilterConfig = MergeRequestLabelFilterConfig(payload: string)

  /** MergeRequestLabelFilterFactory's filter, built from the (possibly null) config. */
  datatype MergeRequestLabelFilter = MergeRequestLabelFilter(config: Option<MergeRequestLabelFilterConfig>)

  /** What an onPost hands to a handler. */
  type GitLabCall<H, K> = HandleCall<H, K, BranchFilter, MergeRequestLabelFilter>

  class GitLabPushTrigger {
    var triggerOnPush: bool
    var triggerOnMergeRequest: bool
    const triggerOpenMergeRequestOnPush: Option<TriggerOpenMergeRequest>
    var triggerOnNoteRequest: bool
    const noteRegex: Option<string>
    var ciSkip: bool
    var skipWorkInProgressMergeRequest: bool
    var setBuildDescription: bool
    var addNoteOnMergeRequest: bool
    var addCiMessage: bool
    var addVoteOnMergeRequest: bool
    var branchFilterName: Option<string>
    var branchFilterType: Option<BranchFilterType>
    var includeBranchesSpec: Option<string>
    var excludeBranchesSpec: Option<string>
    var targetBranchRegex: Option<string>
    const mergeRequestLabelFilterConfig: Option<MergeRequestLabelFilterConfig>
    /** The plain text of the stored Secret; None while no secret is stored. */
    var secretToken: Option<string>
    var acceptMergeRequestOnSuccess: bool

    // The transient fields; the constructor and readResolve build them.
    var branchFilter: BranchFilter
    var pushHookTriggerHandler: PushHookTriggerHandler
    var mergeRequestHookTriggerHandler: MergeRequestHandler
    var noteHookTriggerHandler: NoteHandler
    var mergeRequestLabelFilter: MergeRequestLabelFilter

    /** The handlers and filters are those the factories build from the
        configuration, and the branch filter type is set. */
    predicate Valid()
      reads this
    {
      && branchFilterType.Some?
      && pushHookTriggerHandler == HandlerFor(triggerOnPush, triggerOpenMergeRequestOnPush, skipWorkInProgressMergeRequest)
      && mergeRequestHookTriggerHandler == MergeRequestHandler(triggerOnMergeRequest, triggerOpenMergeRequestOnPush, skipWorkInProgressMergeRequest)
      && noteHookTriggerHandler == NoteHandler(triggerOnNoteRequest, noteRegex)
      && branchFilter == NewBranchFilter(BranchFilterConfig(branchFilterType, includeBranchesSpec, excludeBranchesSpec, targetBranchRegex))
      && mergeRequestLabelFilter == MergeRequestLabelFilter(mergeRequestLabelFilterConfig)
    }

    /** The data-bound constructor: every argument is stored in its field (the
        secret through Secret.fromString, which turns null into ""), then the
        handlers, the branch filter and the label filter are built. The branch
        filter factory switches on the type, which must therefore be set. */
    constructor (
      triggerOnPush: bool, triggerOnMergeRequest: bool, triggerOpenMergeRequestOnPush: Option<TriggerOpenMergeRequest>,
      triggerOnNoteRequest: bool, noteRegex: Option<string>, skipWorkInProgressMergeRequest: bool, ciSkip: bool,
      setBuildDescription: bool, addNoteOnMergeRequest: bool, addCiMessage: bool, addVoteOnMergeRequest: bool,
      acceptMergeRequestOnSuccess: bool, branchFilterType: Option<BranchFilterType>,
      includeBranchesSpec: Option<string>, excludeBranchesSpec: Option<string>, targetBranchRegex: Option<string>,
      mergeRequestLabelFilterConfig: Option<MergeRequestLabelFilterConfig>, secretToken: Option<string>)
      requires branchFilterType.Some?
      ensures this.triggerOnPush == triggerOnPush && this.triggerOnMergeRequest == triggerOnMergeRequest
      ensures this.triggerOpenMergeRequestOnPush == triggerOpenMergeRequestOnPush
      ensures this.triggerOnNoteRequest == triggerOnNoteRequest && this.noteRegex == noteRegex
      ensures this.skipWorkInProgressMergeRequest == skipWorkInProgressMergeRequest && this.ciSkip == ciSkip
      ensures this.setBuildDescription == setBuildDescription && this.addNoteOnMergeRequest == addNoteOnMergeRequest
      ensures this.addCiMessage == addCiMessage && this.addVoteOnMergeRequest == addVoteOnMergeRequest
      ensures this.acceptMergeRequestOnSuccess == acceptMergeRequestOnSuccess && this.branchFilterType == branchFilterType
      ensures this.includeBranchesSpec == includeBranchesSpec && this.excludeBranchesSpec == excludeBranchesSpec
      ensures this.targetBranchRegex == targetBranchRegex && this.mergeRequestLabelFilterConfig == mergeRequestLabelFilterConfig
      ensures this.secretToken == Some(secretToken.GetOr("")) && this.branchFilterName.None?
      ensures Valid()
    {
      this.triggerOnPush := triggerOnPush;
      this.triggerOnMergeRequest := triggerOnMergeRequest;
      this.triggerOnNoteRequest := triggerOnNoteRequest;
      this.noteRegex := noteRegex;
      this.triggerOpenMergeRequestOnPush := triggerOpenMergeRequestOnPush;
      this.ciSkip := ciSkip;
      this.skipWorkInProgressMergeRequest := skipWorkInProgressMergeRequest;
      this.setBuildDescription := setBuildDescription;
      this.addNoteOnMergeRequest := addNoteOnMergeRequest;
      this.addCiMessage := addCiMessage;
      this.addVoteOnMergeRequest := addVoteOnMergeRequest;
      this.branchFilterName := None;
      this.branchFilterType := branchFilterType;
      this.includeBranchesSpec := includeBranchesSpec;
      this.excludeBranchesSpec := excludeBranchesSpec;
      this.targetBranchRegex := targetBranchRegex;
      this.acceptMergeRequestOnSuccess := acceptMergeRequestOnSuccess;
      this.mergeRequestLabelFilterConfig := mergeRequestLabelFilterConfig;
      this.secretToken := Some(secretToken.GetOr(""));
      new;
      InitializeTriggerHandler();
      InitializeBranchFilter();
      InitializeMergeRequestLabelFilter();
    }

    /** getNoteRegex never returns null: it is empty exactly when no regex, or
        the empty regex, is stored, and otherwise the stored regex. */
    function GetNoteRegex(): (r: string)
      ensures r == "" <==> noteRegex == None || noteRegex == Some("")
      ensures noteRegex.Some? ==> r == noteRegex.value
    {
      noteRegex.GetOr("")
    }

    /** getSecretToken is null exactly when no secret is stored. */
    function GetSecretToken(): (r: Option<string>)
      reads this
      ensures r.None? <==> secretToken.None?
      ensures r.Some? ==> r == secretToken
    {
      secretToken
    }

    /** initializeTriggerHandler: the merge-request, note and push handlers. */
    method InitializeTriggerHandler()
      modifies this`mergeRequestHookTriggerHandler, this`noteHookTriggerHandler, this`pushHookTriggerHandler
      ensures pushHookTriggerHandler == HandlerFor(triggerOnPush, triggerOpenMergeRequestOnPush, skipWorkInProgressMergeRequest)
      ensures mergeRequestHookTriggerHandler == MergeRequestHandler(triggerOnMergeRequest, triggerOpenMergeRequestOnPush, skipWorkInProgressMergeRequest)
      ensures noteHookTriggerHandler == NoteHandler(triggerOnNoteRequest, noteRegex)
    {
      mergeRequestHookTriggerHandler := MergeRequestHandler(triggerOnMergeRequest, triggerOpenMergeRequestOnPush, skipWorkInProgressMergeRequest);
      noteHookTriggerHandler := NoteHandler(triggerOnNoteRequest, noteRegex);
      pushHookTriggerHandler := NewPushHookTriggerHandler(triggerOnPush, triggerOpenMergeRequestOnPush, skipWorkInProgressMergeRequest);
    }

    /** initializeBranchFilter: the factory applied to the specs and the type. */
    method InitializeBranchFilter()
      requires branchFilterType.Some?
      modifies this`branchFilter
      ensures branchFilter == NewBranchFilter(BranchFilterConfig(branchFilterType, includeBranchesSpec, excludeBranchesSpec, targetBranchRegex))
    {
      branchFilter := NewBranchFilter(BranchFilterConfig(branchFilterType, includeBranchesSpec, excludeBranchesSpec, targetBranchRegex));
    }

    /** initializeMergeRequestLabelFilter. */
    method InitializeMergeRequestLabelFilter()
      modifies this`mergeRequestLabelFilter
      ensures mergeRequestLabelFilter == MergeRequestLabelFilter(mergeRequestLabelFilterConfig)
    {
      mergeRequestLabelFilter := MergeRequestLabelFilter(mergeRequestLabelFilterConfig);
    }

    /** onPost(PushHook): the push handler the factory built from the
        configuration, called with the trigger's ciSkip and filters. */
    function OnPostPush(hook: PushHook): (call: GitLabCall<PushHookTriggerHandler, PushHook>)
      requires Valid()
      reads this
      ensures call.handler == HandlerFor(triggerOnPush, triggerOpenMergeRequestOnPush, skipWorkInProgressMergeRequest)
      ensures call.hook == hook && call.ciSkip == ciSkip
      ensures call.branchFilter == Some(NewBranchFilter(BranchFilterConfig(branchFilterType, includeBranchesSpec, excludeBranchesSpec, targetBranchRegex)))
      ensures call.mergeRequestLabelFilter == Some(MergeRequestLabelFilter(mergeRequestLabelFilterConfig))
    {
      HandleCall(pushHookTriggerHandler, hook, ciSkip, Some(branchFilter), Some(mergeRequestLabelFilter))
    }

    /** onPost(MergeRequestHook): likewise with the merge-request handler. */
    function OnPostMergeRequest(hook: MergeRequestHook): (call: GitLabCall<MergeRequestHandler, MergeRequestHook>)
      requires Valid()
      reads this
      ensures call.handler == MergeRequestHandler(triggerOnMergeRequest, triggerOpenMergeRequestOnPush, skipWorkInProgressMergeRequest)
      ensures call.hook == hook && call.ciSkip == ciSkip
      ensures call.branchFilter == Some(NewBranchFilter(BranchFilterConfig(branchFilterType, includeBranchesSpec, excludeBranchesSpec, targetBranchRegex)))
      ensures call.mergeRequestLabelFilter == Some(MergeRequestLabelFilter(mergeRequestLabelFilterConfig))
    {
      HandleCall(mergeRequestHookTriggerHandler, hook, ciSkip, Some(branchFilter), Some(mergeRequestLabelFilter))
    }

    /** onPost(NoteHook): likewise with the note handler. */
    function OnPostNote(hook: NoteHook): (call: GitLabCall<NoteHandler, NoteHook>)
      requires Valid()
      reads this
      ensures call.handler == NoteHandler(triggerOnNoteRequest, noteRegex)
      ensures call.hook == hook && call.ciSkip == ciSkip
      ensures call.branchFilter == Some(NewBranchFilter(BranchFilterConfig(branchFilterType, includeBranchesSpec, excludeBranchesSpec, targetBranchRegex)))
      ensures call.mergeRequestLabelFilter == Some(MergeRequestLabelFilter(mergeRequestLabelFilterConfig))
    {
      HandleCall(noteHookTriggerHandler, hook, ciSkip, Some(branchFilter), Some(mergeRequestLabelFilter))
    }

    /** readResolve: a null type is migrated from branchFilterName (the
        constant of that name, or All when the name is blank), then every
        handler and filter is rebuilt. valueOf of an unknown name throws
        IllegalArgumentException before anything is assigned. */
    method ReadResolve() returns (failure: Option<JavaException>)
      modifies this`branchFilterType, this`branchFilter, this`mergeRequestLabelFilter,
               this`mergeRequestHookTriggerHandler, this`noteHookTriggerHandler, this`pushHookTriggerHandler
      ensures failure.Some? <==> old(branchFilterType).None? && !IsBlank(branchFilterName) && ValueOf(branchFilterName.value).None?
      ensures failure.Some? ==> failure == Some(IllegalArgumentException) && unchanged(this)
      ensures failure.None? ==> Valid() && branchFilterType == MigratedType(old(branchFilterType), branchFilterName)
    {
      if branchFilterType.None? {
        if !IsBlank(branchFilterName) {
          var t := ValueOf(branchFilterName.value);
          if t.None? {
            return Some(IllegalArgumentException);
          }
          branchFilterType := t;
        } else {
          branchFilterType := Some(All);
        }
      }
      InitializeTriggerHandler();
      InitializeBranchFilter();
      InitializeMergeRequestLabelFilter();
      failure := None;
    }
  }

  /** The type readResolve settles on: a set type is kept; a null type becomes
      the constant named by a non-blank name, or All. */
  function MigratedType(filterType: Option<BranchFilterType>, branchFilterName: Option<string>): (r: Option<BranchFilterType>)
    ensures filterType.Some? ==> r == filterType
    ensures filterType.None? && IsBlank(branchFilterName) ==> r == Some(All)
    ensures filterType.None? && !IsBlank(branchFilterName) ==> r == ValueOf(branchFilterName.value)
    ensures r.Some? && filterType.None? && !IsBlank(branchFilterName) ==> TypeName(r.value) == branchFilterName.value
  {
    if filterType.Some? then filterType
    else if IsBlank(branchFilterName) then Some(All)
    else ValueOf(branchFilterName.value)
  }

  /** A name saved by an older version migrates to the type it names. */
  lemma MigrationRecoversSavedType(t: BranchFilterType)
    ensures MigratedType(None, Some(TypeName(t))) == Some(t)
  {
    assert !IsBlank(Some(TypeName(t))) by {
      assert !IsWhitespace(TypeName(t)[0]);
    }
  }

  /** getFromJob: the last GitLabPushTrigger among the triggers of a
      parameterized job, in the order the job lists them; null otherwise. */
  method GetFromJob(isParameterizedJob: bool, triggers: seq<TriggerSlot<GitLabPushTrigger>>)
    returns (trigger: Option<GitLabPushTrigger>)
    ensures trigger == if isParameterizedJob then LastInstance(triggers) else None
  {
    trigger := None;
    if isParameterizedJob {
      var i := 0;
      while i < |triggers|
        invariant 0 <= i <= |triggers|
        invariant trigger == LastInstance(triggers[..i])
      {
        LastInstanceSnoc(triggers[..i], triggers[i]);
        assert triggers[..i + 1] == triggers[..i] + [triggers[i]];
        if triggers[i].Instance? {
          trigger := Some(triggers[i].trigger);
        }
        i := i + 1;
      }
      assert triggers[..i] == triggers;
    }
  }

  /** One entry of a ListBoxModel. */
  datatype ListOption = ListOption(name: string, value: string, selected: bool)

  /** The values of TriggerOpenMergeRequest, in declaration order, as the form submits them. */
  const OptionValues: seq<string> := ["never", "source", "both"]

  /** doFillTriggerOpenMergeRequestOnPushItems: never, source and both, each
      selected when the submitted value matches it. The patterns hold no regex
      metacharacters, so matches is string equality; a null value throws. */
  function DoFillTriggerOpenMergeRequestOnPushItems(value: Option<string>): (r: Result<seq<ListOption>, JavaException>)
    ensures r.Failure? <==> value.None?
    ensures r.Failure? ==> r.error == NullPointerException
    ensures r.Success? ==> |r.value| == 3
    ensures r.Success? ==> r.value[0].name == "Never" && r.value[1].name == "On push to source branch"
                           && r.value[2].name == "On push to source or target branch"
    ensures r.Success? ==> forall i :: 0 <= i < 3 ==> r.value[i].value == OptionValues[i]
    ensures r.Success? ==> forall i :: 0 <= i < 3 ==> (r.value[i].selected <==> value.value == OptionValues[i])
  {
    if value.None? then Failure(NullPointerException)
    else
      var v := value.value;
      Success([ListOption("Never", "never", v == "never"),
               ListOption("On push to source branch", "source", v == "source"),
               ListOption("On push to source or target branch", "both", v == "both")])
  }

  /** At most one option is selected, and exactly one when the value is one of
      the three. */
  lemma AtMostOneOptionSelected(value: string)
    ensures var options := DoFillTriggerOpenMergeRequestOnPushItems(Some(value)).value;
      && (forall i, j :: 0 <= i < j < 3 && options[i].selected ==> !options[j].selected)
      && (value in OptionValues <==> exists i :: 0 <= i < 3 && options[i].selected)
  {
    var options := DoFillTriggerOpenMergeRequestOnPushItems(Some(value)).value;
    if value in OptionValues {
      var i :| 0 <= i < 3 && OptionValues[i] == value;
      assert options[i].selected;
    }
  }
}
