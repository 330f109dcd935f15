/** The push handler factory: the push flag and the open-merge-request-on-push
    mode become a no-op handler or an ordered list of push handlers. */
module PushHandlerFactory {
  import opened Wrappers
  import opened SeqUtil

  /** The TriggerOpenMergeRequest enum (Java: never, source, both). */
  datatype TriggerOpenMergeRequest = Never | Source | Both

  /** One element of a handler list. Both are tags for classes whose handling
      is not part of this model; the second carries its constructor argument. */
  datatype PushHandler =
    | PushHookTriggerHandlerImpl
    | OpenMergeRequestPushHookTriggerHandler(skipWorkInProgressMergeRequest: bool)

  /** What the factory returns. */
  datatype PushHookTriggerHandler =
    | NopPushHookTriggerHandler
    | PushHookTriggerHandlerList(handlers: seq<PushHandler>)

  /** The mode compared with ==, so null (None) is simply not both. */
  predicate IsBoth(mode: Option<TriggerOpenMergeRequest>) {
    mode == Some(Both)
  }

  /** The specification of retrieveHandlers: the plain push handler if push
      triggering is on, then the open-merge-request handler if the mode is both. */
  function HandlersFor(triggerOnPush: bool, mode: Option<TriggerOpenMergeRequest>, skipWorkInProgressMergeRequest: bool): seq<PushHandler> {
    Selected([PushHookTriggerHandlerImpl, OpenMergeRequestPushHookTriggerHandler(skipWorkInProgressMergeRequest)],
             [triggerOnPush, IsBoth(mode)])
  }

  /** retrieveHandlers: successive adds to an empty list. */
  method RetrieveHandlers(triggerOnPush: bool, mode: Option<TriggerOpenMergeRequest>, skipWorkInProgressMergeRequest: bool)
    returns (result: seq<PushHandler>)
    ensures result == HandlersFor(triggerOnPush, mode, skipWorkInProgressMergeRequest)
  {
    result := [];
    if triggerOnPush {
      result := result + [PushHookTriggerHandlerImpl];
    }
    if mode == Some(Both) {
      result := result + [OpenMergeRequestPushHookTriggerHandler(skipWorkInProgressMergeRequest)];
    }
    HandlersClosedForm(triggerOnPush, mode, skipWorkInProgressMergeRequest);
  }

  /** The specification of newPushHookTriggerHandler: a list when push
      triggering is on or the mode is both, the no-op handler otherwise. */
  function HandlerFor(triggerOnPush: bool, mode: Option<TriggerOpenMergeRequest>, skipWorkInProgressMergeRequest: bool): PushHookTriggerHandler {
    if triggerOnPush || IsBoth(mode) then PushHookTriggerHandlerList(HandlersFor(triggerOnPush, mode, skipWorkInProgressMergeRequest))
    else NopPushHookTriggerHandler
  }

  /** newPushHookTriggerHandler. */
  method NewPushHookTriggerHandler(triggerOnPush: bool, mode: Option<TriggerOpenMergeRequest>, skipWorkInProgressMergeRequest: bool)
    returns (handler: PushHookTriggerHandler)
    ensures handler.NopPushHookTriggerHandler? <==> !triggerOnPush && !IsBoth(mode)
    ensures handler.PushHookTriggerHandlerList? ==>
      handler.handlers == HandlersFor(triggerOnPush, mode, skipWorkInProgressMergeRequest)
    ensures handler == HandlerFor(triggerOnPush, mode, skipWorkInProgressMergeRequest)
  {
    if triggerOnPush || mode == Some(Both) {
      var handlers := RetrieveHandlers(triggerOnPush, mode, skipWorkInProgressMergeRequest);
      handler := PushHookTriggerHandlerList(handlers);
    } else {
      handler := NopPushHookTriggerHandler;
    }
  }

  /** The handler list written out. */
  lemma HandlersClosedForm(triggerOnPush: bool, mode: Option<TriggerOpenMergeRequest>, skipWorkInProgressMergeRequest: bool)
    ensures HandlersFor(triggerOnPush, mode, skipWorkInProgressMergeRequest)
         == (if triggerOnPush then [PushHookTriggerHandlerImpl] else [])
          + (if IsBoth(mode) then [OpenMergeRequestPushHookTriggerHandler(skipWorkInProgressMergeRequest)] else [])
  {
    var p := PushHookTriggerHandlerImpl;
    var m := OpenMergeRequestPushHookTriggerHandler(skipWorkInProgressMergeRequest);
    assert [p, m] == [p] + [m];
    assert [triggerOnPush, IsBoth(mode)] == [triggerOnPush] + [IsBoth(mode)];
    SelectedAppend([p], [m], [triggerOnPush], [IsBoth(mode)]);
    SelectedSingleton(p, triggerOnPush);
    SelectedSingleton(m, IsBoth(mode));
  }

  /** Whenever the factory would build a list, the list is non-empty; the plain
      push handler comes first when push triggering is on; mode both puts the
      open-merge-request handler, with the given skip flag, last. */
  lemma HandlerListShape(triggerOnPush: bool, mode: Option<TriggerOpenMergeRequest>, skipWorkInProgressMergeRequest: bool)
    ensures var hs := HandlersFor(triggerOnPush, mode, skipWorkInProgressMergeRequest);
      && (triggerOnPush || IsBoth(mode) ==> hs != [])
      && (triggerOnPush ==> hs != [] && hs[0] == PushHookTriggerHandlerImpl)
      && (IsBoth(mode) ==> hs != [] && hs[|hs| - 1] == OpenMergeRequestPushHookTriggerHandler(skipWorkInProgressMergeRequest))
  {
    HandlersClosedForm(triggerOnPush, mode, skipWorkInProgressMergeRequest);
  }

  /** The list has at most two handlers, and two exactly when push triggering is
      on and the mode is both. */
  lemma HandlerListLength(triggerOnPush: bool, mode: Option<TriggerOpenMergeRequest>, skipWorkInProgressMergeRequest: bool)
    ensures |HandlersFor(triggerOnPush, mode, skipWorkInProgressMergeRequest)| <= 2
    ensures |HandlersFor(triggerOnPush, mode, skipWorkInProgressMergeRequest)| == 2 <==> triggerOnPush && IsBoth(mode)
  {
    HandlersClosedForm(triggerOnPush, mode, skipWorkInProgressMergeRequest);
  }

  /** Modes never and source, and a null mode, build the same handlers: only
      both adds the open-merge-request handler. */
  lemma NeverSourceAndNullAgree(triggerOnPush: bool, skipWorkInProgressMergeRequest: bool)
    ensures HandlersFor(triggerOnPush, Some(Never), skipWorkInProgressMergeRequest)
         == HandlersFor(triggerOnPush, Some(Source), skipWorkInProgressMergeRequest)
         == HandlersFor(triggerOnPush, None, skipWorkInProgressMergeRequest)
    ensures forall h :: h in HandlersFor(triggerOnPush, Some(Source), skipWorkInProgressMergeRequest) ==> h == PushHookTriggerHandlerImpl
  {
    HandlersClosedForm(triggerOnPush, Some(Never), skipWorkInProgressMergeRequest);
    HandlersClosedForm(triggerOnPush, Some(Source), skipWorkInProgressMergeRequest);
    HandlersClosedForm(triggerOnPush, None, skipWorkInProgressMergeRequest);
  }
}
