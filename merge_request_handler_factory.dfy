/** The Gitee merge-request handler factory: five trigger flags become either a
    no-op handler or a handler configured with allowed states and actions. */
module MergeRequestHandlerFactory {
  import opened SeqUtil

  /** The merge-request State constants the factory uses (Java: opened, open, reopened, updated, merged, closed). */
  datatype State = Opened | Open | Reopened | Updated | Merged | Closed

  /** The merge-request Action constants the factory uses (Java: open, update, merge, close). */
  datatype Action = Open | Update | Merge | Close

  /** The handler the factory returns. MergeRequestHookTriggerHandlerImpl is a tag
      carrying its constructor arguments; its handling is not part of this model. */
  datatype MergeRequestHookTriggerHandler =
    | NopMergeRequestHookTriggerHandler
    | MergeRequestHookTriggerHandlerImpl(
        allowedStates: seq<State>,
        allowedActions: seq<Action>,
        skipWorkInProgressMergeRequest: bool,
        cancelPendingBuildsOnUpdate: bool)

  /** The actions in the order the factory considers them. */
  const ActionOrder: seq<Action> := [Action.Open, Action.Update, Action.Merge, Action.Close]

  /** The states in the order the factory adds them. */
  const StateOrder: seq<State> := [State.Opened, State.Open, State.Reopened, State.Updated, State.Merged, State.Closed]

  /** The allowed actions: each action of ActionOrder whose flag is set. */
  function AllowedActionsFor(onOpen: bool, onUpdate: bool, onAccepted: bool, onClosed: bool): seq<Action> {
    Selected(ActionOrder, [onOpen, onUpdate, onAccepted, onClosed])
  }

  /** The allowed states: the four open-like states when open or update is set,
      merged for accepted, closed for closed. */
  function AllowedStatesFor(onOpen: bool, onUpdate: bool, onAccepted: bool, onClosed: bool): seq<State> {
    var openLike := onOpen || onUpdate;
    Selected(StateOrder, [openLike, openLike, openLike, openLike, onAccepted, onClosed])
  }

  /** retrieveAllowedActions: appends one action per set flag. */
  method RetrieveAllowedActions(onOpen: bool, onUpdate: bool, onAccepted: bool, onClosed: bool)
    returns (allowedActions: seq<Action>)
    ensures allowedActions == AllowedActionsFor(onOpen, onUpdate, onAccepted, onClosed)
  {
    allowedActions := [];
    if onOpen {
      allowedActions := allowedActions + [Action.Open];
    }
    if onUpdate {
      allowedActions := allowedActions + [Action.Update];
    }
    if onAccepted {
      allowedActions := allowedActions + [Action.Merge];
    }
    if onClosed {
      allowedActions := allowedActions + [Action.Close];
    }
    ActionsClosedForm(onOpen, onUpdate, onAccepted, onClosed);
  }

  /** retrieveAllowedStates: the open-like group, then merged, then closed. */
  method RetrieveAllowedStates(onOpen: bool, onUpdate: bool, onAccepted: bool, onClosed: bool)
    returns (result: seq<State>)
    ensures result == AllowedStatesFor(onOpen, onUpdate, onAccepted, onClosed)
  {
    result := [];
    if onOpen || onUpdate {
      result := result + [State.Opened];
      result := result + [State.Open];
      result := result + [State.Reopened];
      result := result + [State.Updated];
    }
    if onAccepted {
      result := result + [State.Merged];
    }
    if onClosed {
      result := result + [State.Closed];
    }
    StatesClosedForm(onOpen, onUpdate, onAccepted, onClosed);
  }

  /** newMergeRequestHookTriggerHandler. */
  method NewMergeRequestHookTriggerHandler(
    onOpen: bool, onUpdate: bool, onAccepted: bool, onClosed: bool,
    skipWorkInProgressMergeRequest: bool, onApproved: bool, cancelPendingBuildsOnUpdate: bool)
    returns (handler: MergeRequestHookTriggerHandler)
    ensures handler.NopMergeRequestHookTriggerHandler? <==> !(onOpen || onUpdate || onAccepted || onClosed || onApproved)
    ensures handler.MergeRequestHookTriggerHandlerImpl? ==>
      && handler.allowedStates == AllowedStatesFor(onOpen, onUpdate, onAccepted, onClosed)
      && handler.allowedActions == AllowedActionsFor(onOpen, onUpdate, onAccepted, onClosed)
      && handler.skipWorkInProgressMergeRequest == skipWorkInProgressMergeRequest
      && handler.cancelPendingBuildsOnUpdate == cancelPendingBuildsOnUpdate
  {
    if onOpen || onUpdate || onAccepted || onClosed || onApproved {
      var states := RetrieveAllowedStates(onOpen, onUpdate, onAccepted, onClosed);
      var actions := RetrieveAllowedActions(onOpen, onUpdate, onAccepted, onClosed);
      handler := MergeRequestHookTriggerHandlerImpl(states, actions, skipWorkInProgressMergeRequest, cancelPendingBuildsOnUpdate);
    } else {
      handler := NopMergeRequestHookTriggerHandler;
    }
  }

  /** The allowed actions, written out: open, update, merge, close, each present
      iff its flag is set, in that order. */
  lemma ActionsClosedForm(onOpen: bool, onUpdate: bool, onAccepted: bool, onClosed: bool)
    ensures AllowedActionsFor(onOpen, onUpdate, onAccepted, onClosed)
         == (if onOpen then [Action.Open] else []) + (if onUpdate then [Action.Update] else [])
          + (if onAccepted then [Action.Merge] else []) + (if onClosed then [Action.Close] else [])
  {
    assert ActionOrder == [Action.Open] + [Action.Update] + [Action.Merge] + [Action.Close];
    assert [onOpen, onUpdate, onAccepted, onClosed] == [onOpen] + [onUpdate] + [onAccepted] + [onClosed];
    SelectedAppend([Action.Open] + [Action.Update] + [Action.Merge], [Action.Close], [onOpen] + [onUpdate] + [onAccepted], [onClosed]);
    SelectedAppend([Action.Open] + [Action.Update], [Action.Merge], [onOpen] + [onUpdate], [onAccepted]);
    SelectedAppend([Action.Open], [Action.Update], [onOpen], [onUpdate]);
    SelectedSingleton(Action.Open, onOpen);
    SelectedSingleton(Action.Update, onUpdate);
    SelectedSingleton(Action.Merge, onAccepted);
    SelectedSingleton(Action.Close, onClosed);
  }

  /** The allowed states, written out: opened, open, reopened, updated when open
      or update is set, then merged for accepted, then closed for closed. */
  lemma StatesClosedForm(onOpen: bool, onUpdate: bool, onAccepted: bool, onClosed: bool)
    ensures AllowedStatesFor(onOpen, onUpdate, onAccepted, onClosed)
         == (if onOpen || onUpdate then [State.Opened, State.Open, State.Reopened, State.Updated] else [])
          + (if onAccepted then [State.Merged] else []) + (if onClosed then [State.Closed] else [])
  {
    var o := onOpen || onUpdate;
    var group := [State.Opened, State.Open, State.Reopened, State.Updated];
    assert StateOrder == group + [State.Merged] + [State.Closed];
    assert [o, o, o, o, onAccepted, onClosed] == [o, o, o, o] + [onAccepted] + [onClosed];
    SelectedAppend(group + [State.Merged], [State.Closed], [o, o, o, o] + [onAccepted], [onClosed]);
    SelectedAppend(group, [State.Merged], [o, o, o, o], [onAccepted]);
    assert group == [State.Opened] + [State.Open] + [State.Reopened] + [State.Updated];
    assert [o, o, o, o] == [o] + [o] + [o] + [o];
    SelectedAppend([State.Opened] + [State.Open] + [State.Reopened], [State.Updated], [o] + [o] + [o], [o]);
    SelectedAppend([State.Opened] + [State.Open], [State.Reopened], [o] + [o], [o]);
    SelectedAppend([State.Opened], [State.Open], [o], [o]);
    SelectedSingleton(State.Opened, o);
    SelectedSingleton(State.Open, o);
    SelectedSingleton(State.Reopened, o);
    SelectedSingleton(State.Updated, o);
    SelectedSingleton(State.Merged, onAccepted);
    SelectedSingleton(State.Closed, onClosed);
  }

  /** The open-like states appear iff open or update is set; merged iff
      accepted; closed iff closed. */
  lemma AllowedStatesMembership(onOpen: bool, onUpdate: bool, onAccepted: bool, onClosed: bool)
    ensures var s := AllowedStatesFor(onOpen, onUpdate, onAccepted, onClosed);
      && (State.Opened in s <==> onOpen || onUpdate)
      && (State.Open in s <==> onOpen || onUpdate)
      && (State.Reopened in s <==> onOpen || onUpdate)
      && (State.Updated in s <==> onOpen || onUpdate)
      && (State.Merged in s <==> onAccepted)
      && (State.Closed in s <==> onClosed)
  {
    StatesClosedForm(onOpen, onUpdate, onAccepted, onClosed);
  }

  /** Each action is allowed iff its own flag is set. */
  lemma AllowedActionsMembership(onOpen: bool, onUpdate: bool, onAccepted: bool, onClosed: bool)
    ensures var a := AllowedActionsFor(onOpen, onUpdate, onAccepted, onClosed);
      && (Action.Open in a <==> onOpen)
      && (Action.Update in a <==> onUpdate)
      && (Action.Merge in a <==> onAccepted)
      && (Action.Close in a <==> onClosed)
  {
    ActionsClosedForm(onOpen, onUpdate, onAccepted, onClosed);
  }

  /** Neither list holds a duplicate. */
  lemma AllowedListsDistinct(onOpen: bool, onUpdate: bool, onAccepted: bool, onClosed: bool)
    ensures Distinct(AllowedActionsFor(onOpen, onUpdate, onAccepted, onClosed))
    ensures Distinct(AllowedStatesFor(onOpen, onUpdate, onAccepted, onClosed))
  {
    var o := onOpen || onUpdate;
    SelectedDistinct(ActionOrder, [onOpen, onUpdate, onAccepted, onClosed]);
    SelectedDistinct(StateOrder, [o, o, o, o, onAccepted, onClosed]);
  }

  /** One action per set flag among the four; four open-like states plus one
      each for accepted and closed. */
  lemma AllowedListsLength(onOpen: bool, onUpdate: bool, onAccepted: bool, onClosed: bool)
    ensures |AllowedActionsFor(onOpen, onUpdate, onAccepted, onClosed)|
         == (if onOpen then 1 else 0) + (if onUpdate then 1 else 0) + (if onAccepted then 1 else 0) + (if onClosed then 1 else 0)
    ensures |AllowedStatesFor(onOpen, onUpdate, onAccepted, onClosed)|
         == 4 * (if onOpen || onUpdate then 1 else 0) + (if onAccepted then 1 else 0) + (if onClosed then 1 else 0)
  {
    ActionsClosedForm(onOpen, onUpdate, onAccepted, onClosed);
    StatesClosedForm(onOpen, onUpdate, onAccepted, onClosed);
  }

  /** The approved flag alone selects the real handler, yet it contributes no
      state and no action. */
  method ApprovedOnlyHandler(skipWorkInProgressMergeRequest: bool, cancelPendingBuildsOnUpdate: bool)
    returns (handler: MergeRequestHookTriggerHandler)
    ensures handler == MergeRequestHookTriggerHandlerImpl([], [], skipWorkInProgressMergeRequest, cancelPendingBuildsOnUpdate)
  {
    handler := NewMergeRequestHookTriggerHandler(false, false, false, false, skipWorkInProgressMergeRequest, true, cancelPendingBuildsOnUpdate);
    ActionsClosedForm(false, false, false, false);
    StatesClosedForm(false, false, false, false);
  }
}
