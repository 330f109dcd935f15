/** The three handlers the factories return when nothing is to be triggered. */
module NopHandlers {
  import opened Wrappers
  import opened Jenkins
  import opened HookModel
  import opened BranchFilters

  /** NopMergeRequestHookTriggerHandler: handle does nothing. */
  class NopMergeRequestHookTriggerHandler {
    constructor () {}

    /** Schedules no build and changes neither the job nor the hook, whatever
        ciSkip and the (possibly null) branch filter are; it always returns. */
    method Handle(job: Job, hook: MergeRequestHook, ciSkip: bool, branchFilter: Option<BranchFilter>)
      ensures job.scheduledBuilds == old(job.scheduledBuilds)
      ensures hook.Value() == old(hook.Value())
    {
    }
  }

  /** NopNoteHookTriggerHandler: handle does nothing. */
  class NopNoteHookTriggerHandler {
    constructor () {}

    /** Schedules no build and changes neither the job nor the note hook. */
    method Handle(job: Job, hook: NoteHook, ciSkip: bool, branchFilter: Option<BranchFilter>)
      ensures job.scheduledBuilds == old(job.scheduledBuilds)
      ensures hook.Value() == old(hook.Value())
    {
    }
  }

  /** NopPushHookTriggerHandler: handle does nothing. */
  class NopPushHookTriggerHandler {
    constructor () {}

    /** Schedules no build and changes neither the job nor the push hook. */
    method Handle(job: Job, hook: PushHook, ciSkip: bool, branchFilter: Option<BranchFilter>)
      ensures job.scheduledBuilds == old(job.scheduledBuilds)
      ensures hook.project == old(hook.project) && hook.repository == old(hook.repository)
    {
    }
  }
}
