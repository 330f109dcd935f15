/** The part of Jenkins the triggers and handlers touch: a job's build queue
    and the triggers configured on a job. */
module Jenkins {
  import opened Wrappers

  /** A job; the only state a handler could change is its build queue. */
  class Job {
    var scheduledBuilds: seq<string>

    constructor (scheduledBuilds: seq<string>)
      ensures this.scheduledBuilds == scheduledBuilds
    {
      this.scheduledBuilds := scheduledBuilds;
    }
  }

  /** A trigger of a job as an instanceof test sees it: an instance of the
      trigger class looked for, or a trigger of some other class. */
  datatype TriggerSlot<T> = Instance(trigger: T) | OtherTrigger

  /** The last instance among the slots, or None when there is none. */
  function LastInstance<T>(slots: seq<TriggerSlot<T>>): (r: Option<T>)
    ensures r.None? <==> forall i :: 0 <= i < |slots| ==> slots[i].OtherTrigger?
    ensures r.Some? ==> exists i :: 0 <= i < |slots| && slots[i] == Instance(r.value)
                                   && forall j :: i < j < |slots| ==> slots[j].OtherTrigger?
  {
    if slots == [] then None
    else if slots[|slots| - 1].Instance? then Some(slots[|slots| - 1].trigger)
    else
      var init := slots[..|slots| - 1];
      var r := LastInstance(init);
      assert forall i :: 0 <= i < |init| ==> init[i] == slots[i];
      assert r.Some? ==> exists i :: 0 <= i < |init| && init[i] == Instance(r.value)
                                     && forall j :: i < j < |init| ==> init[j].OtherTrigger?;
      r
  }

  /** Scanning one more slot keeps the previous answer unless the slot is an instance. */
  lemma LastInstanceSnoc<T>(slots: seq<TriggerSlot<T>>, slot: TriggerSlot<T>)
    ensures LastInstance(slots + [slot]) == if slot.Instance? then Some(slot.trigger) else LastInstance(slots)
  {
    assert (slots + [slot])[..|slots|] == slots;
  }

  /** The call handler.handle(job, hook, ciSkip, branchFilter, mergeRequestLabelFilter)
      with which a trigger's onPost ends; the job is the trigger's own. */
  datatype HandleCall<H, K, F, L> = HandleCall(
    handler: H,
    hook: K,
    ciSkip: bool,
    branchFilter: Option<F>,
    mergeRequestLabelFilter: Option<L>)

  /** The localised text of an error; MissingPermission stands for the message
      Jenkins builds for a caller that lacks a permission (its wording lives in
      Jenkins' resource bundles and is not part of this model). */
  datatype Message = Text(text: string) | MissingPermission(userName: string, permission: string)

  /** The HTTP responses the webhook code raises (hudson.util.HttpResponses and
      the accepted-hook response). */
  datatype HttpResponse =
    | Ok
    | NotFound
    | Error(status: int, message: Message)
    | ErrorWithoutStack(status: int, message: Message)
    | PlainText(contentType: string, text: string)
}
