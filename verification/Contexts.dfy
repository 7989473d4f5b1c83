/** `WorkflowContext`: the history a run has loaded, and the counter that numbers its steps. */
module Contexts {
  import opened Wrappers
  import opened Ids
  import opened Serialization
  import opened Events

  class WorkflowContext {
    const workflowId: Id
    const eventHistory: Log
    const parentInfo: Option<ParentInfo>
    var stepCounter: nat

    constructor (workflowId: Id, eventHistory: Log, parentInfo: Option<ParentInfo>)
      ensures this.workflowId == workflowId && this.eventHistory == eventHistory && this.parentInfo == parentInfo
      ensures stepCounter == 0
    {
      this.workflowId, this.eventHistory, this.parentInfo := workflowId, eventHistory, parentInfo;
      stepCounter := 0;
    }

    method NextStepIndex() returns (index: nat)
      modifies this
      ensures index == old(stepCounter) && stepCounter == index + 1
    {
      index := stepCounter;
      stepCounter := stepCounter + 1;
    }

    /** `find_event`, `find_signal_event`, `find_child_result_signal` and the searches for markers. */
    method Find(q: Query) returns (r: Option<Event>)
      ensures r == First(eventHistory, q)
    {
      r := FindIn(eventHistory, q);
    }

    method CountFailedEvents(step: nat) returns (n: nat)
      ensures n == Count(eventHistory, AtStep(step, FailedKind))
    {
      n := 0;
      for k := 0 to |eventHistory|
        invariant n == Count(eventHistory[..k], AtStep(step, FailedKind))
      {
        assert eventHistory[..k + 1] == eventHistory[..k] + [eventHistory[k]];
        CountOfAppend(eventHistory[..k], eventHistory[k], AtStep(step, FailedKind));
        if eventHistory[k].Failed? && eventHistory[k].step == step {
          n := n + 1;
        }
      }
      assert eventHistory[..|eventHistory|] == eventHistory;
    }
  }

  /** The first event that matches, and none before it does. */
  method FindIn(events: Log, q: Query) returns (r: Option<Event>)
    ensures r == First(events, q)
    ensures r.Some? ==>
      exists k :: 0 <= k < |events| && events[k] == r.value && forall j :: 0 <= j < k ==> !Matches(events[j], q)
    ensures r.None? ==> forall j :: 0 <= j < |events| ==> !Matches(events[j], q)
  {
    for k := 0 to |events|
      invariant First(events[..k], q) == None
      invariant forall j :: 0 <= j < k ==> !Matches(events[j], q)
    {
      assert events[..k + 1] == events[..k] + [events[k]];
      FirstOfAppend(events[..k], events[k], q);
      if Matches(events[k], q) {
        FirstIsStable(events[..k + 1], events, q);
        return Some(events[k]);
      }
    }
    assert events[..|events|] == events;
    r := None;
  }
}
