/** flow/engine.go: starting a workflow instance and waking a parked task instance. */
module Engine {
  import opened Model
  import opened Protocol
  import opened Catalog
  import opened Dal
  import opened Queue

  class FlowEngine {
    const parts: Parts

    constructor (parts: Parts)
      ensures this.parts == parts
    {
      this.parts := parts;
    }

    /** Draws the instance's id, records the instance and queues its start task. */
    method Start(jq: Oracle, workflowID: string, input: string, up: bool, ghost w: World) returns (r: Result<nat>, ghost edge: nat)
      requires parts.Mirror(w)
      modifies parts.dal`insts, parts.dal`next, parts.dal`trace, parts.queue`sent
      ensures r.Ok? ==> r.value == w.next && edge < |w.tables.relations| && StartsFor(w.tables.relations[edge], workflowID)
      ensures r.Ok? && workflowID != "" ==>
        Enabled(jq, w, StartFlow(edge, input)) && parts.Mirror(Next(jq, w, StartFlow(edge, input)))
      ensures r.Err? ==> parts.queue.sent == w.store.sent && parts.dal.insts == w.insts && w.next <= parts.dal.next
      ensures r.Ok? <==> up && exists x :: x in w.tables.relations && StartsFor(x, workflowID)
      ensures r == Err("workflow not exists") <==> forall x :: x in w.tables.relations ==> !StartsFor(x, workflowID)
    {
      var dal, queue := parts.dal, parts.queue;
      var found := dal.SelectStartTask(workflowID);
      if found.None? { return Err("workflow not exists"), 0; }
      var start := found.value;
      edge := start;
      assert dal.relations[edge] in w.tables.relations;
      var workflowInstanceID := dal.next;
      dal.next := dal.next + 1;
      var ok := dal.InsertInstance(workflowInstanceID, Instance(workflowID, Running), up);
      if !ok { return Err("insert failed"), edge; }
      dal.trace := dal.trace[workflowInstanceID := []];
      var t := Row(workflowInstanceID, workflowID, dal.relations[start].to, dal.next, Wait, input);
      dal.next := dal.next + 1;
      queue.Publish([Message(0, t)]);
      return Ok(workflowInstanceID), edge;
    }

    /** Queues the first SLEEP row with these ids as WAIT; no such row, no effect. Empty ids match any. */
    method Transition(workflowID: string, inst: Option<nat>, tiid: Option<nat>) returns (found: Option<nat>)
      modifies parts.queue`sent
      ensures found.Some? ==> found.value < |parts.dal.rows| && Sleeps(parts.dal.rows[found.value], workflowID, inst, tiid)
      ensures found.Some? ==>
        parts.queue.sent == old(parts.queue.sent) + [Message(found.value + 1, parts.dal.rows[found.value].(status := Wait))]
      ensures found.None? ==> parts.queue.sent == old(parts.queue.sent)
      ensures found.None? ==> forall k :: 0 <= k < |parts.dal.rows| ==> !Sleeps(parts.dal.rows[k], workflowID, inst, tiid)
    {
      found := parts.dal.SelectTransitionTask(workflowID, inst, tiid);
      if found.None? { return; }
      var r := parts.dal.rows[found.value].(status := Wait);
      parts.queue.Publish([Message(found.value + 1, r)]);
    }

    /** The service that got event `event` calls back with its ids, for the first time. */
    method CallBack(jq: Oracle, event: nat, workflowID: string, ghost w: World) returns (found: Option<nat>)
      requires parts.Mirror(w) && event < |w.store.events| && event !in w.store.called
      modifies parts.queue`sent, parts.broker`called
      ensures Enabled(jq, w, Callback(event, workflowID, found)) && parts.Mirror(Next(jq, w, Callback(event, workflowID, found)))
      ensures found.None? ==> forall k :: 0 <= k < |w.store.rows| ==> !Wakes(w.store.rows[k], w.store.events[event], workflowID)
    {
      var e := parts.broker.events[event];
      found := Transition(workflowID, Some(e.inst), Some(e.tiid));
      parts.broker.called := parts.broker.called + {event};
    }
  }
}
