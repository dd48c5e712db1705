/** internal/queue and the event publisher, and how their objects mirror a state of the protocol. */
module Queue {
  import opened Model
  import opened Protocol
  import opened Records
  import opened Catalog
  import opened Dal

  /** internal/queue/in_memory_queue.go. The channel is the part of `sent` from `head` on. */
  class InMemoryQueue {
    const dal: WorkflowDal
    var sent: seq<Message>
    var head: nat

    constructor (dal: WorkflowDal)
      ensures sent == [] && head == 0 && this.dal == dal
    {
      this.dal := dal;
      sent, head := [], 0;
    }

    method Publish(ms: seq<Message>)
      modifies this`sent
      ensures sent == old(sent) + ms
    {
      for k := 0 to |ms|
        invariant sent == old(sent) + ms[..k]
      {
        sent := sent + [ms[k]];
      }
      assert ms[..|ms|] == ms;
    }

    /** Takes the oldest message: ID 0 is inserted, any other ID updated; a write error is only logged. */
    method Handle(up: bool)
      requires head < |sent|
      modifies this`head, dal`rows
      ensures head == old(head) + 1
      ensures forall b: Store :: b.rows == old(dal.rows) && b.sent == sent && b.head == old(head) ==>
        Take(b, up) == b.(rows := dal.rows, head := head)
    {
      var v := sent[head];
      head := head + 1;
      if v.id != 0 {
        dal.UpdateTaskInstance(v.id, Whole(v.row), up);
        return;
      }
      var _ := dal.InsertTaskInstance(v.row, up);
    }
  }

  /** Where publishEvent sends. `called` are the events whose callback has come back. */
  class Broker {
    var events: seq<Notice>
    var called: set<nat>

    constructor ()
      ensures events == [] && called == {}
    {
      events, called := [], {};
    }

    /** A publish that fails sends nothing. */
    method PublishEvent(inst: nat, tiid: nat, parks: Node, up: bool) returns (ok: bool)
      modifies this`events
      ensures ok == up && events == if up then old(events) + [Notice(inst, tiid, parks)] else old(events)
    {
      if up { events := events + [Notice(inst, tiid, parks)]; }
      return up;
    }
  }

  /** The objects of one engine process. */
  datatype Parts = Parts(dal: WorkflowDal, queue: InMemoryQueue, broker: Broker) {
    ghost function View(): Store
      reads dal, queue, broker
    {
      Store(dal.rows, queue.sent, queue.head, broker.events, broker.called)
    }

    /** The objects hold the state w. */
    ghost predicate Mirror(w: World)
      reads dal, queue, broker
    {
      w.tables == dal.State() && w.store == View() && w.insts == dal.insts && w.trace == dal.trace && w.next == dal.next
    }

    ghost predicate Wired()
    {
      queue.dal == dal
    }
  }

  /** The consumer's turn is a Deliver step. */
  method Consume(jq: Oracle, p: Parts, up: bool, ghost w: World)
    requires p.Wired() && p.Mirror(w) && p.queue.head < |p.queue.sent|
    modifies p.queue`head, p.dal`rows
    ensures Enabled(jq, w, Deliver(up)) && p.Mirror(Next(jq, w, Deliver(up)))
  {
    p.queue.Handle(up);
  }

  /** A Save that commits is a Republish step; one that rolls back leaves everything but the id counter. */
  method SaveWorkflow(jq: Oracle, p: Parts, workflowID: string, definition: string, ups: Updates, up: bool, ghost w: World)
    returns (ok: bool)
    requires p.Mirror(w) && Sound(w.tables)
    modifies p.dal
    ensures ghost var s := Republish(p.dal.State(), p.dal.next, if ok && workflowID != "" then Some(workflowID) else None);
      Enabled(jq, w, s) && p.Mirror(Next(jq, w, s))
    ensures Saved(p.dal.raw, old(p.dal.State()), old(p.dal.next), workflowID, definition, ok, p.dal.State(), p.dal.next)
  {
    hide Saved;
    ok := p.dal.Save(workflowID, definition, ups, up);
    SaveIsAStep(jq, w, p.dal.raw, workflowID, definition, ok, p.dal.State(), p.dal.next);
    ForgetNone(w.store);
  }

  /** A Delete that succeeds is a Republish step. */
  method DeleteWorkflow(jq: Oracle, p: Parts, workflowID: string, ups: Updates, ghost w: World) returns (ok: bool)
    requires p.Mirror(w) && Sound(w.tables)
    modifies p.dal`flows, p.dal`tasks, p.dal`relations, p.dal`insts, p.dal`rows
    ensures ok == (ups == Updates(true, true, true, true, true, true))
    ensures ok ==> ghost var s := Republish(Retired(w.tables, workflowID), w.next, Some(workflowID));
      Enabled(jq, w, s) && p.Mirror(Next(jq, w, s))
  {
    ok := p.dal.Delete(workflowID, ups);
    DeleteIsAStep(jq, w, workflowID);
  }

  lemma ForgetNone(b: Store)
    ensures Forget(b, None) == b
  {
    assert Forget(b, None).rows == b.rows;
  }
}
