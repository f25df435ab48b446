/** Recovery commands against the original ones. */
module Recovery {
  import opened Prelude
  import opened Records
  import opened Lifecycle
  import opened Families

  function OrMedium(priority: string): string {
    if priority == "" then "medium" else priority
  }

  /** What remains of a queue command at time t: a schedule that has passed becomes immediate,
      and a missing priority becomes medium. */
  function Reissued(c: Command, t: int): Command {
    match c
    case Enqueue(p) => Enqueue(OrMedium(p))
    case Schedule(p, at) => if at > t then Schedule(OrMedium(p), at) else Enqueue(OrMedium(p))
  }

  /** For every event of a reachable state, requeue at any time t repeats the event's original
      queue command as far as it still applies, reset for retry picks the same priority, and a
      root, which always has a priority, keeps it unchanged. A retry drops a future schedule: its
      queue call is the requeue's if and only if no schedule lies after t. */
  lemma RecoveryReproducesLaunch(st: State, id: Id, t: int)
    requires FamiliesOk(st) && id in st.events
    ensures var e := st.events[id];
            && RequeueCommand(e, t) == Reissued(Launch(e.req.priority, e.req.executeAt), t)
            && RetryPriority(e) == RequeueCommand(e, t).priority == OrMedium(e.req.priority)
            && (e.parent == None && (e.req.executeAt.None? || e.req.executeAt.value > t) ==>
                  RequeueCommand(e, t) == Launch(e.req.priority, e.req.executeAt))
            && (RequeueCommand(e, t).Schedule? ==> e.scheduledAt == Some(RequeueCommand(e, t).at))
            && (Enqueue(RetryPriority(e)) == RequeueCommand(e, t) <==> e.req.executeAt.None? || e.req.executeAt.value <= t)
  {
    assert MemberOk(st.events, st.hist.creator, id, st.events[id]);
  }
}
