/** The routing process from its start to its end, in terms of its own counters. */
module RouterService {
  import opened Router
  import opened RouterBooks
  import opened RouterTheorems
  import opened RouterLoop
  import opened WorkerStates

  /** Whatever arrives and whatever goes wrong, at the end the three arrays are empty and the counters
      account for every connection that was accepted: handed to a worker, gone while it waited, or
      refused for a reason other than the service cap. */
  method ServeUntilStopped(p: RouterProcess, ticks: seq<Tick>, now: real)
    requires p.Valid() && p.View() == Start(p.cfg, p.View().w)
    modifies p, p.q, p.pending, p.linger, p.pfd, p.slotOf, p.refused, p.shared, p.w, Rings(p.w)
    ensures p.Valid() && p.qN == 0 && p.pendingN == 0 && p.lingerN == 0
    ensures p.accepted == p.dispatched + p.clientGone +
      p.refused[Index(AtCapacity)] + p.refused[Index(QueuedTooLong)] +
      p.refused[Index(HandoffFailed)] + p.refused[Index(LanguageNotServed)]
  {
    hide RouterProcess.Valid, RouterProcess.View, After, Shutdown, Start, Everyone, Ids, Numbered;
    ghost var w := p.View().w;
    SameWorld(p);
    p.Run(ticks);
    p.ShutDown(now);
    ShutdownHoldsNobody(p.cfg, w, p.world, ticks, 0.0, now);
    OwnCounters(p);
  }

  lemma SameWorld(p: RouterProcess)
    requires p.Valid()
    ensures p.View().cfg == p.cfg
  {
  }

  lemma OwnCounters(p: RouterProcess)
    requires p.Valid()
    ensures p.refused.Length == REASONS
    ensures p.qN == |p.View().q| && p.pendingN == |p.View().pending| && p.lingerN == |p.View().linger|
    ensures var n := p.View().n;
      && n.accepted == p.accepted && n.dispatched == p.dispatched && n.clientGone == p.clientGone
      && Refusals(n.refused) == p.refused[Index(AtCapacity)] + p.refused[Index(QueuedTooLong)] +
           p.refused[Index(HandoffFailed)] + p.refused[Index(LanguageNotServed)]
  {
    hide SoundFleet, Values;
  }
}
