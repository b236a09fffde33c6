/** When the threaded program can get stuck, and when it cannot. */
module PipelineProgress {
  import opened Pipeline
  import opened PipelineClose
  import opened PipelineResult

  /** Some thread can do something without waiting, and without an early wake-up. */
  ghost predicate CanMove(cfg: Config, s: State) {
    exists l :: Productive(l) && Ready(cfg, s, l)
  }

  /** The one way to get stuck: main waits to feed another file while every requester waits for room on
      the host queue, which no resolver is there to empty. */
  ghost predicate Stuck(cfg: Config, s: State) {
    && s.main.FeedPut? && s.names.IsFull(cfg.Capacity()) && !s.names.closed
    && (forall r :: 0 <= r < |s.requesters| ==> s.requesters[r].HostPut?)
    && s.hosts.IsFull(cfg.Capacity()) && !s.hosts.closed
    && (forall v :: 0 <= v < |s.resolvers| ==> s.resolvers[v].Unborn?)
    && s.reqLogger.Awaiting? && s.log.IsEmpty() && !s.log.closed
    && s.resLogger.Awaiting? && s.messages.IsEmpty() && !s.messages.closed
  }

  // ---------------------------------------------------------------------------------------------
  // Who moves

  lemma LogWriterMoves(cfg: Config, s: State)
    requires CloseInv(cfg, s) && !s.reqLogger.Left? && (s.reqLogger.Awaiting? ==> s.log.CanGet())
    ensures CanMove(cfg, s)
  {
    assert Productive(ReqLogStep) && Ready(cfg, s, ReqLogStep);
  }

  lemma MessageWriterMoves(cfg: Config, s: State)
    requires CloseInv(cfg, s) && !s.resLogger.Left? && (s.resLogger.Awaiting? ==> s.messages.CanGet())
    ensures CanMove(cfg, s)
  {
    assert Productive(ResLogStep) && Ready(cfg, s, ResLogStep);
  }

  /** Work for the log writer, or room on its queue. */
  lemma LogQueueMoves(cfg: Config, s: State)
    requires CloseInv(cfg, s) && !s.log.CanPut(cfg.Capacity())
    ensures CanMove(cfg, s)
  {
    LogWriterMoves(cfg, s);
  }

  lemma LogDrains(cfg: Config, s: State)
    requires CloseInv(cfg, s) && !s.log.IsEmpty()
    ensures CanMove(cfg, s)
  {
    LogWriterMoves(cfg, s);
  }

  lemma MessagesDrain(cfg: Config, s: State)
    requires CloseInv(cfg, s) && !s.messages.IsEmpty()
    ensures CanMove(cfg, s)
  {
    MessageWriterMoves(cfg, s);
  }

  lemma ResolverMoves(cfg: Config, s: State, v: nat)
    requires CloseInv(cfg, s) && v < |s.resolvers|
    requires !s.resolvers[v].Unborn? && !s.resolvers[v].Left? && (s.resolvers[v].Fetching? ==> s.hosts.CanGet())
    ensures CanMove(cfg, s)
  {
    if s.resolvers[v].Posting? && !s.messages.CanPut(cfg.Capacity()) {
      MessagesDrain(cfg, s);
    } else {
      assert Productive(ResStep(v)) && Ready(cfg, s, ResStep(v));
    }
  }

  /** Once there are resolvers, host names do not stay queued. */
  lemma HostsDrain(cfg: Config, s: State)
    requires CloseInv(cfg, s) && MainRank(s.main) >= 3 && !s.hosts.IsEmpty()
    ensures CanMove(cfg, s)
  {
    assert !s.resolvers[0].Unborn? && !s.resolvers[0].Left?;
    ResolverMoves(cfg, s, 0);
  }

  lemma ReadyRequester(cfg: Config, s: State, r: nat)
    requires ReqReady(cfg, s, r, false)
    ensures CanMove(cfg, s)
  {
    assert Productive(ReqStep(r, false)) && Ready(cfg, s, ReqStep(r, false));
  }

  lemma WorkingRequesterMoves(cfg: Config, s: State, r: nat)
    requires CloseInv(cfg, s) && MainRank(s.main) >= 4
    requires r < |s.requesters| && !s.requesters[r].Unborn? && ExitRank(s.requesters[r]) <= 1
    ensures CanMove(cfg, s)
  {
    if s.requesters[r].LogPut? && !s.log.CanPut(cfg.Capacity()) {
      LogQueueMoves(cfg, s);
    } else if s.requesters[r].HostPut? && !s.hosts.CanPut(cfg.Capacity()) {
      HostsDrain(cfg, s);
    } else {
      ReadyRequester(cfg, s, r);
    }
  }

  lemma ClosingRequesterMoves(cfg: Config, s: State, r: nat)
    requires CloseInv(cfg, s) && MainRank(s.main) >= 4
    requires r < |s.requesters| && 2 <= ExitRank(s.requesters[r]) <= 7
    ensures CanMove(cfg, s)
  {
    if s.requesters[r].DrainHosts? && !s.hosts.IsEmpty() {
      HostsDrain(cfg, s);
    } else if s.requesters[r].CountHosts? && !ReqReady(cfg, s, r, false) {
      var v :| 0 <= v < |s.resolvers| && s.resolvers[v].Fetching?;
      ResolverMoves(cfg, s, v);
    } else if s.requesters[r].DrainLog? && !s.log.IsEmpty() {
      LogDrains(cfg, s);
    } else if s.requesters[r].CountLog? && s.reqLogger.Awaiting? {
      LogWriterMoves(cfg, s);
    } else {
      ReadyRequester(cfg, s, r);
    }
  }

  lemma MainMoves(cfg: Config, s: State)
    requires MainReady(cfg, s, false)
    ensures CanMove(cfg, s)
  {
    assert Productive(MainStep(false)) && Ready(cfg, s, MainStep(false));
  }

  /** After the requesters are through, so are the resolvers, and main gets to the end. */
  lemma AfterRequesters(cfg: Config, s: State)
    requires CloseInv(cfg, s) && MainRank(s.main) >= 4 && !s.main.Finished? && AllLeft(s.requesters)
    ensures CanMove(cfg, s)
  {
    assert s.requesters[0].Left?;
    if v :| 0 <= v < |s.resolvers| && !s.resolvers[v].Left? {
      ResolverMoves(cfg, s, v);
    } else if MainRank(s.main) <= 8 {
      MainMoves(cfg, s);
    } else {
      TheEnd(cfg, s);
    }
  }

  lemma TheEnd(cfg: Config, s: State)
    requires CloseInv(cfg, s) && 9 <= MainRank(s.main) <= 15
    ensures CanMove(cfg, s)
  {
    if s.main.DrainReqLog? && !s.log.IsEmpty() {
      LogDrains(cfg, s);
    } else if (s.main.CountReqLog? || s.main.JoinReqLogger?) && !s.reqLogger.Left? {
      LogWriterMoves(cfg, s);
    } else if s.main.DrainResLog? && !s.messages.IsEmpty() {
      MessagesDrain(cfg, s);
    } else if (s.main.CountResLog? || s.main.JoinResLogger?) && !s.resLogger.Left? {
      MessageWriterMoves(cfg, s);
    } else {
      MainMoves(cfg, s);
    }
  }

  /** While main waits to feed a file. */
  lemma WhileFeeding(cfg: Config, s: State)
    requires CloseInv(cfg, s) && s.main.FeedPut? && !Stuck(cfg, s)
    ensures CanMove(cfg, s)
  {
    if s.names.CanPut(cfg.Capacity()) {
      MainMoves(cfg, s);
    } else if r :| 0 <= r < |s.requesters| && !s.requesters[r].HostPut? {
      if s.requesters[r].LogPut? && !s.log.CanPut(cfg.Capacity()) {
        LogQueueMoves(cfg, s);
      } else {
        ReadyRequester(cfg, s, r);
      }
    } else if s.hosts.CanPut(cfg.Capacity()) {
      assert s.requesters[0].HostPut?;
      ReadyRequester(cfg, s, 0);
    } else {
      OpenForReaders(cfg, s, 0);
      if !(s.reqLogger.Awaiting? && s.log.IsEmpty()) {
        LogWriterMoves(cfg, s);
      } else {
        MessageWriterMoves(cfg, s);
      }
    }
  }

  /** In every unfinished reachable state, some thread can make progress unless the state is `Stuck`,
      and in a `Stuck` state none can, nor does any step at all change it: this is the only deadlock the
      program has. */
  lemma StuckExactly(cfg: Config, s: State)
    requires cfg.Valid() && Reachable(cfg, s) && !s.main.Finished?
    ensures CanMove(cfg, s) <==> !Stuck(cfg, s)
    ensures Stuck(cfg, s) ==> forall l, s' :: Next(cfg, s, l, s') ==> s' == s
  {
    ReachableInv(cfg, s);
    if Stuck(cfg, s) {
      StuckStays(cfg, s);
    } else {
      NotStuck(cfg, s);
    }
  }

  lemma StuckStays(cfg: Config, s: State)
    requires cfg.Valid() && Stuck(cfg, s)
    ensures !CanMove(cfg, s)
    ensures forall l, s' :: Next(cfg, s, l, s') ==> s' == s
  {
  }

  lemma NotStuck(cfg: Config, s: State)
    requires CloseInv(cfg, s) && !s.main.Finished? && !Stuck(cfg, s)
    ensures CanMove(cfg, s)
  {
    if s.main.FeedPut? {
      WhileFeeding(cfg, s);
    } else if MainRank(s.main) <= 3 {
      MainMoves(cfg, s);
    } else if r :| 0 <= r < |s.requesters| && !s.requesters[r].Left? {
      if ExitRank(s.requesters[r]) <= 1 {
        WorkingRequesterMoves(cfg, s, r);
      } else {
        ClosingRequesterMoves(cfg, s, r);
      }
    } else {
      AfterRequesters(cfg, s);
    }
  }
}
