/** What each thread's own counters count: the messages that very resolver has put, the files that very
    requester has opened. */
module PipelineCounts {
  import opened Pipeline
  import opened PipelineClose
  import opened PipelineResult

  /** Step `l` is resolver `v` having its message accepted by resolver_logfile_queue. */
  predicate Posts(s: State, l: Label, v: nat) {
    l == ResStep(v) && v < |s.resolvers| && s.resolvers[v].Posting? && !s.messages.closed
  }

  /** Step `l` is requester `r` opening a file with success. */
  predicate OpensFile(cfg: Config, s: State, l: Label, r: nat) {
    l.ReqStep? && l.i == r && r < |s.requesters| && s.requesters[r].Opening? && cfg.Opens(s.requesters[r].f)
  }

  /** How many of the first `n` steps of a run are posts of resolver `v`. */
  function PostCount(states: seq<State>, labels: seq<Label>, v: nat, n: nat): nat
    requires n <= |labels| < |states|
  {
    if n == 0 then 0
    else PostCount(states, labels, v, n - 1) + if Posts(states[n - 1], labels[n - 1], v) then 1 else 0
  }

  function OpenCount(cfg: Config, states: seq<State>, labels: seq<Label>, r: nat, n: nat): nat
    requires n <= |labels| < |states|
  {
    if n == 0 then 0
    else OpenCount(cfg, states, labels, r, n - 1) + if OpensFile(cfg, states[n - 1], labels[n - 1], r) then 1 else 0
  }

  // ---------------------------------------------------------------------------------------------
  // Steps

  lemma PostCounts(cfg: Config, s: State, i: nat)
    requires i < |s.resolvers| == |s.resolved| && ResReady(cfg, s, i)
    ensures var s' := ResApply(cfg, s, i);
      && s'.serviced == s.serviced && |s'.resolved| == |s.resolved|
      && (forall v :: 0 <= v < |s.resolved| ==>
            s'.resolved[v] == s.resolved[v] + if Posts(s, ResStep(i), v) then 1 else 0)
      && s'.messages.accepted ==
         s.messages.accepted + if Posts(s, ResStep(i), i) then [s.resolvers[i].message] else []
  {
  }

  lemma OpenCounts(cfg: Config, s: State, i: nat, early: bool)
    requires i < |s.requesters| == |s.serviced| && ReqReady(cfg, s, i, early)
    ensures var s' := ReqApply(cfg, s, i);
      && s'.resolved == s.resolved && |s'.serviced| == |s.serviced|
      && (forall r :: 0 <= r < |s.serviced| ==>
            s'.serviced[r] == s.serviced[r] + if OpensFile(cfg, s, ReqStep(i, early), r) then 1 else 0)
      && s'.messages.accepted == s.messages.accepted
  {
    if !s.requesters[i].Opening? {
      OpensNothing(cfg, s, i, ReqApply(cfg, s, i));
    }
  }

  lemma OpensNothing(cfg: Config, s: State, i: nat, s': State)
    requires i < |s.requesters| && !s.requesters[i].Opening? && s' == ReqApply(cfg, s, i)
    ensures s'.resolved == s.resolved && s'.serviced == s.serviced && s'.messages.accepted == s.messages.accepted
  {
    if ExitRank(s.requesters[i]) > 0 {
      ExitOpensNothing(cfg, s, i, s');
    }
  }

  lemma ExitOpensNothing(cfg: Config, s: State, i: nat, s': State)
    requires i < |s.requesters| && ExitRank(s.requesters[i]) > 0 && s' == ReqApply(cfg, s, i)
    ensures s'.resolved == s.resolved && s'.serviced == s.serviced && s'.messages == s.messages
  {
  }

  lemma MainCountsNothing(cfg: Config, s: State, s': State)
    requires s' == MainApply(cfg, s)
    ensures s'.serviced == s.serviced && s'.resolved == s.resolved && s'.messages.accepted == s.messages.accepted
  {
    if MainRank(s.main) > 2 {
      EndCountsNothing(cfg, s, s');
    }
  }

  lemma EndCountsNothing(cfg: Config, s: State, s': State)
    requires s' == MainApply(cfg, s) && MainRank(s.main) > 2
    ensures s'.serviced == s.serviced && s'.resolved == s.resolved && s'.messages.accepted == s.messages.accepted
  {
  }

  lemma OthersCountNothing(cfg: Config, s: State, l: Label, s': State)
    requires Next(cfg, s, l, s') && !l.ResStep? && !l.ReqStep?
    ensures s'.serviced == s.serviced && s'.resolved == s.resolved && s'.messages.accepted == s.messages.accepted
  {
    if l.MainStep? {
      MainCountsNothing(cfg, s, s');
    }
  }

  /** A step raises `hosts_resolved` of resolver `v` by one exactly if it is a post of `v`, and `files_serviced` of
      requester `r` exactly if it is `r` opening a file; and only posts put messages on the queue. */
  lemma StepCounts(cfg: Config, s: State, l: Label, s': State)
    requires Next(cfg, s, l, s') && Shape(cfg, s)
    ensures |s'.resolved| == |s.resolved| && |s'.serviced| == |s.serviced|
    ensures forall v :: 0 <= v < |s.resolved| ==>
      s'.resolved[v] == s.resolved[v] + if Posts(s, l, v) then 1 else 0
    ensures forall r :: 0 <= r < |s.serviced| ==>
      s'.serviced[r] == s.serviced[r] + if OpensFile(cfg, s, l, r) then 1 else 0
    ensures s'.messages.accepted ==
      s.messages.accepted + if l.ResStep? && Posts(s, l, l.i) then [s.resolvers[l.i].message] else []
  {
    match l {
      case ResStep(i) => PostCounts(cfg, s, i);
      case ReqStep(i, early) => OpenCounts(cfg, s, i, early);
      case _ => OthersCountNothing(cfg, s, l, s');
    }
  }

  // ---------------------------------------------------------------------------------------------
  // Runs

  ghost predicate CountersMove(cfg: Config, s: State, l: Label, s': State) {
    && |s.resolved| == |s'.resolved| == cfg.resolvers && |s.serviced| == |s'.serviced| == cfg.requesters
    && (forall v :: 0 <= v < |s.resolved| ==> s'.resolved[v] == s.resolved[v] + if Posts(s, l, v) then 1 else 0)
    && (forall r :: 0 <= r < |s.serviced| ==>
          s'.serviced[r] == s.serviced[r] + if OpensFile(cfg, s, l, r) then 1 else 0)
  }

  lemma StepMoves(cfg: Config, s: State, l: Label, s': State)
    requires Inv(cfg, s) && Next(cfg, s, l, s')
    ensures CountersMove(cfg, s, l, s')
  {
    StepCounts(cfg, s, l, s');
  }

  lemma RunCounts(cfg: Config, states: seq<State>, labels: seq<Label>)
    requires cfg.Valid() && IsRun(cfg, states, labels)
    ensures forall i :: 0 <= i < |labels| ==> CountersMove(cfg, states[i], labels[i], states[i + 1])
  {
    forall i | 0 <= i < |labels| ensures CountersMove(cfg, states[i], labels[i], states[i + 1]) {
      RunInv(cfg, states, labels, i);
      StepMoves(cfg, states[i], labels[i], states[i + 1]);
    }
  }

  lemma {:induction false} PostsAddUp(cfg: Config, states: seq<State>, labels: seq<Label>, n: nat, v: nat)
    requires n <= |labels| < |states| && v < cfg.resolvers
    requires |states[0].resolved| == cfg.resolvers && states[0].resolved[v] == 0
    requires forall i :: 0 <= i < |labels| ==> CountersMove(cfg, states[i], labels[i], states[i + 1])
    ensures |states[n].resolved| == cfg.resolvers && states[n].resolved[v] == PostCount(states, labels, v, n)
  {
    if n > 0 {
      PostsAddUp(cfg, states, labels, n - 1, v);
      assert CountersMove(cfg, states[n - 1], labels[n - 1], states[n - 1 + 1]);
    }
  }

  lemma {:induction false} OpensAddUp(cfg: Config, states: seq<State>, labels: seq<Label>, n: nat, r: nat)
    requires n <= |labels| < |states| && r < cfg.requesters
    requires |states[0].serviced| == cfg.requesters && states[0].serviced[r] == 0
    requires forall i :: 0 <= i < |labels| ==> CountersMove(cfg, states[i], labels[i], states[i + 1])
    ensures |states[n].serviced| == cfg.requesters && states[n].serviced[r] == OpenCount(cfg, states, labels, r, n)
  {
    if n > 0 {
      OpensAddUp(cfg, states, labels, n - 1, r);
      assert CountersMove(cfg, states[n - 1], labels[n - 1], states[n - 1 + 1]);
    }
  }

  /** Throughout every run, `hosts_resolved` of each resolver is the number of messages it has put itself. */
  lemma ResolvedIsOwnPosts(cfg: Config, states: seq<State>, labels: seq<Label>, n: nat, v: nat)
    requires cfg.Valid() && IsRun(cfg, states, labels) && n <= |labels| && v < cfg.resolvers
    ensures |states[n].resolved| == cfg.resolvers && states[n].resolved[v] == PostCount(states, labels, v, n)
  {
    RunCounts(cfg, states, labels);
    PostsAddUp(cfg, states, labels, n, v);
  }

  /** ... and `files_serviced` of each requester the number of files it has opened itself. */
  lemma ServicedIsOwnOpens(cfg: Config, states: seq<State>, labels: seq<Label>, n: nat, r: nat)
    requires cfg.Valid() && IsRun(cfg, states, labels) && n <= |labels| && r < cfg.requesters
    ensures |states[n].serviced| == cfg.requesters && states[n].serviced[r] == OpenCount(cfg, states, labels, r, n)
  {
    RunCounts(cfg, states, labels);
    OpensAddUp(cfg, states, labels, n, r);
  }
}
