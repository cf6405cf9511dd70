/**
 What one node guarantees on its own, over every sequence of handler calls, whatever its peers send.
 */
module RaftNodeRuns {
  import opened RaftNode
  import opened RaftCluster
  import opened RaftElection
  import opened RaftReplication
  import opened RaftSafety

  /** The calls a node can take; candidates have ids from 1 on. */
  ghost predicate Callable(n: Node, e: Event) {
    && CanAct(n, e)
    && (e.Deliver? && e.p.body.RequestVote? ==> 1 <= e.p.body.candidateId)
  }

  ghost predicate NodeRun(nodes: seq<Node>, events: seq<Event>) {
    && |nodes| == |events| + 1 && 1 <= nodes[0].id && nodes[0] == New(nodes[0].id)
    && forall k :: 0 <= k < |events| ==> NodeStep(nodes[k], events[k], nodes[k + 1])
  }

  ghost predicate NodeStep(n: Node, e: Event, n': Node) {
    Callable(n, e) && n' == Act(n, e).node
  }

  /** Terms never fall, a vote stands for its term, and applied commands are never taken back. */
  ghost predicate Ages(n: Node, n': Node) {
    && n'.id == n.id && n.currentTerm <= n'.currentTerm
    && (n'.currentTerm == n.currentTerm && n.votedFor != 0 ==> n'.votedFor == n.votedFor)
    && n.applied <= n'.applied && n.lastApplied <= n'.lastApplied
  }

  /** The callbacks so far were for the indices 1, 2, 3, ... in order, each once. */
  ghost predicate AppliedInOrder(n: Node) {
    |n.applied| == n.lastApplied && forall j :: 0 <= j < n.lastApplied ==> n.applied[j].index == j + 1
  }

  lemma StepAges(n: Node, e: Event)
    requires Callable(n, e)
    ensures Ages(n, Act(n, e).node)
    ensures AppliesMore(n, Act(n, e).node)
  {
    hide Act, AppliesMore, Counts;
    ActVotes(n, e);
    ActCommits(n, e);
    KeepsId(n, e);
    MoreIsMore(n, Act(n, e).node);
  }

  lemma MoreIsMore(n: Node, n': Node)
    requires AppliesMore(n, n')
    ensures n.applied <= n'.applied && n.lastApplied <= n'.lastApplied
  {
  }

  lemma KeepsId(n: Node, e: Event)
    requires Callable(n, e)
    ensures Act(n, e).node.id == n.id
  {
    hide MaybeCommit, FollowCommit, Overwrite, UpToDate, Append, Broadcast;
  }

  lemma StepInOrder(n: Node, n': Node)
    requires AppliesMore(n, n') && AppliedInOrder(n)
    ensures AppliedInOrder(n')
  {
    forall j | 0 <= j < n'.lastApplied ensures n'.applied[j].index == j + 1 {
      if j < n.lastApplied {
        assert n'.applied[j] == n.applied[j];
      } else {
        assert n'.applied[|n.applied| + (j - n.lastApplied)] == Applied(j + 1, n'.log[j].command);
      }
    }
  }

  lemma AgesTrans(a: Node, b: Node, c: Node)
    requires Ages(a, b) && Ages(b, c)
    ensures Ages(a, c)
  {
  }

  /** Over every run of one node: terms, votes and applied commands only age. */
  lemma {:induction false} NodesAge(nodes: seq<Node>, events: seq<Event>, j: nat, k: nat)
    requires NodeRun(nodes, events) && j <= k < |nodes|
    ensures Ages(nodes[j], nodes[k])
    decreases k
  {
    hide Ages, Act, Callable, AppliesMore;
    if j < k {
      NodesAge(nodes, events, j, k - 1);
      assert NodeStep(nodes[k - 1], events[k - 1], nodes[k]);
      StepAges(nodes[k - 1], events[k - 1]);
      AgesTrans(nodes[j], nodes[k - 1], nodes[k]);
    } else {
      AgesSelf(nodes[j]);
    }
  }

  lemma AgesSelf(n: Node)
    ensures Ages(n, n)
  {
  }

  /** Over every run of one node: the apply callback sees 1, 2, 3, ... without gap or repeat, even
      though a truncation may go below the commit index. */
  lemma {:induction false} NodesApplyInOrder(nodes: seq<Node>, events: seq<Event>, k: nat)
    requires NodeRun(nodes, events) && k < |nodes|
    ensures AppliedInOrder(nodes[k])
  {
    hide AppliedInOrder, Ages, Act, Callable, AppliesMore;
    if k > 0 {
      NodesApplyInOrder(nodes, events, k - 1);
      assert NodeStep(nodes[k - 1], events[k - 1], nodes[k]);
      StepAges(nodes[k - 1], events[k - 1]);
      StepInOrder(nodes[k - 1], nodes[k]);
    } else {
      NewInOrder(nodes[0].id);
    }
  }

  lemma NewInOrder(id: Id)
    ensures AppliedInOrder(New(id))
  {
  }

  /** Every log entry that a step applies is in range of the log it leaves. */
  lemma AppliesInRange(n: Node, e: Event, j: nat)
    requires Callable(n, e) && n.lastApplied <= j < Act(n, e).node.lastApplied
    ensures var n' := Act(n, e).node;
            j < |n'.log| && |n.applied| + (j - n.lastApplied) < |n'.applied|
            && n'.applied[|n.applied| + (j - n.lastApplied)] == Applied(j + 1, n'.log[j].command)
  {
    hide Act;
    StepAges(n, e);
  }

  /** The length of the log a message leaves, from what the log and the message hold. */
  function LengthAfter(log: seq<Entry>, ae: Body): nat
    requires ae.AppendEntries?
  {
    if AllPresent(log, ae.prevLogIndex, ae.entries) then |log| else ae.prevLogIndex + |ae.entries|
  }

  /** Exactly when an AppendEntries pulls a follower's commit index back: it is accepted, it carries a
      higher leader commit, and neither the log it finds complete nor, if it does not, the end of its
      entries reaches as far as was committed. */
  lemma CommitFallsIff(n: Node, from: Id, ae: Body)
    requires ae.AppendEntries?
    ensures HandleAppendEntries(n, from, ae).node.commitIndex < n.commitIndex
            <==> Accepts(n, ae) && ae.leaderCommit > n.commitIndex && LengthAfter(n.log, ae) < n.commitIndex
  {
    hide Overwrite, AllPresent, FirstProblem;
    if Accepts(n, ae) {
      LengthIs(n.log, ae);
    }
  }

  lemma LengthIs(log: seq<Entry>, ae: Body)
    requires ae.AppendEntries? && Consistent(log, ae.prevLogIndex, ae.prevLogTerm)
    ensures ae.prevLogIndex <= |log| && |Overwrite(log, ae.prevLogIndex, ae.entries)| == LengthAfter(log, ae)
  {
    hide Overwrite, AllPresent;
    OverwriteContract(log, ae.prevLogIndex, ae.entries);
  }
}
