/**
 * What stable storage holds.  Term and vote are always current (see `Election.NodeOk`), but
 * Start appends to the log without storing it, so a crash can lose a leader's last entries.
 */
module Durability {
  import opened Types
  import opened LogStore
  import opened Rpc
  import opened Median
  import opened Handlers
  import opened Cluster

  ghost predicate Stored(c: Cluster) {
    forall p :: 0 <= p < |c.nodes| ==> c.nodes[p].stable.logs <= c.nodes[p].logs
  }

  lemma StepStored(c: Cluster, s: Step)
    requires Stored(c) && Enabled(c, s)
    ensures Stored(Do(c, s))
  {
    hide MedianOf, Splice, NextAfter, Trim, InstalledLog, MatchLog, ScanBack;
    assert c.nodes[s.p].stable.logs <= c.nodes[s.p].logs;
  }

  /** In any run, with any crashes, the stored log is a prefix of the log in memory. */
  lemma {:induction false} StoredIsPrefix(n: nat, steps: seq<Step>)
    requires IsRun(Init(n), steps)
    ensures Stored(Exec(Init(n), steps))
    decreases |steps|
  {
    hide Do, Enabled, Stored;
    if steps == [] {
      BootStored(n);
    } else {
      StoredIsPrefix(n, steps[..|steps| - 1]);
      ServerInRange(Exec(Init(n), steps[..|steps| - 1]), Last(steps));
      StepStored(Exec(Init(n), steps[..|steps| - 1]), Last(steps));
    }
  }

  lemma BootStored(n: nat)
    ensures Stored(Init(n))
  {
  }

  lemma ServerInRange(c: Cluster, s: Step)
    requires Enabled(c, s)
    ensures s.p < |c.nodes|
  {
  }

  /** Start is the only step that leaves the stored log behind: any other keeps it current. */
  lemma OnlyStartLags(c: Cluster, s: Step)
    requires Enabled(c, s) && c.nodes[s.p].stable.logs == c.nodes[s.p].logs
    ensures Do(c, s).nodes[s.p].stable.logs == Do(c, s).nodes[s.p].logs <==>
            !(s.Propose? && Start(c.nodes[s.p], s.cmd).logs != c.nodes[s.p].logs)
  {
    hide MedianOf, Splice, NextAfter, Trim, InstalledLog, MatchLog, ScanBack;
  }
}
