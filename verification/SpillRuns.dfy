/** Spelling out runs of the protocol over two leaves. */
module SpillRuns {
  import opened SpillProtocol

  /** The protocol goes from s to s' by the step. */
  ghost predicate Moves(s: State, st: Step, s': State) {
    && Enabled(s, st)
    && (var n := Next(s, st);
        && n.rsgen == s'.rsgen && n.sgen == s'.sgen && n.jobs == s'.jobs && n.leaves == s'.leaves
        && n.splitCnt == s'.splitCnt && n.fanout == s'.fanout)
  }

  function S(rsgen: nat, sgen: nat, jobs: map<nat, Job>, l0: Leaf, l1: Leaf): State {
    State(rsgen, sgen, jobs, [l0, l1], 0, 2)
  }

  function L(sgen: nat, spilling: nat, queue: seq<nat>): Leaf {
    Leaf(sgen, spilling, queue, false, 0, Free)
  }

  /** An ordinary spill, and one that may be moved as a whole. */
  function J(pos: int, phase: Phase): Job {
    Job(false, -1, pos, phase)
  }

  function Z(pin: int, pos: int, phase: Phase): Job {
    Job(true, pin, pos, phase)
  }
}
