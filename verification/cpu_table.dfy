/**
 * Facts about the CPU assignment table current[0..cpu_count), taken as a
 * sequence: slot i holds NULL (the CPU runs idle) or the running process.
 */
module CpuTable {
  import opened Process

  /** Some CPU is running idle. */
  ghost predicate HasIdle(cur: seq<Option<Proc>>)
  {
    exists i :: 0 <= i < |cur| && cur[i].None?
  }

  /** No running process has a static priority strictly below w's. */
  ghost predicate NoneBelow(cur: seq<Option<Proc>>, w: Proc)
  {
    forall i :: 0 <= i < |cur| && cur[i].Some? ==> cur[i].value.staticPriority >= w.staticPriority
  }

  /**
   * CPU i runs the process to preempt for w: its static priority is below
   * w's, no running process has a smaller one, and every earlier CPU runs
   * idle or a process of strictly larger priority (ties go to the lowest index).
   */
  ghost predicate IsVictim(cur: seq<Option<Proc>>, w: Proc, i: int)
  {
    && 0 <= i < |cur|
    && cur[i].Some?
    && cur[i].value.staticPriority < w.staticPriority
    && (forall j :: 0 <= j < |cur| && cur[j].Some? ==>
          cur[i].value.staticPriority <= cur[j].value.staticPriority)
    && (forall j :: 0 <= j < i && cur[j].Some? ==>
          cur[i].value.staticPriority < cur[j].value.staticPriority)
  }

  /** A victim exists exactly when some running process has a priority below w's, and it is unique. */
  lemma {:induction false} VictimExists(cur: seq<Option<Proc>>, w: Proc)
    ensures !NoneBelow(cur, w) <==> exists i :: IsVictim(cur, w, i)
    ensures forall i, j :: IsVictim(cur, w, i) && IsVictim(cur, w, j) ==> i == j
    decreases |cur|
  {
    if cur != [] {
      var rest := cur[..|cur| - 1];
      var n := |cur| - 1;
      VictimExists(rest, w);
      assert forall j :: 0 <= j < n ==> rest[j] == cur[j];
      if exists i :: IsVictim(rest, w, i) {
        var i :| IsVictim(rest, w, i);
        if cur[n].Some? && cur[n].value.staticPriority < cur[i].value.staticPriority {
          assert IsVictim(cur, w, n);
        } else {
          assert IsVictim(cur, w, i);
        }
      } else if cur[n].Some? && cur[n].value.staticPriority < w.staticPriority {
        assert IsVictim(cur, w, n);
      } else {
        assert NoneBelow(rest, w);
        assert NoneBelow(cur, w);
      }
    }
  }
}
