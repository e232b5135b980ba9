/**
 * The singly-linked process lists of student.c as values: a head/tail pair
 * (Queue) over the `next` links of the process records (Links).
 *
 * Pop, Append, PushFront, AddReady and MlAppend are the pointer updates
 * of student.c, exactly as written, and the class in scheduler.dfy is
 * specified by them. PushFrontFixed is the corrected head insertion; Drain
 * and AppendAll repeat pops and tail insertions for the lemmas. IsList is
 * the abstraction to the sequence of processes that a walk from the head
 * visits, and the lemmas say when an operation keeps that abstraction a
 * FIFO queue and when it does not.
 */
module LinkedQueue {
  import opened Process

  /** A head/tail pointer pair. */
  datatype Queue = Queue(head: Option<Proc>, tail: Option<Proc>)

  const Empty: Queue := Queue(None, None)

  /** The invariant every head/tail pair of student.c keeps: both NULL or neither. */
  predicate PairOk(q: Queue)
  {
    q.head.None? <==> q.tail.None?
  }

  predicate Distinct(s: seq<Proc>)
  {
    forall i, j :: 0 <= i < j < |s| ==> s[i] != s[j]
  }

  /** Following `next` from h visits exactly s and then reaches NULL. */
  ghost predicate IsChain(links: Links, h: Option<Proc>, s: seq<Proc>)
    decreases |s|
  {
    if s == [] then h == None
    else h == Some(s[0]) && IsChain(links, NextOf(links, s[0]), s[1..])
  }

  /** q is a well-formed list holding s: acyclic chain from head, tail at the last element. */
  ghost predicate IsList(links: Links, q: Queue, s: seq<Proc>)
  {
    && Distinct(s)
    && IsChain(links, q.head, s)
    && q.tail == (if s == [] then None else Some(s[|s| - 1]))
  }

  // ---------------------------------------------------------------------
  // The pointer updates of student.c
  // ---------------------------------------------------------------------

  /**
   * getReadyProcess (and removeFromQueue on one level): detach the head,
   * advance head to its `next`, and clear tail when the list became empty.
   * The popped record's `next` is left as it was.
   */
  function Pop(links: Links, q: Queue): (r: (Option<Proc>, Queue))
    ensures r.0 == q.head
    ensures q.head.None? ==> r.1 == q
    ensures PairOk(q) ==> PairOk(r.1)
  {
    match q.head
    case None => (None, q)
    case Some(first) =>
      var h := NextOf(links, first);
      (q.head, Queue(h, if h.None? then None else q.tail))
  }

  /** addReadyProcess with the preempting flag clear: link at the tail, then NULL the new node's next. */
  function Append(links: Links, q: Queue, p: Proc): (r: (Links, Queue))
    requires PairOk(q)
    ensures PairOk(r.1) && r.1.tail == Some(p) && NextOf(r.0, p).None?
    ensures q.head.Some? ==> r.1.head == q.head
  {
    if q.head.None? then (links[p := None], Queue(Some(p), Some(p)))
    else (links[q.tail.value := Some(p)][p := None], Queue(q.head, Some(p)))
  }

  /**
   * addReadyProcess with the preempting flag set: insert at the head.
   * Into an empty list it sets head and tail but leaves p's `next` untouched.
   */
  function PushFront(links: Links, q: Queue, p: Proc): (r: (Links, Queue))
    requires PairOk(q)
    ensures PairOk(r.1) && r.1.head == Some(p)
    ensures q.head.None? ==> r.0 == links
  {
    if q.head.None? then (links, Queue(Some(p), Some(p)))
    else
      var temp := q.head.value;
      var l := links[p := Some(temp)];
      (l, Queue(Some(p), if NextOf(l, temp).None? then Some(temp) else q.tail))
  }

  /** Head insertion as evidently intended: an empty list also gets p's `next` cleared. */
  function PushFrontFixed(links: Links, q: Queue, p: Proc): (r: (Links, Queue))
    requires PairOk(q)
    ensures PairOk(r.1) && r.1.head == Some(p)
  {
    if q.head.None? then (links[p := None], Queue(Some(p), Some(p)))
    else PushFront(links, q, p)
  }

  /** addReadyProcess: the branch on the preempting flag. */
  function AddReady(links: Links, q: Queue, p: Proc, preempting: bool): (r: (Links, Queue))
    requires PairOk(q)
    ensures PairOk(r.1)
    ensures preempting ==> r.1.head == Some(p)
    ensures !preempting ==> r.1.tail == Some(p)
  {
    if preempting then PushFront(links, q, p) else Append(links, q, p)
  }

  /**
   * addToQueue on one level, as written: the new node becomes the tail and
   * gets a NULL next, but the old tail is never linked to it; only a head
   * without a successor is linked to the new node.
   */
  function MlAppend(links: Links, q: Queue, p: Proc): (r: (Links, Queue))
    requires PairOk(q)
    ensures PairOk(r.1) && r.1.tail == Some(p)
    ensures q.head.Some? ==> r.1.head == q.head
  {
    if q.head.None? then (links[p := None], Queue(Some(p), Some(p)))
    else
      var l := links[p := None];
      var h := q.head.value;
      (if NextOf(l, h).None? then l[h := Some(p)] else l, Queue(q.head, Some(p)))
  }

  /** What at most n successive pops return, stopping at the first NULL. */
  function Drain(links: Links, q: Queue, n: nat): (r: seq<Proc>)
    ensures |r| <= n
    decreases n
  {
    if n == 0 then []
    else
      var (x, q') := Pop(links, q);
      match x
      case None => []
      case Some(p) => [p] + Drain(links, q', n - 1)
  }

  /** Successive tail insertions of ps, in order. */
  function AppendAll(links: Links, q: Queue, ps: seq<Proc>): (r: (Links, Queue))
    requires PairOk(q)
    ensures PairOk(r.1)
    ensures ps != [] ==> r.1.tail == Some(ps[|ps| - 1])
    decreases |ps|
  {
    if ps == [] then (links, q)
    else
      var (l, q') := Append(links, q, ps[0]);
      AppendAll(l, q', ps[1..])
  }

  // ---------------------------------------------------------------------
  // Lemmas
  // ---------------------------------------------------------------------

  /** A chain survives any change of links that leaves the `next` of its members alone. */
  lemma {:induction false} ChainFrame(links: Links, links': Links, h: Option<Proc>, s: seq<Proc>)
    requires IsChain(links, h, s)
    requires forall x :: x in s ==> NextOf(links', x) == NextOf(links, x)
    ensures IsChain(links', h, s)
    decreases |s|
  {
    if s != [] {
      ChainFrame(links, links', NextOf(links, s[0]), s[1..]);
    }
  }

  /** Linking the last member of a chain to a node with NULL next extends the chain by that node. */
  lemma {:induction false} ChainExtend(links: Links, links': Links, h: Option<Proc>, s: seq<Proc>, p: Proc)
    requires IsChain(links, h, s) && s != []
    requires forall i :: 0 <= i < |s| - 1 ==> NextOf(links', s[i]) == NextOf(links, s[i])
    requires NextOf(links', s[|s| - 1]) == Some(p) && NextOf(links', p).None?
    ensures IsChain(links', h, s + [p])
    decreases |s|
  {
    if |s| == 1 {
      assert s + [p] == [s[0], p];
      assert IsChain(links', Some(p), [p]) by {
        assert [p][1..] == [];
      }
      assert (s + [p])[1..] == [p];
    } else {
      ChainExtend(links, links', NextOf(links, s[0]), s[1..], p);
      assert (s + [p])[1..] == s[1..] + [p];
    }
  }

  /** Pops follow a chain: at least |s| pops return s in order, then NULL. */
  lemma {:induction false} ChainDrain(links: Links, q: Queue, s: seq<Proc>, n: nat)
    requires IsChain(links, q.head, s) && n >= |s|
    ensures Drain(links, q, n) == s
    decreases |s|
  {
    if s != [] {
      var (x, q') := Pop(links, q);
      ChainDrain(links, q', s[1..], n - 1);
      assert s == [s[0]] + s[1..];
    }
  }

  /** Tail insertion with the flag clear is FIFO append: the list becomes s + [p]. */
  lemma AppendIsList(links: Links, q: Queue, s: seq<Proc>, p: Proc)
    requires IsList(links, q, s) && p !in s
    ensures IsList(Append(links, q, p).0, Append(links, q, p).1, s + [p])
  {
    var (l, q') := Append(links, q, p);
    if s == [] {
      assert [] + [p] == [p];
      assert IsChain(l, Some(p), [p]) by { assert [p][1..] == []; }
    } else {
      forall i | 0 <= i < |s| - 1 ensures NextOf(l, s[i]) == NextOf(links, s[i]) {
        assert s[i] != s[|s| - 1];
      }
      ChainExtend(links, l, q.head, s, p);
    }
    assert Distinct(s + [p]) by {
      forall i, j | 0 <= i < j < |s| + 1 ensures (s + [p])[i] != (s + [p])[j] {
        if j == |s| { assert (s + [p])[i] == s[i]; }
      }
    }
  }

  /** Head insertion into a non-empty list puts p first: the list becomes [p] + s. */
  lemma PushFrontIsList(links: Links, q: Queue, s: seq<Proc>, p: Proc)
    requires IsList(links, q, s) && s != [] && p !in s
    ensures IsList(PushFront(links, q, p).0, PushFront(links, q, p).1, [p] + s)
  {
    var (l, q') := PushFront(links, q, p);
    ChainFrame(links, l, q.head, s);
    assert ([p] + s)[1..] == s;
    assert |s| == 1 ==> NextOf(links, s[0]).None? by {
      if |s| == 1 { assert s[1..] == []; }
    }
    assert Distinct([p] + s) by {
      forall i, j | 0 <= i < j < |s| + 1 ensures ([p] + s)[i] != ([p] + s)[j] {
        if i > 0 { assert ([p] + s)[i] == s[i - 1] && ([p] + s)[j] == s[j - 1]; }
      }
    }
  }

  /** The corrected head insertion keeps the list well-formed from any list, empty included. */
  lemma PushFrontFixedIsList(links: Links, q: Queue, s: seq<Proc>, p: Proc)
    requires IsList(links, q, s) && p !in s
    ensures IsList(PushFrontFixed(links, q, p).0, PushFrontFixed(links, q, p).1, [p] + s)
  {
    if s == [] {
      var (l, q') := PushFrontFixed(links, q, p);
      assert [p] + s == [p];
      assert IsChain(l, Some(p), [p]) by { assert [p][1..] == []; }
    } else {
      PushFrontIsList(links, q, s, p);
    }
  }

  /**
   * As written, head insertion into an empty list keeps p's stale `next`:
   * the second pop returns x, a process that was never inserted.
   */
  lemma PushFrontStaleNext(links: Links, q: Queue, p: Proc, x: Proc)
    requires q == Empty && NextOf(links, p) == Some(x)
    ensures !IsList(PushFront(links, q, p).0, PushFront(links, q, p).1, [p])
    ensures Drain(PushFront(links, q, p).0, PushFront(links, q, p).1, 2) == [p, x]
  {
    var (l, q1) := PushFront(links, q, p);
    assert [p][1..] == [];
    assert !IsChain(l, Some(p), [p]) by {
      assert !IsChain(l, NextOf(l, p), []);
    }
    var (y, q2) := Pop(l, q1);
    assert y == Some(p) && q2.head == Some(x);
  }

  /** A pop returns the first element and leaves the rest; tail becomes NULL exactly when the last one goes. */
  lemma PopIsList(links: Links, q: Queue, s: seq<Proc>)
    requires IsList(links, q, s)
    ensures s == [] ==> Pop(links, q) == (None, q)
    ensures s != [] ==>
      && Pop(links, q).0 == Some(s[0])
      && IsList(links, Pop(links, q).1, s[1..])
      && (Pop(links, q).1.tail.None? <==> |s| == 1)
  {
  }

  /** Tail insertions of distinct processes extend the list in order. */
  lemma {:induction false} AppendAllIsList(links: Links, q: Queue, s: seq<Proc>, ps: seq<Proc>)
    requires IsList(links, q, s) && Distinct(s + ps)
    ensures IsList(AppendAll(links, q, ps).0, AppendAll(links, q, ps).1, s + ps)
    decreases |ps|
  {
    if ps == [] {
      assert s + ps == s;
    } else {
      assert ps[0] !in s by {
        assert (s + ps)[|s|] == ps[0];
        forall i | 0 <= i < |s| ensures s[i] != ps[0] { assert (s + ps)[i] == s[i]; }
      }
      AppendIsList(links, q, s, ps[0]);
      var (l, q') := Append(links, q, ps[0]);
      assert (s + [ps[0]]) + ps[1..] == s + ps;
      AppendAllIsList(l, q', s + [ps[0]], ps[1..]);
    }
  }

  /**
   * With the preempting flag clear, successive pops return processes in the
   * order they were inserted, and then NULL.
   */
  lemma FifoOrder(links: Links, ps: seq<Proc>)
    requires Distinct(ps)
    ensures Drain(AppendAll(links, Empty, ps).0, AppendAll(links, Empty, ps).1, |ps| + 1) == ps
  {
    assert [] + ps == ps;
    AppendAllIsList(links, Empty, [], ps);
    var (l, q) := AppendAll(links, Empty, ps);
    ChainDrain(l, q, ps, |ps| + 1);
  }

  /** addToQueue is a correct FIFO append while the level holds at most one process. */
  lemma MlAppendIsList(links: Links, q: Queue, s: seq<Proc>, p: Proc)
    requires IsList(links, q, s) && |s| <= 1 && p !in s
    ensures IsList(MlAppend(links, q, p).0, MlAppend(links, q, p).1, s + [p])
  {
    var (l, q') := MlAppend(links, q, p);
    if s == [] {
      assert [] + [p] == [p];
      assert IsChain(l, Some(p), [p]) by { assert [p][1..] == []; }
    } else {
      assert s[1..] == [];
      assert NextOf(links, s[0]).None? by {
        assert IsChain(links, NextOf(links, s[0]), s[1..]);
      }
      ChainExtend(links, l, q.head, s, p);
    }
  }

  /**
   * Once a level holds two or more processes, addToQueue makes p the tail
   * but leaves it unreachable from the head: pops return only the old
   * contents, never p.
   */
  lemma MlAppendDropsLater(links: Links, q: Queue, s: seq<Proc>, p: Proc)
    requires IsList(links, q, s) && |s| >= 2 && p !in s
    ensures MlAppend(links, q, p).1.tail == Some(p)
    ensures IsChain(MlAppend(links, q, p).0, MlAppend(links, q, p).1.head, s)
    ensures Drain(MlAppend(links, q, p).0, MlAppend(links, q, p).1, |s| + 1) == s
  {
    var (l, q') := MlAppend(links, q, p);
    assert NextOf(links, s[0]) == Some(s[1]) by {
      assert IsChain(links, NextOf(links, s[0]), s[1..]);
      assert s[1..][0] == s[1];
    }
    ChainFrame(links, l, q.head, s);
    ChainDrain(l, q', s, |s| + 1);
  }

  /** Three insertions into an empty level, as written: the third process is never served. */
  lemma MlThirdInsertLost(links: Links, a: Proc, b: Proc, c: Proc)
    requires a != b && b != c && a != c
    ensures
      var (l1, q1) := MlAppend(links, Empty, a);
      var (l2, q2) := MlAppend(l1, q1, b);
      var (l3, q3) := MlAppend(l2, q2, c);
      Drain(l3, q3, 3) == [a, b]
  {
    // Dafny finds this by unfolding: MlAppendIsList gives [a] and then [a, b],
    // and MlAppendDropsLater then drops c.
  }
}
