/**
  The per-group turn lock (`acquireGroupLock` / `releaseGroupLock`): a registry
  from group id to a mutex object holding a `locked` flag and a FIFO queue of
  waiting acquirers.

  Each `acquireGroupLock` call is a caller with a fresh id. Mutex objects live in
  a heap and are named by their index, because the release closure captures the
  mutex object itself and not the registry entry: after the entry is deleted and
  recreated, an old closure still works on the old object. Promise scheduling is
  not modelled: every operation is one atomic step.
 */
module Lock {

  type GroupId = string

  /** One call of `acquireGroupLock`. */
  type Caller = nat

  /** The identity of a mutex object: its index in the heap. */
  type Ref = nat

  datatype Mutex = Mutex(group: GroupId, locked: bool, queue: seq<Caller>)

  /** `table` is the `mutexes` map; `closures` records, for every caller that has
      been granted, the mutex its release closure captured; `holding` are the
      callers granted whose closure has not been called yet. */
  datatype Registry = Registry(
    table: map<GroupId, Ref>,
    heap: seq<Mutex>,
    closures: map<Caller, Ref>,
    holding: set<Caller>,
    next: Caller)

  const Init: Registry := Registry(map[], [], map[], {}, 0)

  // ---------------------------------------------------------------------------
  // Well-formedness that every trace keeps
  // ---------------------------------------------------------------------------

  /** Every registry entry names a mutex created for that group. */
  predicate TableSound(s: Registry) {
    forall g :: g in s.table ==> s.table[g] < |s.heap| && s.heap[s.table[g]].group == g
  }

  /** Granted callers were issued and their closures name existing mutexes. */
  predicate ClosuresSound(s: Registry) {
    && (forall c :: c in s.closures ==> c < s.next && s.closures[c] < |s.heap|)
    && s.holding <= s.closures.Keys
  }

  /** A waiter was issued and has not been granted. */
  predicate QueuesFresh(s: Registry) {
    forall r, i :: 0 <= r < |s.heap| && 0 <= i < |s.heap[r].queue| ==>
      s.heap[r].queue[i] < s.next && s.heap[r].queue[i] !in s.closures
  }

  /** A waiter waits in one queue, once. */
  predicate QueuesDistinct(s: Registry) {
    forall r1, i, r2, j ::
      && 0 <= r1 < |s.heap| && 0 <= i < |s.heap[r1].queue|
      && 0 <= r2 < |s.heap| && 0 <= j < |s.heap[r2].queue|
      && s.heap[r1].queue[i] == s.heap[r2].queue[j]
      ==> r1 == r2 && i == j
  }

  predicate Sound(s: Registry) {
    TableSound(s) && ClosuresSound(s) && QueuesFresh(s) && QueuesDistinct(s)
  }

  // ---------------------------------------------------------------------------
  // Operations
  // ---------------------------------------------------------------------------

  /** `getMutex`: the group's mutex, created unlocked with an empty queue when the
      group has no entry. */
  function GetMutex(s: Registry, g: GroupId): (p: (Registry, Ref))
    requires Sound(s)
    ensures Sound(p.0)
    ensures g in p.0.table && p.0.table[g] == p.1 && p.1 < |p.0.heap|
    ensures g in s.table ==> p == (s, s.table[g])
    ensures g !in s.table ==>
      && p.1 == |s.heap|
      && p.0 == s.(table := s.table[g := p.1], heap := s.heap + [Mutex(g, false, [])])
  {
    if g in s.table then (s, s.table[g])
    else
      var r := |s.heap|;
      var s' := s.(table := s.table[g := r], heap := s.heap + [Mutex(g, false, [])]);
      assert QueuesDistinct(s') by {
        forall r1, i, r2, j |
          && 0 <= r1 < |s'.heap| && 0 <= i < |s'.heap[r1].queue|
          && 0 <= r2 < |s'.heap| && 0 <= j < |s'.heap[r2].queue|
          && s'.heap[r1].queue[i] == s'.heap[r2].queue[j]
          ensures r1 == r2 && i == j
        {
          assert r1 < r && r2 < r;
        }
      }
      (s', r)
  }

  /** Marks `c` as holding mutex `r` and hands it its release closure. */
  function Grant(s: Registry, c: Caller, r: Ref): Registry
    requires r < |s.heap|
  {
    s.(heap := s.heap[r := s.heap[r].(locked := true)],
       closures := s.closures[c := r],
       holding := s.holding + {c})
  }

  /** `tryAcquire`: take the mutex when it is free, otherwise wait at the tail. */
  function TryAcquire(s: Registry, c: Caller, r: Ref): Registry
    requires r < |s.heap|
  {
    if !s.heap[r].locked then Grant(s, c, r)
    else s.(heap := s.heap[r := s.heap[r].(queue := s.heap[r].queue + [c])])
  }

  /** `acquireGroupLock(g)`: the caller with id `s.next` either holds the group's
      mutex at once or waits at the tail of its queue. */
  function Acquire(s: Registry, g: GroupId): (p: (Registry, Caller))
    requires Sound(s)
    ensures Sound(p.0)
    ensures p.1 == s.next && p.0.next == s.next + 1
    ensures g in p.0.table && p.0.table[g] < |p.0.heap|
    // a missing entry is created
    ensures g !in s.table ==> p.0.table[g] == |s.heap| && |p.0.heap| == |s.heap| + 1
    ensures g in s.table ==> p.0.table == s.table && |p.0.heap| == |s.heap|
    // an absent or unlocked group is granted at once
    ensures (g !in s.table || !s.heap[s.table[g]].locked) ==>
      && p.0.heap[p.0.table[g]] == Mutex(g, true, if g in s.table then s.heap[s.table[g]].queue else [])
      && p.0.holding == s.holding + {p.1}
      && p.0.closures == s.closures[p.1 := p.0.table[g]]
    // a locked group queues the caller at the tail and grants nothing
    ensures g in s.table && s.heap[s.table[g]].locked ==>
      && p.0.heap[p.0.table[g]] == s.heap[s.table[g]].(queue := s.heap[s.table[g]].queue + [p.1])
      && p.0.holding == s.holding
      && p.0.closures == s.closures
    // every other mutex is left alone
    ensures forall r :: 0 <= r < |s.heap| && r != p.0.table[g] ==> p.0.heap[r] == s.heap[r]
  {
    var (s1, r) := GetMutex(s, g);
    var c := s.next;
    var s2 := s1.(next := s1.next + 1);
    var s3 := TryAcquire(s2, c, r);
    assert Sound(s3) by { TryAcquireSound(s2, c, r); }
    (s3, c)
  }

  lemma TryAcquireSound(s: Registry, c: Caller, r: Ref)
    requires Sound(s.(next := c)) && s.next == c + 1 && r < |s.heap|
    ensures Sound(TryAcquire(s, c, r))
  {
    var s' := TryAcquire(s, c, r);
    assert forall r1, i :: 0 <= r1 < |s.heap| && 0 <= i < |s.heap[r1].queue| ==> s.heap[r1].queue[i] < c;
    if s.heap[r].locked {
      var q := s.heap[r].queue + [c];
      assert forall r1 :: 0 <= r1 < |s'.heap| ==> s'.heap[r1].queue == if r1 == r then q else s.heap[r1].queue;
      assert QueuesDistinct(s') by {
        forall r1, i, r2, j |
          && 0 <= r1 < |s'.heap| && 0 <= i < |s'.heap[r1].queue|
          && 0 <= r2 < |s'.heap| && 0 <= j < |s'.heap[r2].queue|
          && s'.heap[r1].queue[i] == s'.heap[r2].queue[j]
          ensures r1 == r2 && i == j
        {
          var x := s'.heap[r1].queue[i];
          if x == c {
            assert r1 == r && i == |q| - 1;
            assert r2 == r && j == |q| - 1;
          } else {
            assert r1 == r ==> i < |q| - 1;
            assert r2 == r ==> j < |q| - 1;
            assert s.heap[r1].queue[i] == s.heap[r2].queue[j];
          }
        }
      }
    } else {
      assert forall r1 :: 0 <= r1 < |s'.heap| ==> s'.heap[r1].queue == s.heap[r1].queue;
    }
  }

  /** The release closure of caller `c`: unlock the captured mutex, then hand it
      to the head of its queue, or, with nobody waiting, delete the group's
      registry entry, whatever mutex that entry names by now. Nothing stops a
      closure from being called twice. */
  function Release(s: Registry, c: Caller): (s': Registry)
    requires Sound(s) && c in s.closures
    ensures Sound(s')
    ensures s'.next == s.next && s'.closures.Keys >= s.closures.Keys
    ensures var r := s.closures[c]; var m := s.heap[r];
      && |s'.heap| == |s.heap|
      && (forall r' :: 0 <= r' < |s.heap| && r' != r ==> s'.heap[r'] == s.heap[r'])
      // a waiter takes over: it is the head, the mutex stays locked, the entry stays
      && (|m.queue| > 0 ==>
            && s'.heap[r] == m.(locked := true, queue := m.queue[1..])
            && s'.closures == s.closures[m.queue[0] := r]
            && s'.holding == s.holding - {c} + {m.queue[0]}
            && s'.table == s.table)
      // nobody waits: the mutex is unlocked and the group's entry is deleted
      && (|m.queue| == 0 ==>
            && s'.heap[r] == m.(locked := false)
            && s'.closures == s.closures
            && s'.holding == s.holding - {c}
            && s'.table == s.table - {m.group})
  {
    var r := s.closures[c];
    var m := s.heap[r];
    var s1 := s.(heap := s.heap[r := m.(locked := false)], holding := s.holding - {c});
    if |m.queue| > 0 then
      var s2 := s1.(heap := s1.heap[r := s1.heap[r].(queue := m.queue[1..])]);
      HandOffSound(s, c);
      TryAcquire(s2, m.queue[0], r)
    else
      assert forall r' :: 0 <= r' < |s1.heap| ==> s1.heap[r'].queue == s.heap[r'].queue;
      s1.(table := s1.table - {m.group})
  }

  /** Handing a mutex to its first waiter keeps the registry sound: the waiter
      leaves its only queue position and becomes a granted caller. */
  lemma HandOffSound(s: Registry, c: Caller)
    requires Sound(s) && c in s.closures && |s.heap[s.closures[c]].queue| > 0
    ensures var r := s.closures[c]; var m := s.heap[r];
      Sound(Grant(s.(heap := s.heap[r := m.(locked := false, queue := m.queue[1..])], holding := s.holding - {c}), m.queue[0], r))
  {
    var r := s.closures[c];
    var m := s.heap[r];
    var h := m.queue[0];
    var s' := Grant(s.(heap := s.heap[r := m.(locked := false, queue := m.queue[1..])], holding := s.holding - {c}), h, r);
    assert forall r1 :: 0 <= r1 < |s'.heap| ==> s'.heap[r1].queue == if r1 == r then m.queue[1..] else s.heap[r1].queue;
    assert QueuesFresh(s') by {
      forall r1, i | 0 <= r1 < |s'.heap| && 0 <= i < |s'.heap[r1].queue|
        ensures s'.heap[r1].queue[i] < s'.next && s'.heap[r1].queue[i] !in s'.closures
      {
        if r1 == r {
          assert s'.heap[r1].queue[i] == s.heap[r].queue[i + 1];
          assert s.heap[r].queue[i + 1] != h;
        } else {
          assert s'.heap[r1].queue[i] == s.heap[r1].queue[i];
          assert s.heap[r1].queue[i] != h;
        }
      }
    }
    assert QueuesDistinct(s') by {
      forall r1, i, r2, j |
        && 0 <= r1 < |s'.heap| && 0 <= i < |s'.heap[r1].queue|
        && 0 <= r2 < |s'.heap| && 0 <= j < |s'.heap[r2].queue|
        && s'.heap[r1].queue[i] == s'.heap[r2].queue[j]
        ensures r1 == r2 && i == j
      {
        var i0 := if r1 == r then i + 1 else i;
        var j0 := if r2 == r then j + 1 else j;
        assert s'.heap[r1].queue[i] == s.heap[r1].queue[i0];
        assert s'.heap[r2].queue[j] == s.heap[r2].queue[j0];
      }
    }
  }

  /** `releaseGroupLock(g)`: delete the group's entry, held or not. */
  function Drop(s: Registry, g: GroupId): (s': Registry)
    requires Sound(s)
    ensures Sound(s')
    ensures s'.table == s.table - {g}
    ensures s' == s.(table := s'.table)
  {
    s.(table := s.table - {g})
  }

  // ---------------------------------------------------------------------------
  // Traces
  // ---------------------------------------------------------------------------

  /** `Acq(g)` is a call of `acquireGroupLock(g)`, `Rel(c)` a call of caller `c`'s
      release closure, `Drop(g)` a call of `releaseGroupLock(g)`. */
  datatype Event = Acq(g: GroupId) | Rel(c: Caller) | DropGroup(g: GroupId)

  /** A closure exists only once its caller has been granted; `Rel` of a caller
      that has none changes nothing. */
  function Step(s: Registry, e: Event): (s': Registry)
    requires Sound(s)
    ensures Sound(s')
  {
    match e
    case Acq(g) => Acquire(s, g).0
    case Rel(c) => if c in s.closures then Release(s, c) else s
    case DropGroup(g) => Drop(s, g)
  }

  function Run(s: Registry, t: seq<Event>): (s': Registry)
    requires Sound(s)
    ensures Sound(s')
    decreases |t|
  {
    if |t| == 0 then s else Run(Step(s, t[0]), t[1..])
  }

  lemma InitSound()
    ensures Sound(Init)
  {
  }

  // ---------------------------------------------------------------------------
  // Mutual exclusion for acquire and release
  // ---------------------------------------------------------------------------

  /** Caller `c` currently holds group `g`'s lock. */
  predicate Holds(s: Registry, c: Caller, g: GroupId) {
    c in s.holding && c in s.closures && s.closures[c] < |s.heap| && s.heap[s.closures[c]].group == g
  }

  /** "Only one AI response is generated at a time": at most one holder per group. */
  ghost predicate MutualExclusion(s: Registry) {
    forall g, c1, c2 :: Holds(s, c1, g) && Holds(s, c2, g) ==> c1 == c2
  }

  /** Every holder's mutex is locked and is its group's current entry. */
  predicate HoldersCurrent(s: Registry) {
    forall c :: c in s.holding ==>
      && c in s.closures && s.closures[c] < |s.heap|
      && s.heap[s.closures[c]].locked
      && s.heap[s.closures[c]].group in s.table
      && s.table[s.heap[s.closures[c]].group] == s.closures[c]
  }

  /** No two holders share a mutex. */
  predicate HoldersApart(s: Registry) {
    forall c1, c2 ::
      c1 in s.holding && c2 in s.holding && c1 in s.closures && c2 in s.closures && s.closures[c1] == s.closures[c2]
      ==> c1 == c2
  }

  predicate Inv(s: Registry) {
    Sound(s) && HoldersCurrent(s) && HoldersApart(s)
  }

  lemma InvMutualExclusion(s: Registry)
    requires Inv(s)
    ensures MutualExclusion(s)
  {
    forall g, c1, c2 | Holds(s, c1, g) && Holds(s, c2, g) ensures c1 == c2 {
      assert s.closures[c1] == s.table[g] == s.closures[c2];
    }
  }

  /** The traces the call sites would produce if they only used acquire and the
      release closure, each closure called once by its own holder. */
  predicate Disciplined(s: Registry, t: seq<Event>)
    requires Sound(s)
    decreases |t|
  {
    |t| == 0 ||
    (&& (t[0].Acq? || (t[0].Rel? && t[0].c in s.holding))
     && Disciplined(Step(s, t[0]), t[1..]))
  }

  lemma AcquireInv(s: Registry, g: GroupId)
    requires Inv(s)
    ensures Inv(Acquire(s, g).0)
  {
    if g in s.table && s.heap[s.table[g]].locked {
      AcquireQueuedInv(s, g);
    } else {
      AcquireGrantedInv(s, g);
    }
  }

  /** Queueing changes no holder and no lock flag. */
  lemma AcquireQueuedInv(s: Registry, g: GroupId)
    requires Inv(s) && g in s.table && s.heap[s.table[g]].locked
    ensures Inv(Acquire(s, g).0)
  {
    var s' := Acquire(s, g).0;
    assert forall r :: 0 <= r < |s.heap| ==> s'.heap[r].locked == s.heap[r].locked && s'.heap[r].group == s.heap[r].group;
  }

  /** A grant only ever goes to a mutex that no holder has. */
  lemma AcquireGrantedInv(s: Registry, g: GroupId)
    requires Inv(s) && (g !in s.table || !s.heap[s.table[g]].locked)
    ensures Inv(Acquire(s, g).0)
  {
    var (s', c) := Acquire(s, g);
    var r := s'.table[g];
    assert forall c1 :: c1 in s.holding ==> s.closures[c1] != r;
    GrantedHolders(s, s', c, g, r);
  }

  lemma GrantedHolders(s: Registry, s': Registry, c: Caller, g: GroupId, r: Ref)
    requires Inv(s) && TableSound(s') && c !in s.closures
    requires r < |s'.heap| && |s.heap| <= |s'.heap| && s'.heap[r].locked && s'.heap[r].group == g
    requires s'.table == s.table[g := r] && (g in s.table ==> s.table[g] == r)
    requires forall r1 :: 0 <= r1 < |s.heap| && r1 != r ==> s'.heap[r1] == s.heap[r1]
    requires s'.holding == s.holding + {c} && s'.closures == s.closures[c := r]
    requires forall c1 :: c1 in s.holding ==> s.closures[c1] != r
    ensures HoldersCurrent(s') && HoldersApart(s')
  {
    forall c1 | c1 in s'.holding && c1 != c
      ensures s'.table[s'.heap[s'.closures[c1]].group] == s'.closures[c1]
    {
      assert c1 in s.holding;
      var g1 := s.heap[s.closures[c1]].group;
      assert g1 == g ==> g in s.table;
    }
  }

  lemma ReleaseInv(s: Registry, c: Caller)
    requires Inv(s) && c in s.holding
    ensures Inv(Release(s, c))
  {
    var s' := Release(s, c);
    var r := s.closures[c];
    var m := s.heap[r];
    assert forall c1 :: c1 in s.holding && c1 != c ==> s.closures[c1] != r && s.heap[s.closures[c1]].group != m.group;
    if |m.queue| > 0 {
      var h := m.queue[0];
      assert h !in s.closures;
      assert forall c1 :: c1 in s'.holding && c1 != h ==> c1 in s.holding && c1 != c && s'.closures[c1] == s.closures[c1];
    } else {
      assert forall c1 :: c1 in s'.holding ==> c1 in s.holding && c1 != c && s'.closures[c1] == s.closures[c1];
    }
  }

  lemma {:induction false} DisciplinedInv(s: Registry, t: seq<Event>)
    requires Inv(s) && Disciplined(s, t)
    ensures Inv(Run(s, t))
    decreases |t|
  {
    if |t| > 0 {
      match t[0] {
        case Acq(g) => AcquireInv(s, g);
        case Rel(c) => ReleaseInv(s, c);
      }
      DisciplinedInv(Step(s, t[0]), t[1..]);
    }
  }

  /** With acquire and the release closure alone, every group has at most one
      holder after any disciplined trace. */
  lemma DisciplinedExclusion(t: seq<Event>)
    requires Disciplined(Init, t)
    ensures MutualExclusion(Run(Init, t))
  {
    DisciplinedInv(Init, t);
    InvMutualExclusion(Run(Init, t));
  }

  // ---------------------------------------------------------------------------
  // FIFO order
  // ---------------------------------------------------------------------------

  /** `a` waits ahead of `b` in queue `q`. */
  predicate Ahead(q: seq<Caller>, a: Caller, b: Caller) {
    exists i, j :: 0 <= i < j < |q| && q[i] == a && q[j] == b
  }

  /** While `a` waits ahead of `b` on mutex `r`, `b` is not granted; once `a` is
      granted it stays granted. */
  predicate AheadOrGranted(s: Registry, r: Ref, a: Caller, b: Caller) {
    || (r < |s.heap| && Ahead(s.heap[r].queue, a, b) && b !in s.closures)
    || a in s.closures
  }

  lemma StepKeepsOrder(s: Registry, e: Event, r: Ref, a: Caller, b: Caller)
    requires Sound(s) && AheadOrGranted(s, r, a, b)
    ensures AheadOrGranted(Step(s, e), r, a, b)
  {
    if a !in s.closures {
      match e
      case Acq(g) => AcquireKeepsOrder(s, g, r, a, b);
      case Rel(c) => if c in s.closures { ReleaseKeepsOrder(s, c, r, a, b); }
      case DropGroup(g) =>
    }
  }

  /** A new acquirer is never placed ahead of anyone. */
  lemma AcquireKeepsOrder(s: Registry, g: GroupId, r: Ref, a: Caller, b: Caller)
    requires Sound(s) && r < |s.heap| && Ahead(s.heap[r].queue, a, b) && b !in s.closures
    ensures AheadOrGranted(Acquire(s, g).0, r, a, b)
  {
    var q := s.heap[r].queue;
    var i, j :| 0 <= i < j < |q| && q[i] == a && q[j] == b;
    var (s', c) := Acquire(s, g);
    assert c != b;
    var q' := s'.heap[r].queue;
    assert q' == q || q' == q + [c];
    assert q'[i] == a && q'[j] == b;
  }

  /** A release grants only the head of the releasing mutex's queue. */
  lemma ReleaseKeepsOrder(s: Registry, c: Caller, r: Ref, a: Caller, b: Caller)
    requires Sound(s) && c in s.closures
    requires r < |s.heap| && Ahead(s.heap[r].queue, a, b) && b !in s.closures
    ensures AheadOrGranted(Release(s, c), r, a, b)
  {
    var s' := Release(s, c);
    var q := s.heap[r].queue;
    var i, j :| 0 <= i < j < |q| && q[i] == a && q[j] == b;
    var rc := s.closures[c];
    var m := s.heap[rc];
    if rc == r && |m.queue| > 0 {
      if i == 0 {
        assert a in s'.closures;
      } else {
        assert s'.heap[r].queue == q[1..];
        assert q[1..][i - 1] == a && q[1..][j - 1] == b;
        assert b != q[0];
      }
    } else {
      assert s'.heap[r].queue == q;
      assert |m.queue| > 0 ==> m.queue[0] != b;
    }
  }

  /** Waiters of one mutex are granted in the order they queued: along any trace,
      if `a` waits ahead of `b`, then whenever `b` has been granted, so has `a`. */
  lemma {:induction false} FifoGrant(s: Registry, t: seq<Event>, r: Ref, a: Caller, b: Caller)
    requires Sound(s) && r < |s.heap| && Ahead(s.heap[r].queue, a, b)
    ensures var s' := Run(s, t); b in s'.closures ==> a in s'.closures
  {
    assert b !in s.closures by { var i, j :| 0 <= i < j < |s.heap[r].queue| && s.heap[r].queue[j] == b; }
    RunKeepsOrder(s, t, r, a, b);
  }

  lemma {:induction false} RunKeepsOrder(s: Registry, t: seq<Event>, r: Ref, a: Caller, b: Caller)
    requires Sound(s) && AheadOrGranted(s, r, a, b)
    ensures AheadOrGranted(Run(s, t), r, a, b)
    decreases |t|
  {
    if |t| > 0 {
      StepKeepsOrder(s, t[0], r, a, b);
      RunKeepsOrder(Step(s, t[0]), t[1..], r, a, b);
    }
  }

  // ---------------------------------------------------------------------------
  // Locality
  // ---------------------------------------------------------------------------

  /** The entry of group `h` and the mutex it names. */
  predicate SameEntry(s: Registry, s': Registry, h: GroupId)
    requires TableSound(s) && TableSound(s')
  {
    && (h in s.table <==> h in s'.table)
    && (h in s.table ==> s'.table[h] == s.table[h] && s'.heap[s'.table[h]] == s.heap[s.table[h]])
  }

  /** Every operation on group `g` leaves the entries of other groups alone. */
  lemma OtherGroupsUntouched(s: Registry, e: Event, h: GroupId)
    requires Sound(s)
    requires match e
      case Acq(g) => g != h
      case DropGroup(g) => g != h
      case Rel(c) => c in s.closures ==> s.heap[s.closures[c]].group != h
    ensures SameEntry(s, Step(s, e), h)
  {
  }

  // ---------------------------------------------------------------------------
  // No idle entries
  // ---------------------------------------------------------------------------

  /** Every registry entry names a locked mutex: an entry whose mutex is free
      (and so has nobody waiting) is deleted rather than kept. */
  predicate NoIdleEntry(s: Registry) {
    forall g :: g in s.table ==> s.table[g] < |s.heap| && s.heap[s.table[g]].locked
  }

  lemma StepKeepsNoIdleEntry(s: Registry, e: Event)
    requires Sound(s) && NoIdleEntry(s)
    ensures NoIdleEntry(Step(s, e))
  {
    var s' := Step(s, e);
    match e {
      case Acq(g) =>
      case Rel(c) =>
        if c in s.closures {
          var r := s.closures[c];
          forall h | h in s'.table
            ensures s'.table[h] < |s'.heap| && s'.heap[s'.table[h]].locked
          {
            assert h in s.table && s'.table[h] == s.table[h];
            if s.table[h] == r {
              assert s.heap[r].group == h;
            }
          }
        }
      case DropGroup(g) =>
    }
  }

  /** Along any trace the registry keeps no idle entry. */
  lemma {:induction false} RunKeepsNoIdleEntry(s: Registry, t: seq<Event>)
    requires Sound(s) && NoIdleEntry(s)
    ensures NoIdleEntry(Run(s, t))
    decreases |t|
  {
    if |t| > 0 {
      StepKeepsNoIdleEntry(s, t[0]);
      RunKeepsNoIdleEntry(Step(s, t[0]), t[1..]);
    }
  }

  lemma NoIdleEntryFromInit(t: seq<Event>)
    ensures NoIdleEntry(Run(Init, t))
  {
    RunKeepsNoIdleEntry(Init, t);
  }
}

/**
  What the call sites actually do with the lock, and a corrected lock that keeps
  mutual exclusion under any use.
 */
module LockUse {
  import opened Lock

  // The registries along the two traces below, for a group `g`.
  function Granted0(g: GroupId): Registry { Registry(map[g := 0], [Mutex(g, true, [])], map[0 := 0], {0}, 1) }
  function Waiting1(g: GroupId): Registry { Registry(map[g := 0], [Mutex(g, true, [1])], map[0 := 0], {0}, 2) }
  function HandedTo1(g: GroupId): Registry { Registry(map[g := 0], [Mutex(g, true, [])], map[0 := 0, 1 := 0], {1}, 2) }
  function Dropped(g: GroupId): Registry { Registry(map[], [Mutex(g, true, [])], map[0 := 0, 1 := 0], {1}, 2) }
  function Released(g: GroupId): Registry { Registry(map[], [Mutex(g, false, [])], map[0 := 0, 1 := 0], {1}, 2) }

  lemma FirstGranted(g: GroupId)
    ensures Step(Init, Acq(g)) == Granted0(g) && Sound(Granted0(g))
  {
  }

  lemma SecondWaits(g: GroupId)
    requires Sound(Granted0(g))
    ensures Step(Granted0(g), Acq(g)) == Waiting1(g) && Sound(Waiting1(g))
  {
    assert [] + [1] == [1];
    var s := Step(Granted0(g), Acq(g));
    assert |s.heap| == 1 && s.heap[0] == Mutex(g, true, [1]);
  }

  lemma HandOnToSecond(g: GroupId)
    requires Sound(Waiting1(g))
    ensures Step(Waiting1(g), Rel(0)) == HandedTo1(g) && Sound(HandedTo1(g))
  {
    var s := Step(Waiting1(g), Rel(0));
    assert [1][1..] == [];
    assert |s.heap| == 1 && s.heap[0] == Mutex(g, true, []);
  }

  lemma DropHeld(g: GroupId)
    requires Sound(HandedTo1(g))
    ensures Step(HandedTo1(g), DropGroup(g)) == Dropped(g) && Sound(Dropped(g))
  {
  }

  lemma ReleaseAgain(g: GroupId)
    requires Sound(HandedTo1(g))
    ensures Step(HandedTo1(g), Rel(0)) == Released(g) && Sound(Released(g))
  {
    var s := Step(HandedTo1(g), Rel(0));
    assert |s.heap| == 1 && s.heap[0] == Mutex(g, false, []);
  }

  /** With the group's entry gone, a new acquirer gets a fresh mutex while the
      old holder still holds the old one. */
  lemma FreshGrant(s: Registry, g: GroupId, c: Caller)
    requires Sound(s) && g !in s.table && Holds(s, c, g)
    ensures var s' := Step(s, Acq(g)); Holds(s', c, g) && Holds(s', s.next, g) && c != s.next
  {
  }

  /** The events of two overlapping turns on group `g` when the first turn ends
      as the call sites end it: closure, then `releaseGroupLock`. */
  function FinallyTrace(g: GroupId): seq<Event> {
    [Acq(g), Acq(g), Rel(0), DropGroup(g), Acq(g)]
  }

  /** The same, with the first turn calling its closure twice. */
  function TwiceTrace(g: GroupId): seq<Event> {
    [Acq(g), Acq(g), Rel(0), Rel(0), Acq(g)]
  }

  lemma FinallyTraceRun(g: GroupId)
    ensures Run(Init, FinallyTrace(g)) == Step(Dropped(g), Acq(g))
  {
    FirstGranted(g);
    SecondWaits(g);
    HandOnToSecond(g);
    DropHeld(g);
    RunLast(Init, FinallyTrace(g), [Granted0(g), Waiting1(g), HandedTo1(g), Dropped(g)]);
  }

  lemma TwiceTraceRun(g: GroupId)
    ensures Run(Init, TwiceTrace(g)) == Step(Released(g), Acq(g))
  {
    FirstGranted(g);
    SecondWaits(g);
    HandOnToSecond(g);
    ReleaseAgain(g);
    RunLast(Init, TwiceTrace(g), [Granted0(g), Waiting1(g), HandedTo1(g), Released(g)]);
  }

  /** Both turn handlers end with the release closure followed by
      `releaseGroupLock` for the same group. After the closure handed the mutex
      to a waiter, that delete removes the entry of a held lock, and the next
      acquirer gets a fresh, unlocked mutex: two holders for one group. */
  lemma FinallyBreaksExclusion(g: GroupId)
    ensures var s := Run(Init, FinallyTrace(g));
      Holds(s, 1, g) && Holds(s, 2, g) && !MutualExclusion(s)
  {
    FinallyTraceRun(g);
    DropHeld(g);
    FreshGrant(Dropped(g), g, 1);
  }

  /** The closure has no once-guard: a holder that calls it again after the lock
      was handed on unlocks the mutex under the new holder and deletes the entry,
      so the next acquirer is granted as well. */
  lemma SecondReleaseBreaksExclusion(g: GroupId)
    ensures var s := Run(Init, TwiceTrace(g));
      Holds(s, 1, g) && Holds(s, 2, g) && !MutualExclusion(s)
  {
    TwiceTraceRun(g);
    ReleaseAgain(g);
    FreshGrant(Released(g), g, 1);
  }

  /** A run through known intermediate registries ends one step after the last. */
  lemma {:induction false} RunLast(s: Registry, t: seq<Event>, mid: seq<Registry>)
    requires Sound(s) && |t| == |mid| + 1
    requires |mid| > 0 ==> Step(s, t[0]) == mid[0]
    requires forall k :: 0 <= k < |mid| - 1 ==> Sound(mid[k]) && Step(mid[k], t[k + 1]) == mid[k + 1]
    requires |mid| > 0 ==> Sound(mid[|mid| - 1])
    ensures |mid| == 0 ==> Run(s, t) == Step(s, t[0])
    ensures |mid| > 0 ==> Run(s, t) == Step(mid[|mid| - 1], t[|t| - 1])
    decreases |mid|
  {
    if |mid| == 0 {
      assert t[1..] == [];
    } else {
      RunLast(mid[0], t[1..], mid[1..]);
    }
  }

  /** The corrected closure: a call by a caller that no longer holds the lock does
      nothing. The contract only relates it to `Release`; what the guard buys is
      stated by `GuardedRunInv` and `GuardedExclusion`. */
  function ReleaseOnce(s: Registry, c: Caller): (s': Registry)
    requires Sound(s)
    ensures Sound(s')
    ensures c !in s.holding ==> s' == s
    ensures c in s.holding ==> s' == Release(s, c)
  {
    if c in s.holding then Release(s, c) else s
  }

  /** The corrected `releaseGroupLock`: only an entry whose mutex is unlocked with
      nobody waiting is deleted. As for `ReleaseOnce`, its meaning is in
      `GuardedRunInv` and `GuardedExclusion`. */
  function DropIdle(s: Registry, g: GroupId): (s': Registry)
    requires Sound(s)
    ensures Sound(s')
    ensures g in s.table && !s.heap[s.table[g]].locked && |s.heap[s.table[g]].queue| == 0 ==> s' == Drop(s, g)
    ensures !(g in s.table && !s.heap[s.table[g]].locked && |s.heap[s.table[g]].queue| == 0) ==> s' == s
  {
    if g in s.table && !s.heap[s.table[g]].locked && |s.heap[s.table[g]].queue| == 0 then Drop(s, g) else s
  }

  function GuardedStep(s: Registry, e: Event): (s': Registry)
    requires Sound(s)
    ensures Sound(s')
  {
    match e
    case Acq(g) => Acquire(s, g).0
    case Rel(c) => ReleaseOnce(s, c)
    case DropGroup(g) => DropIdle(s, g)
  }

  function GuardedRun(s: Registry, t: seq<Event>): (s': Registry)
    requires Sound(s)
    ensures Sound(s')
    decreases |t|
  {
    if |t| == 0 then s else GuardedRun(GuardedStep(s, t[0]), t[1..])
  }

  lemma DropIdleInv(s: Registry, g: GroupId)
    requires Inv(s)
    ensures Inv(DropIdle(s, g))
  {
    var s' := DropIdle(s, g);
    assert forall c :: c in s.holding ==> s.heap[s.closures[c]].group != g || s' == s;
  }

  lemma {:induction false} GuardedRunInv(s: Registry, t: seq<Event>)
    requires Inv(s)
    ensures Inv(GuardedRun(s, t))
    decreases |t|
  {
    if |t| > 0 {
      match t[0] {
        case Acq(g) => AcquireInv(s, g);
        case Rel(c) => if c in s.holding { ReleaseInv(s, c); }
        case DropGroup(g) => DropIdleInv(s, g);
      }
      GuardedRunInv(GuardedStep(s, t[0]), t[1..]);
    }
  }

  /** With the guarded closure and the idle-only delete, every trace, including
      the release-then-delete pattern of the call sites and repeated closure
      calls, keeps at most one holder per group. */
  lemma GuardedExclusion(t: seq<Event>)
    ensures MutualExclusion(GuardedRun(Init, t))
  {
    GuardedRunInv(Init, t);
    InvMutualExclusion(GuardedRun(Init, t));
  }
}
