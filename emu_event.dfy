/**
 * The half-cycle event scheduler (`c64_emu/event.rs`): a master clock
 * with its PHI1/PHI2 phase, and a queue of scheduled callbacks that fire
 * in ascending (time, id) order once their time has come. The callbacks
 * themselves are opaque here: an entry carries an action number, and a
 * tick reports the entries it ran, in the order it ran them.
 */
module EmuEvent {
  import opened Common

  /** The two halves of a cycle: PHI1 (0) and PHI2 (1). */
  datatype Phase = Phi1 | Phi2

  /** The numeric value of a phase, as it enters the clock arithmetic. */
  function PhaseValue(p: Phase): int
  {
    if p == Phi1 then 0 else 1
  }

  /** The phase of the next half-cycle. */
  function Flip(p: Phase): Phase
  {
    if p == Phi1 then Phi2 else Phi1
  }

  /** A queue entry; `action` is `None` once the entry is cancelled. */
  datatype Scheduled = Scheduled(fireAt: int, id: nat, action: Option<nat>)

  /** The heap order: earlier time first, then lower id. */
  predicate KeyLe(a: Scheduled, b: Scheduled)
  {
    a.fireAt < b.fireAt || (a.fireAt == b.fireAt && a.id <= b.id)
  }

  /** A run of entries in heap order. */
  predicate Sorted(s: seq<Scheduled>)
  {
    forall i, j :: 0 <= i < j < |s| ==> KeyLe(s[i], s[j])
  }

  // ---------------------------------------------------------------------------
  //  Selecting entries
  // ---------------------------------------------------------------------------

  /** The entries of `s` that satisfy `f`, in their order. */
  function Keep(s: seq<Scheduled>, f: Scheduled -> bool): seq<Scheduled>
  {
    if s == [] then [] else (if f(s[0]) then [s[0]] else []) + Keep(s[1..], f)
  }

  /** The entries whose time has come at `t`. */
  function Due(s: seq<Scheduled>, t: int): seq<Scheduled>
  {
    Keep(s, (e: Scheduled) => e.fireAt <= t)
  }

  /** The entries still waiting at `t`. */
  function Later(s: seq<Scheduled>, t: int): seq<Scheduled>
  {
    Keep(s, (e: Scheduled) => e.fireAt > t)
  }

  /** The entries that have not been cancelled. */
  function Live(s: seq<Scheduled>): seq<Scheduled>
  {
    Keep(s, (e: Scheduled) => e.action.Some?)
  }

  /** Keeping by `f` keeps every copy of a selected entry and no copy of another. */
  lemma {:induction false} KeepCount(s: seq<Scheduled>, f: Scheduled -> bool, x: Scheduled)
    ensures multiset(Keep(s, f))[x] == if f(x) then multiset(s)[x] else 0
  {
    if s != [] {
      KeepCount(s[1..], f, x);
      assert s == [s[0]] + s[1..];
    }
  }

  /** What is kept comes from `s` and satisfies `f`. */
  lemma {:induction false} KeepIn(s: seq<Scheduled>, f: Scheduled -> bool)
    ensures forall e :: e in Keep(s, f) ==> e in s && f(e)
  {
    if s != [] {
      KeepIn(s[1..], f);
    }
  }

  /** Keeping part of a run in heap order leaves it in heap order. */
  lemma {:induction false} KeepSorted(s: seq<Scheduled>, f: Scheduled -> bool)
    requires Sorted(s)
    ensures Sorted(Keep(s, f))
  {
    if s != [] {
      KeepSorted(s[1..], f);
      KeepIn(s[1..], f);
      var r := Keep(s[1..], f);
      if f(s[0]) {
        forall i, j | 0 <= i < j < |[s[0]] + r|
          ensures KeyLe(([s[0]] + r)[i], ([s[0]] + r)[j])
        {
          if i == 0 {
            var x := r[j - 1];
            assert x in s[1..];
            var k :| 0 <= k < |s[1..]| && s[1..][k] == x;
            assert s[k + 1] == x;
          } else {
            assert ([s[0]] + r)[i] == r[i - 1] && ([s[0]] + r)[j] == r[j - 1];
          }
        }
      }
    }
  }

  /** Entries with equal multisets keep equal multisets. */
  lemma KeepMultiset(a: seq<Scheduled>, b: seq<Scheduled>, f: Scheduled -> bool)
    requires multiset(a) == multiset(b)
    ensures multiset(Keep(a, f)) == multiset(Keep(b, f))
  {
    forall x
      ensures multiset(Keep(a, f))[x] == multiset(Keep(b, f))[x]
    {
      KeepCount(a, f, x);
      KeepCount(b, f, x);
    }
  }

  /**
   * A split of `s` into entries due at `t` and entries still waiting is
   * the split `Due`/`Later` makes.
   */
  lemma Partition(s: seq<Scheduled>, due: seq<Scheduled>, later: seq<Scheduled>, t: int)
    requires multiset(due) + multiset(later) == multiset(s)
    requires forall e :: e in due ==> e.fireAt <= t
    requires forall e :: e in later ==> e.fireAt > t
    ensures multiset(due) == multiset(Due(s, t))
    ensures multiset(later) == multiset(Later(s, t))
  {
    forall x
      ensures multiset(due)[x] == multiset(Due(s, t))[x] && multiset(later)[x] == multiset(Later(s, t))[x]
    {
      KeepCount(s, (e: Scheduled) => e.fireAt <= t, x);
      KeepCount(s, (e: Scheduled) => e.fireAt > t, x);
      if x.fireAt <= t {
        assert x !in later;
      } else {
        assert x !in due;
      }
    }
  }

  /** The position of the heap's top: an entry no other entry precedes. */
  function MinIndex(q: seq<Scheduled>): (i: nat)
    requires |q| > 0
    ensures i < |q|
    ensures forall j :: 0 <= j < |q| ==> KeyLe(q[i], q[j])
  {
    if |q| == 1 then 0
    else
      var k := MinIndex(q[1..]);
      if KeyLe(q[0], q[1..][k]) then 0 else k + 1
  }

  // ---------------------------------------------------------------------------
  //  The scheduler
  // ---------------------------------------------------------------------------

  class EventContext {
    var clock: int
    var phase: Phase
    var nextId: nat
    var queue: seq<Scheduled>

    /**
     * The clock starts at 0 in PHI1 and moves one half-cycle at a time,
     * so the phase is the clock's parity; every queued id was handed out.
     */
    predicate Valid()
      reads this
    {
      clock >= 0 && PhaseValue(phase) == clock % 2 &&
      forall e :: e in queue ==> e.id < nextId
    }

    /** `new`: clock 0 in PHI1, no ids handed out, nothing queued. */
    constructor ()
      ensures Valid() && clock == 0 && phase == Phi1 && nextId == 0 && queue == []
    {
      clock, phase, nextId, queue := 0, Phi1, 0, [];
    }

    /** `get_time`: the half-cycle count on the edge of phase `p`. */
    function GetTime(p: Phase): int
      reads this
    {
      clock + PhaseValue(phase) - PhaseValue(p)
    }

    /** `phi2_time`: the clock itself in PHI2, one behind in PHI1. */
    function Phi2Time(): (t: int)
      reads this
      ensures phase == Phi2 ==> t == clock
      ensures phase == Phi1 ==> t == clock - 1
    {
      GetTime(Phi2)
    }

    /** `is_pending`: some live entry carries the id. */
    predicate IsPending(target: nat)
      reads this
    {
      exists e :: e in queue && e.id == target && e.action.Some?
    }

    /**
     * `schedule`: the next id, never handed out before, names a live
     * entry that fires `delay` half-cycles from now, moved to the edge of
     * `p`.
     */
    method Schedule(delay: int, p: Phase, action: nat) returns (id: nat)
      requires Valid()
      modifies this`nextId, this`queue
      ensures Valid()
      ensures id == old(nextId) && nextId == id + 1
      ensures forall e :: e in old(queue) ==> e.id < id
      ensures queue == old(queue) + [Scheduled(clock + delay + PhaseValue(p) - PhaseValue(phase), id, Some(action))]
      ensures IsPending(id)
    {
      id := nextId;
      nextId := nextId + 1;
      var entry := Scheduled(clock + delay + PhaseValue(p) - PhaseValue(phase), id, Some(action));
      queue := queue + [entry];
      assert entry in queue;
    }

    /**
     * `cancel`: every entry with the id goes dead and stays queued; the
     * other entries are untouched.
     */
    method Cancel(target: nat)
      requires Valid()
      modifies this`queue
      ensures Valid() && !IsPending(target)
      ensures |queue| == |old(queue)|
      ensures forall i :: 0 <= i < |queue| ==>
        queue[i] == if old(queue)[i].id == target then old(queue)[i].(action := None) else old(queue)[i]
    {
      var q := queue;
      var i := 0;
      while i < |q|
        invariant 0 <= i <= |q| && |q| == |queue|
        invariant forall k :: 0 <= k < |q| ==>
          q[k] == if k < i && queue[k].id == target then queue[k].(action := None) else queue[k]
      {
        if q[i].id == target {
          q := q[i := q[i].(action := None)];
        }
        i := i + 1;
      }
      queue := q;
      assert forall e :: e in q ==> e.id != target || e.action.None?;
    }

    /**
     * `clock_tick`: one half-cycle on, the phase flipped; every entry now
     * due leaves the queue, the live ones run in heap order (cancelled
     * ones are dropped unrun), nothing later runs or leaves, and the tick
     * reports whether anything ran.
     */
    method ClockTick() returns (fired: bool, ran: seq<Scheduled>)
      requires Valid()
      modifies this`clock, this`phase, this`queue
      ensures Valid()
      ensures clock == old(clock) + 1 && phase == Flip(old(phase))
      ensures multiset(queue) == multiset(Later(old(queue), clock))
      ensures multiset(ran) == multiset(Live(Due(old(queue), clock)))
      ensures Sorted(ran)
      ensures forall e :: e in ran ==> e.action.Some? && e.fireAt <= clock
      ensures forall e :: e in queue ==> e.fireAt > clock
      ensures fired <==> |ran| > 0
    {
      FlipParity(phase, clock);
      var rest;
      rest, fired, ran := Drain(queue, clock + 1);
      clock, phase, queue := clock + 1, Flip(phase), rest;
    }

    /** `reset`: clock 0 in PHI1 and an empty queue; ids keep counting. */
    method Reset()
      modifies this`clock, this`phase, this`queue
      ensures Valid() && clock == 0 && phase == Phi1 && queue == []
    {
      clock, phase, queue := 0, Phi1, [];
    }
  }

  /**
   * The loop of `clock_tick` at time `t`: pop the heap's top while it is
   * due, running it when it is live.
   */
  method Drain(q0: seq<Scheduled>, t: int) returns (q: seq<Scheduled>, fired: bool, ran: seq<Scheduled>)
    ensures multiset(q) == multiset(Later(q0, t))
    ensures multiset(ran) == multiset(Live(Due(q0, t)))
    ensures Sorted(ran)
    ensures forall e :: e in ran ==> e.action.Some? && e.fireAt <= t
    ensures forall e :: e in q ==> e in q0 && e.fireAt > t
    ensures fired <==> |ran| > 0
  {
    q := q0;
    ghost var popped: seq<Scheduled> := [];
    fired, ran := false, [];
    while true
      invariant Draining(q0, q, popped, t) && ran == Live(popped)
      invariant fired <==> |ran| > 0
      decreases |q|
    {
      if |q| == 0 {
        break;
      }
      var i := MinIndex(q);
      var e := q[i];
      if e.fireAt > t {
        TopWaits(q, i, t);
        break;
      }
      PopStep(q0, q, popped, i, t);
      LiveAppend(popped, e);
      q := q[..i] + q[i + 1..];
      popped := popped + [e];
      if e.action.Some? {
        ran := ran + [e];
        fired := true;
      }
    }
    Drained(q0, q, popped, t);
  }

  /**
   * Part way through a tick at time `t`: the entries popped so far and
   * those left make up the original queue, every popped one was due, none
   * follows one left, and they were popped in heap order.
   */
  predicate Draining(q0: seq<Scheduled>, q: seq<Scheduled>, popped: seq<Scheduled>, t: int)
  {
    multiset(q) + multiset(popped) == multiset(q0) &&
    (forall k :: 0 <= k < |popped| ==> popped[k].fireAt <= t) &&
    (forall k, m :: 0 <= k < |popped| && 0 <= m < |q| ==> KeyLe(popped[k], q[m])) &&
    Sorted(popped)
  }

  /** Popping the due top of the heap keeps `Draining`. */
  lemma PopStep(q0: seq<Scheduled>, q: seq<Scheduled>, popped: seq<Scheduled>, i: nat, t: int)
    requires Draining(q0, q, popped, t) && |q| > 0 && i == MinIndex(q) && q[i].fireAt <= t
    ensures Draining(q0, q[..i] + q[i + 1..], popped + [q[i]], t)
  {
    var rest := q[..i] + q[i + 1..];
    RemoveAt(q, rest, i);
    PopOrder(q, rest, popped, i);
  }

  /** Removing position `i` takes one copy of `q[i]` out and shifts the tail down. */
  lemma RemoveAt(q: seq<Scheduled>, rest: seq<Scheduled>, i: nat)
    requires i < |q| && rest == q[..i] + q[i + 1..]
    ensures multiset(q) == multiset(rest) + multiset{q[i]}
    ensures forall m :: 0 <= m < i ==> rest[m] == q[m]
    ensures forall m :: i <= m < |rest| ==> rest[m] == q[m + 1]
  {
    assert q == q[..i] + [q[i]] + q[i + 1..];
  }

  /** The top joins the popped run at its end and precedes everything left. */
  lemma PopOrder(q: seq<Scheduled>, rest: seq<Scheduled>, popped: seq<Scheduled>, i: nat)
    requires |q| > 0 && i == MinIndex(q) && Sorted(popped) && |rest| == |q| - 1
    requires forall k, m :: 0 <= k < |popped| && 0 <= m < |q| ==> KeyLe(popped[k], q[m])
    requires forall m :: 0 <= m < i ==> rest[m] == q[m]
    requires forall m :: i <= m < |rest| ==> rest[m] == q[m + 1]
    ensures Sorted(popped + [q[i]])
    ensures forall k, m :: 0 <= k < |popped| + 1 && 0 <= m < |rest| ==> KeyLe((popped + [q[i]])[k], rest[m])
  {
    var e := q[i];
    var p := popped + [e];
    forall x | x in popped
      ensures KeyLe(x, e)
    {
      var k :| 0 <= k < |popped| && popped[k] == x;
    }
    PopKeepsOrder(popped, e);
    forall k, m | 0 <= k < |p| && 0 <= m < |rest|
      ensures KeyLe(p[k], rest[m])
    {
      if m < i {
        assert rest[m] == q[m];
      } else {
        assert rest[m] == q[m + 1];
      }
    }
  }

  /** Each flip moves the phase along with the clock's parity. */
  lemma FlipParity(p: Phase, c: int)
    requires PhaseValue(p) == c % 2
    ensures PhaseValue(Flip(p)) == (c + 1) % 2
  {
  }

  /** When the heap's top still waits, everything waits. */
  lemma TopWaits(q: seq<Scheduled>, i: nat, t: int)
    requires |q| > 0 && i == MinIndex(q) && q[i].fireAt > t
    ensures forall x :: x in q ==> x.fireAt > t
  {
    forall x | x in q
      ensures x.fireAt > t
    {
      var j :| 0 <= j < |q| && q[j] == x;
    }
  }

  /**
   * A finished tick: what is left is exactly what waits, what was popped
   * is exactly what was due, and the live part of it is in heap order.
   */
  lemma Drained(q0: seq<Scheduled>, q: seq<Scheduled>, popped: seq<Scheduled>, t: int)
    requires Draining(q0, q, popped, t)
    requires forall x :: x in q ==> x.fireAt > t
    ensures multiset(q) == multiset(Later(q0, t))
    ensures multiset(Live(popped)) == multiset(Live(Due(q0, t)))
    ensures Sorted(Live(popped))
    ensures forall e :: e in Live(popped) ==> e.action.Some? && e.fireAt <= t
    ensures forall x :: x in q ==> x in q0
  {
    KeepIn(popped, (e: Scheduled) => e.action.Some?);
    forall e | e in popped
      ensures e.fireAt <= t
    {
      var k :| 0 <= k < |popped| && popped[k] == e;
    }
    Partition(q0, popped, q, t);
    KeepMultiset(popped, Due(q0, t), (e: Scheduled) => e.action.Some?);
    KeepSorted(popped, (e: Scheduled) => e.action.Some?);
    forall x | x in q
      ensures x in q0
    {
      assert multiset(q)[x] > 0;
      assert multiset(q0)[x] > 0;
    }
  }

  /** Appending the heap's top to a run in heap order keeps it in heap order. */
  lemma PopKeepsOrder(popped: seq<Scheduled>, e: Scheduled)
    requires Sorted(popped) && forall x :: x in popped ==> KeyLe(x, e)
    ensures Sorted(popped + [e])
  {
    forall i, j | 0 <= i < j < |popped + [e]|
      ensures KeyLe((popped + [e])[i], (popped + [e])[j])
    {
      if j == |popped| {
        assert (popped + [e])[i] in popped;
      }
    }
  }

  /** The live entries of a run grow by the appended entry when it is live. */
  lemma LiveAppend(s: seq<Scheduled>, e: Scheduled)
    ensures Live(s + [e]) == Live(s) + (if e.action.Some? then [e] else [])
  {
    KeepAppend(s, e, (x: Scheduled) => x.action.Some?);
  }

  lemma {:induction false} KeepAppend(s: seq<Scheduled>, e: Scheduled, f: Scheduled -> bool)
    ensures Keep(s + [e], f) == Keep(s, f) + (if f(e) then [e] else [])
  {
    if s == [] {
      assert [e][1..] == [];
    } else {
      assert (s + [e])[1..] == s[1..] + [e];
      KeepAppend(s[1..], e, f);
    }
  }
}
