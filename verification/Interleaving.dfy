/**
 Any number of processes at once, under the execution lock. Each has its own notes and does what the protocol
 allows it by them; the kernel grants the lock when nobody has it. Whatever the interleaving, what is done to the
 machine is a legal log: the protocol may be told one process at a time.
 */
module Interleaving {
  import opened Wrappers
  import opened Protocol
  import Safety

  datatype Act =
    | Enters(pid: nat, entry: Entry) | IsRefused(pid: nat) | Works(pid: nat, event: Event)
    | Leaves(pid: nat) | Dies(pid: nat)
    | Happens(event: Event)    // to the machine, with nobody inside

  /** The machine, the processes that are inside by their own account, and the lock as the kernel has it. */
  datatype Shared = Shared(sys: Sys, procs: map<nat, Proc>, holder: Option<nat>)

  predicate IsOutside(e: Event) {
    e.Booted? || e.Tampered? || e.OperatorCleared?
  }

  predicate IsWork(e: Event) {
    !IsOutside(e) && !e.Began? && !e.Ended?
  }

  /** The machine as process `p` knows it: with its own notes, whoever else may be at work. */
  function As(c: Shared, p: nat): Sys
    requires p in c.procs
  {
    c.sys.(proc := Some(c.procs[p]))
  }

  function After(c: Shared, a: Act): Shared {
    match a
    case Enters(p, entry) => c.(procs := c.procs[p := NewProc(entry)], holder := Some(p))
    case IsRefused(_) => c
    case Works(p, e) =>
      if p !in c.procs then c
      else
        var t := Next(As(c, p), e);
        c.(sys := t.(proc := None), procs := if t.proc.Some? then c.procs[p := t.proc.value] else c.procs)
    case Leaves(p) => Without(c, p)
    case Dies(p) => Without(c, p)
    case Happens(e) => c.(sys := Next(c.sys, e))
  }

  /** A process is gone; if it held the lock, the kernel drops it. */
  function Without(c: Shared, p: nat): Shared {
    c.(procs := c.procs - {p}, holder := if c.holder == Some(p) then None else c.holder)
  }

  /**
   What may happen next. The kernel grants a lock nobody holds. A process works and leaves only after it was
   granted the lock, as far as it knows; no process looks at what another does, or at who holds the lock.
   */
  ghost predicate May(c: Shared, a: Act) {
    match a
    case Enters(p, _) => c.holder.None? && p !in c.procs
    case IsRefused(p) => p !in c.procs
    case Works(p, e) => p in c.procs && IsWork(e) && OkIn(As(c, p), c.procs[p], e)
    case Leaves(p) => p in c.procs
    case Dies(_) => true
    case Happens(e) => IsOutside(e) && c.procs == map[] && Ok(c.sys, e)
  }

  function Run(c0: Shared, trace: seq<Act>, k: nat): Shared
    requires k <= |trace|
  {
    if k == 0 then c0 else After(Run(c0, trace, k - 1), trace[k - 1])
  }

  /** Every act was possible when it took place. */
  ghost predicate Feasible(c0: Shared, trace: seq<Act>) {
    && Start(c0.sys) && c0.procs == map[] && c0.holder.None?
    && forall k | 0 <= k < |trace| :: MayAt(c0, trace, k)
  }

  ghost predicate MayAt(c0: Shared, trace: seq<Act>, k: nat)
    requires k < |trace|
  {
    May(Run(c0, trace, k), trace[k])
  }

  // ------------------------------------------------------------ one at a time

  /** Nobody is inside but the holder of the lock. */
  predicate Alone(c: Shared) {
    && c.sys.proc.None?
    && c.procs.Keys == if c.holder.Some? then {c.holder.value} else {}
  }

  /** The machine with the one process that is inside. */
  function Merged(c: Shared): Sys
    requires Alone(c)
  {
    c.sys.(proc := if c.holder.Some? then Some(c.procs[c.holder.value]) else None)
  }

  /** What an act is in the protocol. */
  function Told(c: Shared, a: Act): seq<Event> {
    match a
    case Enters(_, entry) => [Began(entry)]
    case IsRefused(_) => []
    case Works(_, e) => [e]
    case Leaves(_) => [Ended(false)]
    case Dies(p) => if p in c.procs then [Ended(true)] else []
    case Happens(e) => [e]
  }

  /** The log of an interleaving. */
  function Story(c0: Shared, trace: seq<Act>, k: nat): seq<Event>
    requires k <= |trace|
  {
    if k == 0 then [] else Story(c0, trace, k - 1) + Told(Run(c0, trace, k - 1), trace[k - 1])
  }

  lemma StillInside(s: Sys, e: Event)
    requires s.proc.Some? && IsWork(e)
    ensures Next(s, e).proc.Some? && s == s.(proc := Some(s.proc.value))
  {
    hide NextProc;
  }

  /** An act of whoever it may be is what the protocol allows the one process that is inside. */
  lemma OneAct(c: Shared, a: Act)
    requires Alone(c) && May(c, a)
    ensures Alone(After(c, a))
    ensures Told(c, a) == [] ==> Same(Merged(After(c, a)), Merged(c))
    ensures Told(c, a) != [] ==>
      && |Told(c, a)| == 1 && Ok(Merged(c), Told(c, a)[0])
      && Same(Next(Merged(c), Told(c, a)[0]), Merged(After(c, a)))
  {
    if a.Works? {
      hide Next, OkIn;
    } else if a.Happens? {
      hide OkIn, NextIn;
      assert Merged(c) == c.sys;
    } else {
      hide OkIn, NextIn;
    }
  }

  /** Whatever the interleaving, it is, under the lock, a legal log of one process after another. */
  lemma {:induction false} Serializable(c0: Shared, trace: seq<Act>, k: nat)
    requires Feasible(c0, trace) && k <= |trace|
    ensures Alone(Run(c0, trace, k)) && Legal(c0.sys, Story(c0, trace, k))
    ensures Same(At(c0.sys, Story(c0, trace, k), |Story(c0, trace, k)|), Merged(Run(c0, trace, k)))
  {
    hide Start, Ok, Next, May, After, Told;
    if k == 0 {
      StartsAlone(c0);
    } else {
      Serializable(c0, trace, k - 1);
      var c, a := Run(c0, trace, k - 1), trace[k - 1];
      assert MayAt(c0, trace, k - 1);
      OneAct(c, a);
      var log := Story(c0, trace, k - 1);
      if Told(c, a) == [] {
        assert Story(c0, trace, k) == log;
      } else {
        assert Story(c0, trace, k) == log + [Told(c, a)[0]];
        LegalAppend(c0.sys, log, Told(c, a)[0]);
      }
    }
  }

  lemma StartsAlone(c0: Shared)
    requires Start(c0.sys) && c0.procs == map[] && c0.holder.None?
    ensures Alone(c0) && Merged(c0) == c0.sys
  {
  }

  /** Two processes are never inside together: who enters finds nobody, who works has it to itself. */
  lemma MutualExclusion(c0: Shared, trace: seq<Act>, k: nat)
    requires Feasible(c0, trace) && k < |trace|
    ensures trace[k].Enters? ==> Run(c0, trace, k).procs == map[]
    ensures trace[k].Works? ==>
      Run(c0, trace, k).procs.Keys == {trace[k].pid} && Run(c0, trace, k).holder == Some(trace[k].pid)
  {
    hide Start, Ok, Next, OkIn, Run;
    Serializable(c0, trace, k);
    assert MayAt(c0, trace, k);
  }

  /** From `i` on `p` is inside, and the acts up to `j` neither take it out nor bring anyone else in. */
  ghost predicate Session(trace: seq<Act>, i: nat, j: nat, p: nat)
    requires i < j <= |trace|
  {
    && trace[i].Enters? && trace[i].pid == p
    && forall m | i < m < j :: !trace[m].Enters? && trace[m] != Leaves(p) && trace[m] != Dies(p) && !trace[m].Happens?
                               && (trace[m].Works? || trace[m].Leaves? ==> trace[m].pid == p)
  }

  /** Whoever holds the lock entered once and has had it to itself since. */
  lemma {:induction false} HolderHasSession(c0: Shared, trace: seq<Act>, k: nat)
    requires Feasible(c0, trace) && k <= |trace| && Run(c0, trace, k).holder.Some?
    ensures exists i | 0 <= i < k :: Session(trace, i, k, Run(c0, trace, k).holder.value)
  {
    hide Start, Ok, Next, OkIn, Merged, Story, Legal, At;
    var p := Run(c0, trace, k).holder.value;
    assert MayAt(c0, trace, k - 1);
    Serializable(c0, trace, k - 1);
    if trace[k - 1].Enters? {
      assert Session(trace, k - 1, k, p);
    } else {
      HolderHasSession(c0, trace, k - 1);
      var i :| 0 <= i < k - 1 && Session(trace, i, k - 1, p);
      assert Session(trace, i, k, p);
    }
  }

  /** All work is done inside one uninterrupted session of its process. */
  lemma WorkIsSequential(c0: Shared, trace: seq<Act>, k: nat)
    requires Feasible(c0, trace) && k < |trace| && trace[k].Works?
    ensures exists i | 0 <= i < k :: Session(trace, i, k, trace[k].pid)
  {
    hide Feasible, Run, Session;
    MutualExclusion(c0, trace, k);
    HolderHasSession(c0, trace, k);
  }

  /** Every theorem about legal logs is one about interleavings; the reboot budget, for one. */
  lemma BudgetUnderTheLock(c0: Shared, trace: seq<Act>, k: nat, r: string)
    requires Feasible(c0, trace) && k <= |trace|
    ensures var log := Story(c0, trace, k); Safety.Count(log, |log|, RebootCalled(r)) <= 2 * c0.sys.maxAttempts
  {
    hide Feasible, Run, Legal, At, Story;
    Serializable(c0, trace, k);
    Safety.RebootBudget(c0.sys, Story(c0, trace, k), |Story(c0, trace, k)|, r);
  }
}
