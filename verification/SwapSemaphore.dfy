/** The swap mutex of the paging machine is a semaphore of the nucleus: value and queue move alike. */
module SwapSemaphore {
  import opened Queues
  import opened NucleusSpec
  import opened Invariant
  import opened Runs
  import opened Semaphores
  import Pager

  /** The paging machine's names of the processes in a queue of the nucleus. */
  function Image(w: seq<nat>, who: map<nat, Pager.Proc>): (r: seq<Pager.Proc>)
    requires forall q :: q in w ==> q in who
    ensures |r| == |w|
  {
    seq(|w|, i requires 0 <= i < |w| => assert w[i] in w; who[w[i]])
  }

  /** The semaphore at `s` has the value and the queue that the paging machine keeps. */
  ghost predicate Mirrors(v: Pager.Vm, k: Kernel, s: int, who: map<nat, Pager.Proc>) {
    && v.sem == Val(k, s)
    && (forall q :: q in Waiters(k.asl, s) ==> q in who)
    && v.queue == Image(Waiters(k.asl, s), who)
  }

  lemma ImageJoin(w: seq<nat>, p: nat, who: map<nat, Pager.Proc>)
    requires p in who && forall q :: q in w ==> q in who
    ensures Image(w + [p], who) == Image(w, who) + [who[p]]
  {
  }

  lemma ImageTail(w: seq<nat>, who: map<nat, Pager.Proc>)
    requires w != [] && forall q :: q in w ==> q in who
    ensures (forall q :: q in w[1..] ==> q in who) && Image(w[1..], who) == Image(w, who)[1..]
  {
  }

  /** NSYS3 on the semaphore is Acquire. */
  lemma PassIsAcquire(v: Pager.Vm, k: Kernel, m: Moment, s: int, who: map<nat, Pager.Proc>, wait: Pager.Pc, enter: Pager.Pc)
    requires Inv(k) && Enabled(k, m) && m.e == NSys3(s) && Mirrors(v, k, s, who) && k.curr.value in who
    ensures Mirrors(Pager.Acquire(v, who[k.curr.value], wait, enter), Step(k, m), s, who)
  {
    QueueStep(k, m, s);
    NoVictims(k, m.e, s);
    ImageJoin(Waiters(k.asl, s), k.curr.value, who);
  }

  /** NSYS4 on the semaphore is Free, and the process it wakes is the one Free lets in. */
  lemma SignalIsFree(v: Pager.Vm, k: Kernel, m: Moment, s: int, who: map<nat, Pager.Proc>)
    requires Inv(k) && Enabled(k, m) && m.e == NSys4(s) && Mirrors(v, k, s, who)
    ensures Mirrors(Pager.Free(v), Step(k, m), s, who)
    ensures |v.queue| == |Waiters(k.asl, s)|
    ensures v.queue != [] ==> Waiters(k.asl, s)[0] in who && Pager.Free(v).owner == Some(who[Waiters(k.asl, s)[0]])
  {
    QueueStep(k, m, s);
    NoVictims(k, m.e, s);
    var w := Waiters(k.asl, s);
    if w != [] {
      assert w[0] in w;
      ImageTail(w, who);
    }
  }

  /** Every other event that terminates none of its waiters leaves it alone. */
  lemma OthersKeep(v: Pager.Vm, k: Kernel, m: Moment, s: int, who: map<nat, Pager.Proc>)
    requires Inv(k) && Enabled(k, m) && m.e != NSys3(s) && m.e != NSys4(s) && Mirrors(v, k, s, who)
    requires !IsDevice(k.devs, s) && Guard(k, m.e) && forall q :: q in Waiters(k.asl, s) ==> q !in Victims(k, m.e)
    ensures Mirrors(v, Step(k, m), s, who)
  {
    QueueStep(k, m, s);
    NotSignalled(k, m, s);
    WithoutNone(Waiters(k.asl, s), Victims(k, m.e));
    assert !Joins(k, m.e, s);
  }
}
