/** The handshake between the shell and the programs it launches: EXECUTE creates a U-proc and
    then performs P on shellSemaphore; a program's TERMINATE performs V on it and goes on to free
    its frames. Any number of signalled programs may still be cleaning up. */
module Shell {

  datatype At = Idle | Launched | Blocked | Done

  /** `running` are the launched programs that have not signalled, `tails` those that have but
      are not gone; the counters are of launches, of signals and of EXECUTEs that returned. */
  datatype State = State(at: At, sem: int, running: multiset<int>, tails: multiset<int>,
                         launches: nat, signals: nat, answered: nat)

  const SHELL_ASID := 1
  const UPROCMAX := 8

  /** Execute with the process created or not, the shell's P, its exit, a program's V, its end. */
  datatype Act = Execute(asid: int, created: bool) | Wait | ShellExit | Signal(asid: int) | Finish(asid: int)

  predicate Enabled(s: State, act: Act) {
    match act
    case Execute(_, _) => s.at == Idle
    case Wait => s.at == Launched
    case ShellExit => s.at == Idle
    case Signal(asid) => asid in s.running
    case Finish(asid) => asid in s.tails
  }

  /** sys6 refuses ASIDs out of range and the shell's own, and dies if no process is left. */
  function Step(s: State, act: Act): State
    requires Enabled(s, act)
  {
    match act
    case Execute(asid, created) =>
      if asid <= 0 || asid > UPROCMAX || asid == SHELL_ASID || !created then s.(at := Done)
      else s.(at := Launched, running := s.running + multiset{asid}, launches := s.launches + 1)
    case Wait =>
      if s.sem > 0 then s.(at := Idle, sem := s.sem - 1, answered := s.answered + 1) else s.(at := Blocked)
    case ShellExit => s.(at := Done)
    case Signal(asid) =>
      var s1 := s.(running := s.running - multiset{asid}, tails := s.tails + multiset{asid}, signals := s.signals + 1);
      if s.at == Blocked then s1.(at := Idle, answered := s.answered + 1) else s1.(sem := s.sem + 1)
    case Finish(asid) => s.(tails := s.tails - multiset{asid})
  }

  ghost predicate Inv(s: State) {
    && s.sem >= 0
    && |s.running| + s.sem == (if s.at == Launched || s.at == Blocked then 1 else 0)
    && (s.at == Blocked ==> s.sem == 0)
    && s.launches == s.signals + |s.running|
    && s.signals == s.answered + s.sem
  }

  predicate Possible(s: State, acts: seq<Act>)
    decreases |acts|
  {
    acts == [] || (Enabled(s, acts[0]) && Possible(Step(s, acts[0]), acts[1..]))
  }

  function Run(s: State, acts: seq<Act>): State
    requires Possible(s, acts)
    decreases |acts|
  {
    if acts == [] then s else Run(Step(s, acts[0]), acts[1..])
  }

  lemma StepInv(s: State, act: Act)
    requires Inv(s) && Enabled(s, act)
    ensures Inv(Step(s, act))
  {
    if act.Signal? {
      assert s.running == (s.running - multiset{act.asid}) + multiset{act.asid};
    }
  }

  /** In every interleaving: the semaphore is 0 or 1, at most one launched program has not
      signalled, every EXECUTE that returned consumed a signal of its own, and the shell waits
      only while the one program it launched is still to signal. */
  lemma {:induction false} Handshake(s: State, acts: seq<Act>)
    requires Inv(s) && Possible(s, acts)
    ensures var r := Run(s, acts);
            && Inv(r)
            && 0 <= r.sem <= 1 && |r.running| <= 1
            && r.signals == r.answered + r.sem && r.launches <= r.answered + 1
            && (r.at == Blocked ==> |r.running| == 1)
            && (r.at == Idle || r.at == Done ==> |r.running| == 0 && r.launches == r.answered)
    decreases |acts|
  {
    if acts != [] {
      StepInv(s, acts[0]);
      Handshake(Step(s, acts[0]), acts[1..]);
    }
  }

  /** A signalled program may overlap its successor with the same ASID: between its V and its end
      the shell can launch that ASID again. */
  lemma SameAsidTwice(asid: int)
    requires 1 < asid <= UPROCMAX
    ensures var s := State(Idle, 0, multiset{}, multiset{}, 0, 0, 0);
            var acts := [Execute(asid, true)] + ([Signal(asid)] + ([Wait] + [Execute(asid, true)]));
            Inv(s) && Possible(s, acts) && asid in Run(s, acts).running && asid in Run(s, acts).tails
  {
    var s0 := State(Idle, 0, multiset{}, multiset{}, 0, 0, 0);
    var last := [Execute(asid, true)];
    var a3 := [Wait] + last;
    var a2 := [Signal(asid)] + a3;
    var a1 := [Execute(asid, true)] + a2;
    var s1 := Step(s0, Execute(asid, true));
    var s2 := Step(s1, Signal(asid));
    var s3 := Step(s2, Wait);
    assert last[1..] == [] && a3[1..] == last && a2[1..] == a3 && a1[1..] == a2;
    assert Possible(s3, last) && Run(s3, last) == Step(s3, Execute(asid, true));
    assert Possible(s2, a3) && Run(s2, a3) == Run(s3, last);
    assert Possible(s1, a2) && Run(s1, a2) == Run(s2, a3);
  }

  /** EXECUTE starts a program exactly for the ASIDs 2 to 8, if the nucleus has a process left; any
      other request starts nobody, signals nobody and ends the shell. */
  lemma Refusals(s: State, asid: int, created: bool)
    requires Enabled(s, Execute(asid, created))
    ensures var s' := Step(s, Execute(asid, created));
            if 2 <= asid <= 8 && created
            then s' == s.(at := Launched, running := s.running + multiset{asid}, launches := s.launches + 1)
            else s' == s.(at := Done)
  {
  }

  /** The number of programs with this ASID the run starts. */
  function Started(s: State, acts: seq<Act>, asid: int): nat
    requires Possible(s, acts)
    decreases |acts|
  {
    if acts == [] then 0
    else (if acts[0] == Execute(asid, true) && 2 <= asid <= 8 then 1 else 0) + Started(Step(s, acts[0]), acts[1..], asid)
  }

  function Count(acts: seq<Act>, act: Act): nat {
    if acts == [] then 0 else (if acts[0] == act then 1 else 0) + Count(acts[1..], act)
  }

  /** Program by program: those running are those started and not signalled, those cleaning up are
      those that signalled and have not finished. */
  lemma {:induction false} Programs(s: State, acts: seq<Act>, asid: int)
    requires Possible(s, acts)
    ensures Run(s, acts).running[asid] == s.running[asid] + Started(s, acts, asid) - Count(acts, Signal(asid))
    ensures Run(s, acts).tails[asid] == s.tails[asid] + Count(acts, Signal(asid)) - Count(acts, Finish(asid))
    decreases |acts|
  {
    if acts != [] {
      ProgramStep(s, acts[0], asid);
      Programs(Step(s, acts[0]), acts[1..], asid);
    }
  }

  lemma ProgramStep(s: State, act: Act, asid: int)
    requires Enabled(s, act)
    ensures Step(s, act).running[asid] == s.running[asid] + (if act == Execute(asid, true) && 2 <= asid <= 8 then 1 else 0)
                                          - if act == Signal(asid) then 1 else 0
    ensures Step(s, act).tails[asid] == s.tails[asid] + (if act == Signal(asid) then 1 else 0)
                                        - if act == Finish(asid) then 1 else 0
  {
  }

  /** EXECUTE returns to the shell: at once if its program has signalled by the time of the P, else with
      the signal. The shell ends by its own exit or by a request that is refused, and in no other way. */
  lemma ExecuteReturns(s: State, act: Act)
    requires Inv(s) && Enabled(s, act)
    ensures s.at == Launched && act == Wait ==> Step(s, act).at == if |s.running| == 0 then Idle else Blocked
    ensures s.at == Blocked && act.Signal? ==> Step(s, act).at == Idle && |Step(s, act).running| == 0
    ensures s.at != Done && Step(s, act).at == Done ==>
              act == ShellExit || (act.Execute? && !(2 <= act.asid <= 8 && act.created))
  {
    if act.Signal? {
      assert s.running == (s.running - multiset{act.asid}) + multiset{act.asid};
    }
  }
}
