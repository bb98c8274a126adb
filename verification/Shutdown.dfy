/** What happens once stop_signal is raised: main and the workers come to their ends by their
    own steps, whatever has been sent, counted or lost. */
module Shutdown {
  import opened Messages
  import opened Channel
  import opened TwoPhase
  import opened FifoSystem
  import opened CommitInvariant
  import opened VoteCount

  /** What main does next when nobody helps it: it gives up on acknowledgements and on votes. */
  function Onward(pc: MainPc): MainAct
    requires !pc.Connecting? && !pc.Halted?
  {
    match pc
    case RoundTop => NextRound
    case Clearing(_) => Clear
    case Stamping(_) => Stamp
    case Sending(_, _) => SendExit
    case Writing(_, _, _) => EndWrite
    case Checking(_, _, _) => Again
    case Polling(t, total) => if t == 0 && total == 0 then Timeout else Poll
    case Pausing => Pause
    case Scanning(_) => Scan
    case Zeroing(_) => Zero
    case Resuming => Resume
  }

  /** How far main still has to go: phases, stages of a phase, iterations of a stage. */
  function PhasesLeft(p: Program): nat {
    if p.pc.Halted? then 0 else if p.pc.RoundTop? then 1 else if p.second then 2 else 3
  }

  function StagesLeft(pc: MainPc): nat {
    match pc
    case Clearing(_) => 9
    case Stamping(_) => 8
    case Writing(_, _, _) => 7
    case Checking(_, _, _) => 6
    case Sending(_, _) => 5
    case Polling(_, _) => 4
    case Pausing => 3
    case Scanning(_) => 2
    case Zeroing(_) => 1
    case _ => 0
  }

  function IterationsLeft(c: Config, pc: MainPc): nat {
    match pc
    case Clearing(k) => if k < c.n then c.n - k else 0
    case Polling(t, total) => if t == 0 && total == 0 then 0 else if t < c.workers then c.workers - t + 1 else 1
    case Zeroing(t) => if t < c.workers then c.workers - t else 0
    case _ => 0
  }

  predicate Closer(c: Config, q: Program, p: Program) {
    || PhasesLeft(q) < PhasesLeft(p)
    || (PhasesLeft(q) == PhasesLeft(p)
        && (StagesLeft(q.pc) < StagesLeft(p.pc)
            || (StagesLeft(q.pc) == StagesLeft(p.pc) && IterationsLeft(c, q.pc) < IterationsLeft(c, p.pc))))
  }

  /** The connections that main and the workers are at exist. */
  predicate InRange(c: Config, p: Program) {
    && Shaped(c, p) && (p.pc.Writing? ==> p.pc.j < c.n)
    && forall t :: 0 <= t < c.workers && (p.workers[t].Got? || p.workers[t].Posted?) ==> p.workers[t].j < c.n
  }

  predicate Stopping(c: Config, s: Sys) {
    WellShaped(c, s) && InRange(c, s.p) && s.p.stop && !s.p.pc.Connecting?
  }

  /** With the signal raised every such step takes main closer to its end. */
  lemma OnwardIsCloser(c: Config, p: Program, m: Msg)
    requires InRange(c, p) && p.stop && !p.pc.Connecting? && !p.pc.Halted?
    ensures CanMain(c, p, Onward(p.pc))
    ensures var l := MainEffect(c, p, Onward(p.pc)); l.Tau? || (l.Put? && l.j < c.n)
    ensures var q := MainNext(c, p, Onward(p.pc), m);
            InRange(c, q) && q.stop && !q.pc.Connecting? && q.workers == p.workers && Closer(c, q, p)
  {
    if p.pc.Writing? || p.pc.Checking? || p.pc.Sending? {
      SendingIsCloser(c, p, m);
    } else if p.pc.Polling? {
      PollingIsCloser(c, p, m);
    } else if p.pc.Pausing? || p.pc.Scanning? || p.pc.Zeroing? {
      WaitingIsCloser(c, p, m);
    } else {
      PhaseIsCloser(c, p, m);
    }
  }

  lemma SendingIsCloser(c: Config, p: Program, m: Msg)
    requires InRange(c, p) && p.stop && (p.pc.Writing? || p.pc.Checking? || p.pc.Sending?)
    ensures CanMain(c, p, Onward(p.pc))
    ensures var l := MainEffect(c, p, Onward(p.pc)); l.Tau? || (l.Put? && l.j < c.n)
    ensures var q := MainNext(c, p, Onward(p.pc), m);
            InRange(c, q) && q.stop && !q.pc.Connecting? && q.workers == p.workers && Closer(c, q, p)
  {
  }

  lemma PollingIsCloser(c: Config, p: Program, m: Msg)
    requires InRange(c, p) && p.stop && p.pc.Polling?
    ensures CanMain(c, p, Onward(p.pc))
    ensures var l := MainEffect(c, p, Onward(p.pc)); l.Tau? || (l.Put? && l.j < c.n)
    ensures var q := MainNext(c, p, Onward(p.pc), m);
            InRange(c, q) && q.stop && !q.pc.Connecting? && q.workers == p.workers && Closer(c, q, p)
  {
  }

  lemma WaitingIsCloser(c: Config, p: Program, m: Msg)
    requires InRange(c, p) && p.stop && (p.pc.Pausing? || p.pc.Scanning? || p.pc.Zeroing?)
    ensures CanMain(c, p, Onward(p.pc))
    ensures var l := MainEffect(c, p, Onward(p.pc)); l.Tau? || (l.Put? && l.j < c.n)
    ensures var q := MainNext(c, p, Onward(p.pc), m);
            InRange(c, q) && q.stop && !q.pc.Connecting? && q.workers == p.workers && Closer(c, q, p)
  {
  }

  lemma PhaseIsCloser(c: Config, p: Program, m: Msg)
    requires InRange(c, p) && p.stop && (p.pc.RoundTop? || p.pc.Clearing? || p.pc.Stamping? || p.pc.Resuming?)
    ensures CanMain(c, p, Onward(p.pc))
    ensures var l := MainEffect(c, p, Onward(p.pc)); l.Tau? || (l.Put? && l.j < c.n)
    ensures var q := MainNext(c, p, Onward(p.pc), m);
            InRange(c, q) && q.stop && !q.pc.Connecting? && q.workers == p.workers && Closer(c, q, p)
  {
  }

  /** The state after these steps; None if one of them is not enabled. */
  function From(c: Config, s: Sys, acts: seq<Act>): (r: Option<Sys>)
    requires WellShaped(c, s)
    ensures r.Some? ==> WellShaped(c, r.value)
    decreases |acts|
  {
    if acts == [] then Some(s)
    else if Enabled(c, s, acts[0]) then From(c, Apply(c, s, acts[0]), acts[1..])
    else None
  }

  lemma FromStep(c: Config, s: Sys, a: Act, acts: seq<Act>)
    requires WellShaped(c, s) && Enabled(c, s, a)
    ensures From(c, s, [a] + acts) == From(c, Apply(c, s, a), acts)
  {
    assert ([a] + acts)[1..] == acts;
  }

  lemma {:induction false} FromFrom(c: Config, s: Sys, acts: seq<Act>, more: seq<Act>)
    requires WellShaped(c, s) && From(c, s, acts).Some?
    ensures From(c, s, acts + more) == From(c, From(c, s, acts).value, more)
    decreases |acts|
  {
    if acts == [] {
      assert acts + more == more;
    } else {
      assert acts + more == [acts[0]] + (acts[1..] + more);
      FromStep(c, s, acts[0], acts[1..] + more);
      FromFrom(c, Apply(c, s, acts[0]), acts[1..], more);
    }
  }

  /** A continuation of a run is a run. */
  lemma {:induction false} RunGoesOn(c: Config, acts: seq<Act>, s: Sys, more: seq<Act>)
    requires WellShaped(c, s) && Run(c, acts) == Some(s) && From(c, s, more).Some?
    ensures Run(c, acts + more) == From(c, s, more)
    decreases |more|
  {
    if more == [] {
      assert acts + more == acts;
    } else {
      var first, rest := acts + [more[0]], more[1..];
      RunStep(c, acts, s, more[0]);
      RunGoesOn(c, first, Apply(c, s, more[0]), rest);
      OneByOne(acts, more);
    }
  }

  lemma OneByOne(acts: seq<Act>, more: seq<Act>)
    requires more != []
    ensures acts + more == acts + [more[0]] + more[1..]
  {
  }

  lemma RunStep(c: Config, acts: seq<Act>, s: Sys, a: Act)
    requires WellShaped(c, s) && Run(c, acts) == Some(s) && Enabled(c, s, a)
    ensures Run(c, acts + [a]) == Some(Apply(c, s, a))
  {
    assert (acts + [a])[..|acts|] == acts;
  }

  /** Main's own steps lead it to its end. */
  lemma {:induction false} MainEnds(c: Config, s: Sys) returns (acts: seq<Act>)
    requires Stopping(c, s)
    ensures forall i :: 0 <= i < |acts| ==> acts[i].Main?
    ensures From(c, s, acts).Some?
    ensures var q := From(c, s, acts).value; Stopping(c, q) && q.p.pc.Halted?
    decreases PhasesLeft(s.p), StagesLeft(s.p.pc), IterationsLeft(c, s.p.pc)
  {
    acts := [];
    if !s.p.pc.Halted? {
      var s' := MainOnward(c, s);
      var rest := MainEnds(c, s');
      FromStep(c, s, Main(Onward(s.p.pc)), rest);
      acts := [Main(Onward(s.p.pc))] + rest;
    }
  }

  lemma MainOnward(c: Config, s: Sys) returns (s': Sys)
    requires Stopping(c, s) && !s.p.pc.Halted?
    ensures Enabled(c, s, Main(Onward(s.p.pc))) && s' == Apply(c, s, Main(Onward(s.p.pc)))
    ensures Stopping(c, s') && Closer(c, s'.p, s.p)
  {
    OnwardIsCloser(c, s.p, Msg(Lost, SERVER_ID));
    var l := MainEffect(c, s.p, Onward(s.p.pc));
    OnwardIsCloser(c, s.p, Incoming(s.ch, l));
    s' := Apply(c, s, Main(Onward(s.p.pc)));
  }

  /** What a worker does next when it finds nothing more to read. */
  function Homeward(w: WorkerPc): WorkerAct
    requires !w.Exited?
  {
    match w
    case Top => Quit
    case Resetting => Reset
    case Pass => EndPass
    case Got(_, _) => Post
    case Posted(_) => EndRead
    case Released(_) => Load
    case Adding(_, _) => Store
  }

  function StepsLeft(w: WorkerPc): nat {
    match w
    case Got(_, _) => 6
    case Posted(_) => 5
    case Released(_) => 4
    case Adding(_, _) => 3
    case Pass => 2
    case Resetting => 2
    case Top => 1
    case Exited => 0
  }

  /** Nothing but worker t, and what it posts, has changed. */
  predicate OnlyWorker(p: Program, q: Program, t: nat) {
    && q.pc == p.pc && q.stop == p.stop && |q.workers| == |p.workers|
    && forall u :: 0 <= u < |p.workers| && u != t ==> q.workers[u] == p.workers[u]
  }

  lemma HomewardIsCloser(c: Config, p: Program, t: nat, m: Msg)
    requires InRange(c, p) && p.stop && !p.pc.Connecting? && t < c.workers && !p.workers[t].Exited?
    ensures CanWorker(c, p, t, Homeward(p.workers[t]))
    ensures var l := WorkerEffect(c, p, t, Homeward(p.workers[t])); l.Tau? || (l.Release? && l.j < c.n)
    ensures var q := WorkerNext(c, p, t, Homeward(p.workers[t]), m);
            InRange(c, q) && OnlyWorker(p, q, t) && StepsLeft(q.workers[t]) < StepsLeft(p.workers[t])
  {
  }

  lemma WorkerHomeward(c: Config, s: Sys, t: nat) returns (s': Sys)
    requires Stopping(c, s) && t < c.workers && !s.p.workers[t].Exited?
    ensures Enabled(c, s, Worker(t, Homeward(s.p.workers[t]))) && s' == Apply(c, s, Worker(t, Homeward(s.p.workers[t])))
    ensures Stopping(c, s') && OnlyWorker(s.p, s'.p, t) && StepsLeft(s'.p.workers[t]) < StepsLeft(s.p.workers[t])
  {
    HomewardIsCloser(c, s.p, t, Msg(Lost, SERVER_ID));
    var l := WorkerEffect(c, s.p, t, Homeward(s.p.workers[t]));
    HomewardIsCloser(c, s.p, t, Incoming(s.ch, l));
    s' := Apply(c, s, Worker(t, Homeward(s.p.workers[t])));
  }

  /** A worker's own steps lead it to its end: it finishes the message it holds and quits. */
  lemma {:induction false} WorkerEnds(c: Config, s: Sys, t: nat) returns (acts: seq<Act>)
    requires Stopping(c, s) && t < c.workers
    ensures forall i :: 0 <= i < |acts| ==> acts[i].Worker?
    ensures From(c, s, acts).Some?
    ensures var q := From(c, s, acts).value; Stopping(c, q) && OnlyWorker(s.p, q.p, t) && q.p.workers[t].Exited?
    decreases StepsLeft(s.p.workers[t])
  {
    acts := [];
    if !s.p.workers[t].Exited? {
      var a := Worker(t, Homeward(s.p.workers[t]));
      var s' := WorkerHomeward(c, s, t);
      var rest := WorkerEnds(c, s', t);
      FromStep(c, s, a, rest);
      acts := [a] + rest;
    }
  }

  lemma {:induction false} WorkersEnd(c: Config, s: Sys, k: nat) returns (acts: seq<Act>)
    requires Stopping(c, s) && k <= c.workers
    ensures forall i :: 0 <= i < |acts| ==> acts[i].Worker?
    ensures From(c, s, acts).Some?
    ensures var q := From(c, s, acts).value;
            Stopping(c, q) && q.p.pc == s.p.pc && forall t :: 0 <= t < k ==> q.p.workers[t].Exited?
  {
    acts := [];
    if k > 0 {
      var most := WorkersEnd(c, s, k - 1);
      var last := WorkerEnds(c, From(c, s, most).value, k - 1);
      FromFrom(c, s, most, last);
      acts := most + last;
    }
  }

  /** SHUTDOWN. In any state of any run, once do_connectall is done and stop_signal is raised,
      main and the workers have only to go on, each by its own steps, for main to terminate and
      for every worker thread to return, so that cleanup can join them. No client has to
      answer, and no message has to arrive. */
  lemma ShutdownCompletes(c: Config, acts: seq<Act>) returns (more: seq<Act>)
    requires ValidConfig(c) && Run(c, acts).Some?
    requires Run(c, acts).value.p.stop && !Run(c, acts).value.p.pc.Connecting?
    ensures forall i :: 0 <= i < |more| ==> more[i].Main? || more[i].Worker?
    ensures Run(c, acts + more).Some?
    ensures var q := Run(c, acts + more).value.p;
            q.pc.Halted? && forall t :: 0 <= t < c.workers ==> q.workers[t].Exited?
  {
    var s := Run(c, acts).value;
    StoppingHere(c, acts);
    var main := MainEnds(c, s);
    var workers := WorkersEnd(c, From(c, s, main).value, c.workers);
    more := main + workers;
    FromFrom(c, s, main, workers);
    RunGoesOn(c, acts, s, more);
  }

  /** Raising the signal, which can be done in every state, is all that it takes. */
  lemma AnyRunCanShutDown(c: Config, acts: seq<Act>) returns (more: seq<Act>)
    requires ValidConfig(c) && Run(c, acts).Some? && !Run(c, acts).value.p.pc.Connecting?
    ensures forall i :: 0 <= i < |more| ==> more[i].Main? || more[i].Worker?
    ensures var r := Run(c, acts + [Stop] + more);
            r.Some? && r.value.p.pc.Halted? && forall t :: 0 <= t < c.workers ==> r.value.p.workers[t].Exited?
  {
    RunStep(c, acts, Run(c, acts).value, Stop);
    more := ShutdownCompletes(c, acts + [Stop]);
  }

  lemma StoppingHere(c: Config, acts: seq<Act>)
    requires ValidConfig(c) && Run(c, acts).Some?
    requires Run(c, acts).value.p.stop && !Run(c, acts).value.p.pc.Connecting?
    ensures Stopping(c, Run(c, acts).value)
  {
    RunInv(c, acts);
    InvInRange(c, Run(c, acts).value);
  }

  lemma InvInRange(c: Config, s: Sys)
    requires Inv(c, s)
    ensures InRange(c, s.p)
  {
    forall t | 0 <= t < c.workers && (s.p.workers[t].Got? || s.p.workers[t].Posted?) ensures s.p.workers[t].j < c.n {
      assert WorkerInv(c, s, t);
    }
  }

  // -------------------------------------------------- what the shutdown can need a timeout for

  /** Main is in wait_for_votes, and what its counters add up to, with nobody left to count. */
  predicate Forsaken(c: Config, p: Program, sum: int) {
    && Shaped(c, p) && p.pc.Polling? && p.pc.t <= c.workers
    && (forall t :: 0 <= t < c.workers ==> p.workers[t].Exited?)
    && p.pc.total + SumFrom(p.count, p.pc.t) == SumFrom(p.count, 0) == sum
  }

  lemma ForsakenStays(c: Config, p: Program, a: Act, m: Msg, sum: int)
    requires Forsaken(c, p, sum) && sum < c.n && Can(c, p, a) && a != Main(Timeout)
    ensures Forsaken(c, Next(c, p, a, m), sum)
  {
  }

  /** wait_for_votes does not test stop_signal: once the workers have left with fewer than n
      votes counted, it goes on as long as it does not time out, whatever the clients do; and
      if they have counted n, it ends by itself. */
  lemma {:induction false} OnlyTimeoutEndsWait(c: Config, acts: seq<Act>, more: seq<Act>)
    requires ValidConfig(c) && Run(c, acts).Some? && Run(c, acts + more).Some?
    requires var p := Run(c, acts).value.p; p.pc == Polling(0, 0) && forall t :: 0 <= t < c.workers ==> p.workers[t].Exited?
    requires Main(Timeout) !in more
    ensures var p := Run(c, acts).value.p;
            if SumFrom(p.count, 0) < c.n then Forsaken(c, Run(c, acts + more).value.p, SumFrom(p.count, 0))
            else AfterPolls(c, p, c.workers + 1) == p.(pc := Pausing)
  {
    var p := Run(c, acts).value.p;
    PassOfPolls(c, p);
    if more == [] {
      assert acts + more == acts;
    } else if SumFrom(p.count, 0) < c.n {
      var front, a := more[..|more| - 1], more[|more| - 1];
      assert (acts + more)[..|acts + more| - 1] == acts + front;
      OnlyTimeoutEndsWait(c, acts, front);
      var s := Run(c, acts + front).value;
      ForsakenStays(c, s.p, a, Incoming(s.ch, Effect(c, s.p, a)), SumFrom(p.count, 0));
    }
  }
}
