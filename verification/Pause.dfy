/** What pause_signal is for. A worker sees it only at the top of its loop, and main does not
    wait for that: what holds is that the pause takes hold by the workers' own steps, and that
    it then keeps them from everything until main takes the signal back. */
module Pause {
  import opened Messages
  import opened Channel
  import opened TwoPhase
  import opened FifoSystem
  import opened CommitInvariant
  import opened Shutdown

  predicate AtRest(w: WorkerPc) {
    w.Top? || w.Resetting? || w.Exited?
  }

  /** The pause has taken hold. */
  predicate Held(c: Config, p: Program) {
    Shaped(c, p) && p.pause && forall t :: 0 <= t < c.workers ==> AtRest(p.workers[t])
  }

  /** Nothing that a worker could have done is done. */
  predicate NothingCounted(c: Config, s: Sys, s': Sys)
    requires WellShaped(c, s) && WellShaped(c, s')
  {
    && (forall j :: 0 <= j < c.n ==> s'.ch[j].upGot == s.ch[j].upGot)
    && (forall t :: 0 <= t < c.workers ==> s'.p.count[t] == s.p.count[t] || s'.p.count[t] == 0)
  }

  lemma HeldWorker(c: Config, p: Program, t: nat, a: WorkerAct, m: Msg)
    requires Held(c, p) && CanWorker(c, p, t, a)
    ensures var q := WorkerNext(c, p, t, a, m);
            Held(c, q) && q.board == p.board && q.count == (if a.Reset? then p.count[t := 0] else p.count)
    ensures WorkerEffect(c, p, t, a) == Tau
  {
    assert AtRest(p.workers[t]);
  }

  lemma HeldMain(c: Config, p: Program, a: MainAct, m: Msg)
    requires Held(c, p) && CanMain(c, p, a) && a != Resume && !p.pc.Connecting?
    ensures var q := MainNext(c, p, a, m); Held(c, q) && !q.pc.Connecting?
    ensures var q := MainNext(c, p, a, m); forall t :: 0 <= t < c.workers ==> q.count[t] == p.count[t] || q.count[t] == 0
    ensures !MainEffect(c, p, a).Drain? && !MainEffect(c, p, a).Take?
  {
    assert MainNext(c, p, a, m).workers == p.workers;
  }

  /** While the pause holds, only main's Resume ends it; until then nothing is taken, posted by a
      worker or counted. */
  lemma HeldStep(c: Config, s: Sys, a: Act)
    requires WellShaped(c, s) && Held(c, s.p) && !s.p.pc.Connecting? && Enabled(c, s, a) && a != Main(Resume)
    ensures var s' := Apply(c, s, a);
            && Held(c, s'.p) && !s'.p.pc.Connecting? && NothingCounted(c, s, s')
            && (!a.Main? ==> s'.p.board == s.p.board)
  {
    var m := Incoming(s.ch, Effect(c, s.p, a));
    match a
    case Main(ma) => HeldMain(c, s.p, ma, m);
    case Worker(t, wa) => HeldWorker(c, s.p, t, wa, m);
    case Peer(j, ca) =>
    case Stop =>
  }

  /** THE PAUSE HOLDS, over any continuation in which main does not resume. */
  lemma {:induction false} PauseHolds(c: Config, s: Sys, acts: seq<Act>)
    requires WellShaped(c, s) && Held(c, s.p) && !s.p.pc.Connecting? && From(c, s, acts).Some? && Main(Resume) !in acts
    ensures Held(c, From(c, s, acts).value.p) && NothingCounted(c, s, From(c, s, acts).value)
    decreases |acts|
  {
    if acts != [] {
      HeldStep(c, s, acts[0]);
      PauseHolds(c, Apply(c, s, acts[0]), acts[1..]);
    }
  }

  // ------------------------------------------------------------- and it takes hold

  /** What a worker does when it has nothing more to read and the signal is up. */
  function Inward(w: WorkerPc): WorkerAct
    requires !w.Exited?
  {
    if w.Top? then SeePause else Homeward(w)
  }

  /** Worker t is back at the top of its loop, with its counter cleared, or gone. */
  predicate Cleared(p: Program, t: nat)
    requires t < |p.workers| && t < |p.count|
  {
    p.workers[t].Exited? || (p.workers[t].Top? && p.count[t] == 0)
  }

  function RestSteps(p: Program, t: nat): nat
    requires t < |p.workers| && t < |p.count|
  {
    var w := p.workers[t];
    if Cleared(p, t) then 0
    else if w.Resetting? then 1
    else if w.Top? then 2
    else StepsLeft(w) + 1
  }

  predicate Paused(c: Config, s: Sys) {
    WellShaped(c, s) && InRange(c, s.p) && s.p.pause && !s.p.pc.Connecting?
  }

  predicate OnlyWorkerCounts(p: Program, q: Program, t: nat) {
    && OnlyWorker(p, q, t) && |q.count| == |p.count|
    && forall u :: 0 <= u < |p.count| && u != t ==> q.count[u] == p.count[u]
  }

  lemma InwardIsCloser(c: Config, p: Program, t: nat, m: Msg)
    requires InRange(c, p) && p.pause && !p.pc.Connecting? && t < c.workers && !Cleared(p, t)
    ensures CanWorker(c, p, t, Inward(p.workers[t]))
    ensures var l := WorkerEffect(c, p, t, Inward(p.workers[t])); l.Tau? || (l.Release? && l.j < c.n)
    ensures var q := WorkerNext(c, p, t, Inward(p.workers[t]), m);
            InRange(c, q) && q.pause && OnlyWorkerCounts(p, q, t) && RestSteps(q, t) < RestSteps(p, t)
  {
  }

  lemma WorkerInward(c: Config, s: Sys, t: nat) returns (s': Sys)
    requires Paused(c, s) && t < c.workers && !Cleared(s.p, t)
    ensures Enabled(c, s, Worker(t, Inward(s.p.workers[t]))) && s' == Apply(c, s, Worker(t, Inward(s.p.workers[t])))
    ensures Paused(c, s') && OnlyWorkerCounts(s.p, s'.p, t) && RestSteps(s'.p, t) < RestSteps(s.p, t)
  {
    InwardIsCloser(c, s.p, t, Msg(Lost, SERVER_ID));
    var l := WorkerEffect(c, s.p, t, Inward(s.p.workers[t]));
    InwardIsCloser(c, s.p, t, Incoming(s.ch, l));
    s' := Apply(c, s, Worker(t, Inward(s.p.workers[t])));
  }

  lemma {:induction false} WorkerRests(c: Config, s: Sys, t: nat) returns (acts: seq<Act>)
    requires Paused(c, s) && t < c.workers
    ensures forall i :: 0 <= i < |acts| ==> acts[i].Worker?
    ensures From(c, s, acts).Some?
    ensures var q := From(c, s, acts).value; Paused(c, q) && OnlyWorkerCounts(s.p, q.p, t) && Cleared(q.p, t)
    decreases RestSteps(s.p, t)
  {
    acts := [];
    if !Cleared(s.p, t) {
      var a := Worker(t, Inward(s.p.workers[t]));
      var s' := WorkerInward(c, s, t);
      var rest := WorkerRests(c, s', t);
      FromStep(c, s, a, rest);
      acts := [a] + rest;
    }
  }

  lemma {:induction false} WorkersRest(c: Config, s: Sys, k: nat) returns (acts: seq<Act>)
    requires Paused(c, s) && k <= c.workers
    ensures forall i :: 0 <= i < |acts| ==> acts[i].Worker?
    ensures From(c, s, acts).Some?
    ensures var q := From(c, s, acts).value;
            Paused(c, q) && q.p.pc == s.p.pc && forall t :: 0 <= t < k ==> Cleared(q.p, t)
  {
    acts := [];
    if k > 0 {
      var most := WorkersRest(c, s, k - 1);
      var s1 := From(c, s, most).value;
      var last := WorkerRests(c, s1, k - 1);
      FromFrom(c, s, most, last);
      forall t | 0 <= t < k - 1 ensures Cleared(From(c, s1, last).value.p, t) {
        assert Cleared(s1.p, t);
      }
      acts := most + last;
    }
  }

  /** The pause has taken hold, and the counters of those that will go on are clear. */
  predicate AllCleared(c: Config, p: Program) {
    Held(c, p) && forall t :: 0 <= t < c.workers ==> Cleared(p, t)
  }

  /** THE PAUSE TAKES HOLD. From every reachable state with the signal up, steps of the workers
      alone, which finish what they hold and clear their counters, lead to where it holds. */
  lemma PauseTakesHold(c: Config, acts: seq<Act>, s: Sys) returns (more: seq<Act>, s': Sys)
    requires ValidConfig(c) && WellShaped(c, s) && Run(c, acts) == Some(s) && s.p.pause && !s.p.pc.Connecting?
    ensures forall i :: 0 <= i < |more| ==> more[i].Worker?
    ensures Run(c, acts + more) == Some(s') && s'.p.pc == s.p.pc && AllCleared(c, s'.p)
  {
    PausedHere(c, acts, s);
    more := WorkersRest(c, s, c.workers);
    s' := From(c, s, more).value;
    forall t | 0 <= t < c.workers ensures AtRest(s'.p.workers[t]) {
      assert Cleared(s'.p, t);
    }
    RunGoesOn(c, acts, s, more);
  }

  lemma PausedHere(c: Config, acts: seq<Act>, s: Sys)
    requires ValidConfig(c) && WellShaped(c, s) && Run(c, acts) == Some(s) && s.p.pause && !s.p.pc.Connecting?
    ensures Paused(c, s)
  {
    RunInv(c, acts);
    InvInRange(c, s);
  }
}
