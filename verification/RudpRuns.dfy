/** Runs of the program over reliable UDP from any state on, and single steps of them. */
module RudpRuns {
  import opened Messages
  import opened Channel
  import opened TwoPhase
  import opened FifoSystem
  import opened CommitInvariant
  import opened CommitTheorems
  import opened Transport
  import opened RudpEndpoint
  import opened RudpLink
  import opened RudpSystem
  import opened StopSignal
  import opened VoteCount

  predicate InSending(pc: MainPc) {
    pc.Sending? || pc.Writing? || pc.Checking?
  }

  /** The state after these steps from state rs. */
  function RFrom(c: Config, rs: RSys, acts: seq<RAct>): (r: Option<RSys>)
    requires RShaped(c, rs)
    ensures r.Some? ==> RShaped(c, r.value)
  {
    if acts == [] then Some(rs)
    else
      var prev := RFrom(c, rs, acts[..|acts| - 1]);
      if prev.Some? && RCan(c, prev.value, acts[|acts| - 1])
      then Some(RApply(c, prev.value, acts[|acts| - 1]))
      else None
  }

  lemma OneMore(c: Config, acts: seq<RAct>, a: RAct)
    ensures var r := RRun(c, acts);
            RRun(c, acts + [a]) == if r.Some? && RCan(c, r.value, a) then Some(RApply(c, r.value, a)) else None
  {
    assert (acts + [a])[..|acts + [a]| - 1] == acts;
  }

  lemma {:induction false} RunGoesOn(c: Config, acts: seq<RAct>, more: seq<RAct>)
    requires RRun(c, acts).Some?
    ensures RRun(c, acts + more) == RFrom(c, RRun(c, acts).value, more)
    decreases |more|
  {
    if more == [] {
      assert acts + more == acts;
    } else {
      var front := more[..|more| - 1];
      RunGoesOn(c, acts, front);
      OneMore(c, acts + front, more[|more| - 1]);
      assert acts + more == (acts + front) + [more[|more| - 1]];
    }
  }

  /** pause_signal is up only from the scan to the end of a phase; halting and leaving workers
      follow stop_signal. */
  predicate Calm(p: Program) {
    && (p.pc.Halted? ==> p.stop)
    && (!p.pc.Halted? ==> (p.pause <==> p.pc.Scanning? || p.pc.Zeroing? || p.pc.Resuming?))
    && forall t :: 0 <= t < |p.workers| && p.workers[t].Exited? ==> p.stop
  }

  lemma MainKeepsCalm(c: Config, p: Program, a: MainAct, m: Msg)
    requires Shaped(c, p) && CanMain(c, p, a) && Calm(p)
    ensures Calm(MainNext(c, p, a, m))
  {
    MainKeepsWorkers(c, p, a, m);
    MainKeepsStop(c, p, a, m);
  }

  lemma CalmStep(c: Config, p: Program, a: Act, m: Msg)
    requires Shaped(c, p) && Can(c, p, a) && Calm(p)
    ensures Calm(Next(c, p, a, m))
  {
    if a.Main? {
      MainKeepsCalm(c, p, a.ma, m);
    }
  }

  lemma {:induction false} CalmRun(c: Config, acts: seq<Act>)
    requires Run(c, acts).Some?
    ensures Calm(Run(c, acts).value.p)
  {
    if acts != [] {
      CalmRun(c, acts[..|acts| - 1]);
      var s, a := Run(c, acts[..|acts| - 1]).value, acts[|acts| - 1];
      CalmStep(c, s.p, a, Incoming(s.ch, Effect(c, s.p, a)));
    }
  }

  /** r0 is the state after the run `before`, and rs the state after `acts` more steps. */
  ghost predicate Leads(c: Config, before: seq<RAct>, r0: RSys, acts: seq<RAct>, rs: RSys) {
    ValidConfig(c) && RRun(c, before) == Some(r0) && RFrom(c, r0, acts) == Some(rs)
  }

  /** rs can be reached from r0, which can be reached, and unless a wait had timed out before
      r0 none has timed out since. */
  ghost predicate At(c: Config, r0: RSys, rs: RSys) {
    && RShaped(c, r0) && RShaped(c, rs) && (rs.p.timedOut ==> r0.p.timedOut)
    && exists before, acts :: Leads(c, before, r0, acts, rs)
  }

  lemma Facts(c: Config, r0: RSys, rs: RSys)
    requires At(c, r0, rs)
    ensures RInv(c, rs) && Calm(rs.p)
  {
    var before, acts :| Leads(c, before, r0, acts, rs);
    RunGoesOn(c, before, acts);
    RunRefines(c, before + acts);
    CalmRun(c, ProgramSteps(before + acts));
  }

  lemma CountFacts(c: Config, r0: RSys, rs: RSys)
    requires At(c, r0, rs)
    ensures RInv(c, rs) && CountInv(c, Abstract(rs))
  {
    var before, acts :| Leads(c, before, r0, acts, rs);
    RunGoesOn(c, before, acts);
    RunRefines(c, before + acts);
    RunCount(c, ProgramSteps(before + acts));
  }

  lemma Go(c: Config, r0: RSys, rs: RSys, a: RAct) returns (rt: RSys)
    requires At(c, r0, rs) && RCan(c, rs, a) && (a.Prog? && a.a == Main(Timeout) ==> r0.p.timedOut)
    ensures rt == RApply(c, rs, a) && At(c, r0, rt)
  {
    var before, acts :| Leads(c, before, r0, acts, rs);
    assert (acts + [a])[..|acts + [a]| - 1] == acts;
    rt := RApply(c, rs, a);
    assert Leads(c, before, r0, acts + [a], rt);
    if a.Prog? && a.a != Main(Timeout) {
      var t := Effect(c, rs.p, a.a);
      OnlyTimeoutTimesOut(c, rs.p, a.a, if t == Tau then Msg(Lost, SERVER_ID) else Handed(rs.links[t.j], t, a.p));
    }
  }

  lemma OnlyTimeoutTimesOut(c: Config, p: Program, a: Act, m: Msg)
    requires Shaped(c, p) && Can(c, p, a) && a != Main(Timeout)
    ensures Next(c, p, a, m).timedOut == p.timedOut
  {
    if a.Main? {
      MainTimesOut(c, p, a.ma, m);
    }
  }

  lemma MainTimesOut(c: Config, p: Program, a: MainAct, m: Msg)
    requires Shaped(c, p) && CanMain(c, p, a) && !a.Timeout?
    ensures MainNext(c, p, a, m).timedOut == p.timedOut
  {
    if IsSending(a) {
      SendingTimesOut(c, p, a, m);
    }
  }

  lemma SendingTimesOut(c: Config, p: Program, a: MainAct, m: Msg)
    requires Shaped(c, p) && CanMain(c, p, a) && IsSending(a)
    ensures MainNext(c, p, a, m).timedOut == p.timedOut
  {
  }

  lemma StaysCalm(c: Config, rs: RSys, ra: RAct)
    requires RShaped(c, rs) && RCan(c, rs, ra) && Calm(rs.p)
    ensures Calm(RApply(c, rs, ra).p)
  {
    if ra.Prog? {
      var t := Effect(c, rs.p, ra.a);
      CalmStep(c, rs.p, ra.a, if t == Tau then Msg(Lost, SERVER_ID) else Handed(rs.links[t.j], t, ra.p));
    }
  }

  /** A step of main that is no call. */
  lemma Quietly(c: Config, r0: RSys, rs: RSys, a: MainAct) returns (rt: RSys)
    requires At(c, r0, rs) && CanMain(c, rs.p, a) && MainEffect(c, rs.p, a) == Tau && (a.Timeout? ==> r0.p.timedOut)
    ensures rt == rs.(p := MainNext(c, rs.p, a, Msg(Lost, SERVER_ID))) && At(c, r0, rt)
  {
    rt := Go(c, r0, rs, Prog(Main(a), BLANK, BLANK.msg));
  }

  /** A step of worker t that is no call. */
  lemma Works(c: Config, r0: RSys, rs: RSys, t: nat, a: WorkerAct) returns (rt: RSys)
    requires At(c, r0, rs) && CanWorker(c, rs.p, t, a) && WorkerEffect(c, rs.p, t, a) == Tau
    ensures rt == rs.(p := WorkerNext(c, rs.p, t, a, Msg(Lost, SERVER_ID))) && At(c, r0, rt)
  {
    rt := Go(c, r0, rs, Prog(Worker(t, a), BLANK, BLANK.msg));
  }

  /** A call on link j. */
  lemma Calls(c: Config, r0: RSys, rs: RSys, j: nat, a: Act, p: Packet, m: Payload) returns (rt: RSys)
    requires At(c, r0, rs) && Can(c, rs.p, a) && j < c.n
    requires var e := Effect(c, rs.p, a); e != Tau && e.j == j && Offers(rs.links[j], e, p, m)
    ensures var e := Effect(c, rs.p, a);
            rt == RSys(Next(c, rs.p, a, Handed(rs.links[j], e, p)), rs.links[j := OnLink(rs.links[j], e, p, m)])
    ensures At(c, r0, rt)
  {
    rt := Go(c, r0, rs, Prog(a, p, m));
  }
}
