/** What stop_signal does to the steps of the program. A step of main may test it and read the
    scoreboard, or test it and begin a write, at once: had it been raised in between, the step
    would end in the same state with the signal raised right after it. */
module StopSignal {
  import opened Messages
  import opened Channel
  import opened TwoPhase

  /** stop_signal is never taken back, and neither is having acted on it. */
  lemma StopIsMonotone(c: Config, p: Program, a: Act, m: Msg)
    requires Shaped(c, p) && Can(c, p, a)
    ensures var q := Next(c, p, a, m); (p.stop ==> q.stop) && (p.cut ==> q.cut)
  {
    if a.Main? {
      MainKeepsStop(c, p, a.ma, m);
    }
  }

  lemma MainKeepsStop(c: Config, p: Program, a: MainAct, m: Msg)
    requires Shaped(c, p) && CanMain(c, p, a)
    ensures var q := MainNext(c, p, a, m); (p.stop ==> q.stop) && (p.cut ==> q.cut)
  {
  }

  /** The steps of main that test stop_signal. */
  predicate TestsStop(a: Act) {
    (a.Main? && (a.ma.NextRound? || a.ma.Stamp? || a.ma.Pick? || a.ma.SendExit? || a.ma.Scan?)) || (a.Worker? && a.wa.Quit?)
  }

  /** Raising stop_signal commutes with every step that does not test it. */
  lemma StopCommutes(c: Config, p: Program, a: Act, m: Msg)
    requires Shaped(c, p) && Can(c, p, a) && !TestsStop(a)
    ensures Can(c, p.(stop := true), a)
    ensures Effect(c, p.(stop := true), a) == Effect(c, p, a)
    ensures Next(c, p.(stop := true), a, m) == Next(c, p, a, m).(stop := true)
  {
    match a
    case Main(ma) => MainStopCommutes(c, p, ma, m);
    case Worker(t, wa) => WorkerStopCommutes(c, p, t, wa, m);
    case Peer(j, ca) => ClientStopCommutes(c, p, j, ca, m);
    case Stop =>
  }

  lemma MainStopCommutes(c: Config, p: Program, a: MainAct, m: Msg)
    requires Shaped(c, p) && CanMain(c, p, a) && !TestsStop(Main(a))
    ensures MainEffect(c, p.(stop := true), a) == MainEffect(c, p, a)
    ensures MainNext(c, p.(stop := true), a, m) == MainNext(c, p, a, m).(stop := true)
  {
    if a.Clear? || a.Resume? {
      PhaseStopCommutes(c, p, a, m);
    } else if a.Connect? || a.Connected? || a.Broken? {
      ConnectStopCommutes(c, p, a, m);
    } else if a.EndWrite? || a.Acknowledged? || a.Again? {
      SendStopCommutes(c, p, a, m);
    } else if a.Timeout? || a.Poll? {
      PollStopCommutes(c, p, a, m);
    } else {
      PauseStopCommutes(c, p, a, m);
    }
  }

  lemma ClientStopCommutes(c: Config, p: Program, j: nat, a: ClientAct, m: Msg)
    requires Shaped(c, p) && CanClient(c, p, j, a)
    ensures CanClient(c, p.(stop := true), j, a) && ClientEffect(c, p.(stop := true), j, a) == ClientEffect(c, p, j, a)
    ensures ClientNext(c, p.(stop := true), j, a, m) == ClientNext(c, p, j, a, m).(stop := true)
  {
  }

  lemma PhaseStopCommutes(c: Config, p: Program, a: MainAct, m: Msg)
    requires Shaped(c, p) && CanMain(c, p, a) && (a.Clear? || a.Resume?)
    ensures MainEffect(c, p.(stop := true), a) == MainEffect(c, p, a)
    ensures MainNext(c, p.(stop := true), a, m) == MainNext(c, p, a, m).(stop := true)
  {
    if a.Clear? {
      assert ClearStep(c, p.(stop := true)) == ClearStep(c, p).(stop := true);
    } else {
      assert ResumeStep(p.(stop := true)) == ResumeStep(p).(stop := true);
    }
  }

  lemma ConnectStopCommutes(c: Config, p: Program, a: MainAct, m: Msg)
    requires Shaped(c, p) && CanMain(c, p, a) && (a.Connect? || a.Connected? || a.Broken?)
    ensures MainEffect(c, p.(stop := true), a) == MainEffect(c, p, a)
    ensures MainNext(c, p.(stop := true), a, m) == MainNext(c, p, a, m).(stop := true)
  {
  }

  lemma SendStopCommutes(c: Config, p: Program, a: MainAct, m: Msg)
    requires Shaped(c, p) && CanMain(c, p, a) && (a.EndWrite? || a.Acknowledged? || a.Again?)
    ensures MainEffect(c, p.(stop := true), a) == MainEffect(c, p, a)
    ensures MainNext(c, p.(stop := true), a, m) == MainNext(c, p, a, m).(stop := true)
  {
  }

  lemma PollStopCommutes(c: Config, p: Program, a: MainAct, m: Msg)
    requires Shaped(c, p) && CanMain(c, p, a) && (a.Timeout? || a.Poll?)
    ensures MainEffect(c, p.(stop := true), a) == MainEffect(c, p, a)
    ensures MainNext(c, p.(stop := true), a, m) == MainNext(c, p, a, m).(stop := true)
  {
    assert a.Poll? ==> PollPc(c, p.(stop := true)) == PollPc(c, p);
  }

  lemma PauseStopCommutes(c: Config, p: Program, a: MainAct, m: Msg)
    requires Shaped(c, p) && CanMain(c, p, a) && (a.Pause? || a.Zero?)
    ensures MainEffect(c, p.(stop := true), a) == MainEffect(c, p, a)
    ensures MainNext(c, p.(stop := true), a, m) == MainNext(c, p, a, m).(stop := true)
  {
    assert a.Zero? ==> Zeroed(c, p.(stop := true)) == Zeroed(c, p);
  }

  lemma WorkerStopCommutes(c: Config, p: Program, t: nat, a: WorkerAct, m: Msg)
    requires Shaped(c, p) && CanWorker(c, p, t, a) && !a.Quit?
    ensures CanWorker(c, p.(stop := true), t, a) && WorkerEffect(c, p.(stop := true), t, a) == WorkerEffect(c, p, t, a)
    ensures WorkerNext(c, p.(stop := true), t, a, m) == WorkerNext(c, p, t, a, m).(stop := true)
  {
    var q := p.(stop := true);
    assert WorkerPcNext(c, q, t, a, m) == WorkerPcNext(c, p, t, a, m);
    assert BoardNext(c, q, t, a) == BoardNext(c, p, t, a) && CountNext(c, q, t, a) == CountNext(c, p, t, a);
  }
}
