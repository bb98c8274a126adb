/** The two-phase-commit program over reliable FIFO connections, and its runs. */
module FifoSystem {
  import opened Messages
  import opened Channel
  import opened TwoPhase

  datatype Sys = Sys(p: Program, ch: seq<Chan>)

  predicate WellShaped(c: Config, s: Sys) {
    Shaped(c, s.p) && |s.ch| == c.n
  }

  function InitSys(c: Config): (s: Sys)
    ensures WellShaped(c, s)
  {
    Sys(InitProgram(c), seq(c.n, _ => EMPTY_CHAN))
  }

  predicate Enabled(c: Config, s: Sys, a: Act)
    requires WellShaped(c, s)
  {
    Can(c, s.p, a) && Ready(s.ch, Effect(c, s.p, a))
  }

  function Apply(c: Config, s: Sys, a: Act): (r: Sys)
    requires WellShaped(c, s) && Enabled(c, s, a)
    ensures WellShaped(c, r)
  {
    var l := Effect(c, s.p, a);
    Sys(Next(c, s.p, a, Incoming(s.ch, l)), Transfer(s.ch, l))
  }

  /** The state after a run, given as the list of its steps; None if some step is not enabled. */
  function Run(c: Config, acts: seq<Act>): (r: Option<Sys>)
    ensures r.Some? ==> WellShaped(c, r.value)
  {
    if acts == [] then Some(InitSys(c))
    else
      var prev := Run(c, acts[..|acts| - 1]);
      if prev.Some? && Enabled(c, prev.value, acts[|acts| - 1])
      then Some(Apply(c, prev.value, acts[|acts| - 1]))
      else None
  }
}
