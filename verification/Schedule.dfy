/** Which rounds commit: the client program votes no in one round out of five, at a phase
    given by its id, and the coordinator's decisions follow from that alone. */
module Schedule {
  import opened Messages
  import opened Channel
  import opened TwoPhase
  import opened FifoSystem
  import opened CommitInvariant
  import opened CommitTheorems

  /** vote_count starts at the client's id and grows by one a round; every fifth vote is no. */
  ghost predicate VotesAsCoded(c: Config) {
    forall j: nat, r: nat :: j < c.n && j < |c.ids| ==> (c.vote(j, r) <==> (c.ids[j] + r) % 5 != 0)
  }

  function CountTrue(s: seq<bool>): nat {
    if s == [] then 0 else (if s[0] then 1 else 0) + CountTrue(s[1..])
  }

  /** The smallest id that votes no in round r is 5 - r % 5. */
  lemma FirstNo(r: nat, id: int)
    requires id >= 1
    ensures (5 - r % 5 + r) % 5 == 0
    ensures (id + r) % 5 == 0 ==> id >= 5 - r % 5
  {
    var q := r % 5;
    assert r == 5 * (r / 5) + q;
    assert 5 - q + r == 5 * (r / 5 + 1);
    if id < 5 - q {
      assert id + r == 5 * (r / 5) + (id + q) && 0 < id + q < 5;
    }
  }

  lemma AllYesInRound(c: Config, r: nat)
    requires ValidConfig(c) && VotesAsCoded(c)
    ensures AllYes(c, r) <==> c.n < 5 - r % 5
  {
    FirstNo(r, 1);
    if c.n >= 5 - r % 5 {
      var j := OwnerOfEntry(c, 5 - r % 5 - 1);
      assert !c.vote(j, r);
    } else {
      forall j | 0 <= j < c.n ensures c.vote(j, r) {
        FirstNo(r, c.ids[j]);
      }
    }
  }

  lemma FinishedRoundIsGrounded(c: Config, acts: seq<Act>, r: nat)
    requires ValidConfig(c) && Run(c, acts).Some?
    requires Run(c, acts).value.p.pc.RoundTop? && !Run(c, acts).value.p.stop && r < Run(c, acts).value.p.round
    ensures r < |Run(c, acts).value.p.decisions| == Run(c, acts).value.p.round
    ensures Run(c, acts).value.p.decisions[r] <==> AllYes(c, r)
  {
    RunInv(c, acts);
    assert Grounded(c, Run(c, acts).value, r);
  }

  /** OUTCOME SCHEDULE. Every finished round r of every run committed iff no client id
      makes (id + r) a multiple of five, that is iff n < 5 - r % 5. */
  lemma OutcomeSchedule(c: Config, acts: seq<Act>, r: nat)
    requires ValidConfig(c) && VotesAsCoded(c) && Run(c, acts).Some?
    requires Run(c, acts).value.p.pc.RoundTop? && !Run(c, acts).value.p.stop && r < Run(c, acts).value.p.round
    ensures var d := Run(c, acts).value.p.decisions;
            && r < |d|
            && (d[r] <==> forall j :: 0 <= j < c.n ==> (c.ids[j] + r) % 5 != 0)
            && (d[r] <==> c.n < 5 - r % 5)
  {
    FinishedRoundIsGrounded(c, acts, r);
    AllYesInRound(c, r);
    NobodyObjects(c, r);
  }

  lemma NobodyObjects(c: Config, r: nat)
    requires ValidConfig(c) && VotesAsCoded(c)
    ensures AllYes(c, r) <==> forall j :: 0 <= j < c.n ==> (c.ids[j] + r) % 5 != 0
  {
    forall j | 0 <= j < c.n ensures c.vote(j, r) <==> (c.ids[j] + r) % 5 != 0 {
    }
  }

  /** Any five consecutive finished rounds contain exactly max(0, 5 - n) commits. */
  lemma FiveRounds(c: Config, acts: seq<Act>, r: nat)
    requires ValidConfig(c) && VotesAsCoded(c) && Run(c, acts).Some?
    requires Run(c, acts).value.p.pc.RoundTop? && !Run(c, acts).value.p.stop
    requires r + 5 <= Run(c, acts).value.p.round && c.n >= 1
    ensures var d := Run(c, acts).value.p.decisions;
            && r + 5 <= |d|
            && CountTrue(d[r..r + 5]) == if c.n < 5 then 5 - c.n else 0
  {
    FinishedRoundIsGrounded(c, acts, r);
    var d := Run(c, acts).value.p.decisions;
    forall k: nat | r <= k < r + 5 ensures d[k] <==> c.n < 5 - k % 5 {
      CommitsWhen(c, acts, d, k);
    }
    FiveInARow(c.n, r, d);
  }

  lemma CommitsWhen(c: Config, acts: seq<Act>, d: seq<bool>, k: nat)
    requires ValidConfig(c) && VotesAsCoded(c) && Run(c, acts).Some?
    requires Run(c, acts).value.p.pc.RoundTop? && !Run(c, acts).value.p.stop
    requires d == Run(c, acts).value.p.decisions && k < Run(c, acts).value.p.round
    ensures k < |d| && (d[k] <==> c.n < 5 - k % 5)
  {
    OutcomeSchedule(c, acts, k);
  }

  lemma FiveInARow(n: nat, r: nat, d: seq<bool>)
    requires n >= 1 && r + 5 <= |d|
    requires forall k: nat :: r <= k < r + 5 ==> (d[k] <==> n < 5 - k % 5)
    ensures CountTrue(d[r..r + 5]) == if n < 5 then 5 - n else 0
  {
    var w := d[r..r + 5];
    CountFive(w);
    var q := r % 5;
    assert r == 5 * (r / 5) + q;
    forall i | 0 <= i < 5 ensures w[i] <==> n < 5 - if q + i < 5 then q + i else q + i - 5 {
      assert w[i] == d[r + i];
      Shifted(r / 5, q + i);
    }
  }

  lemma Shifted(m: nat, k: nat)
    requires k < 10
    ensures (5 * m + k) % 5 == if k < 5 then k else k - 5
  {
  }

  lemma CountFive(w: seq<bool>)
    requires |w| == 5
    ensures CountTrue(w) == (if w[0] then 1 else 0) + (if w[1] then 1 else 0) + (if w[2] then 1 else 0)
                            + (if w[3] then 1 else 0) + (if w[4] then 1 else 0)
  {
    var a, b, d, e := w[1..], w[2..], w[3..], w[4..];
    assert a[1..] == b && b[1..] == d && d[1..] == e && e[1..] == [];
    assert CountTrue(e) == if w[4] then 1 else 0;
    assert CountTrue(d) == (if w[3] then 1 else 0) + CountTrue(e);
    assert CountTrue(b) == (if w[2] then 1 else 0) + CountTrue(d);
    assert CountTrue(a) == (if w[1] then 1 else 0) + CountTrue(b);
  }
}
