/** The coordinator's own loops, in the form the source has them: the two scoreboard scans
    and the send loop with its overloaded marker array. */
module Coordinator {
  import opened Messages
  import opened TwoPhase
  import opened Transport

  const MAX_RTOS := 200 * 1000

  // ----------------------------------------------------------------------- scans

  /** The phase-1 scan of a scoreboard: the fold of the state machine's scan step.
      None stands for the protocol-violation exit. */
  function VoteScan(b: seq<Kind>): Option<Verdict> {
    if b == [] then Some(Success)
    else
      var before := VoteScan(b[..|b| - 1]);
      if before.None? then None else ScanVote(before.value, b[|b| - 1])
  }

  predicate IsVote(k: Kind) {
    k == VoteYes || k == VoteNo || k == Lost
  }

  /** Entry k decides the scan: it is not a yes, and all after it are. */
  predicate Decides(b: seq<Kind>, k: nat) {
    k < |b| && b[k] != VoteYes && forall i :: k < i < |b| ==> b[i] == VoteYes
  }

  /** What the phase-1 scan computes. It is "success" iff all entries are yes; otherwise the
      last entry that is not yes decides, because the breaks leave only the switch. So the
      scan reports a cluster failure iff an entry is lost AND every later one is yes. */
  lemma {:induction false} VoteScanMeaning(b: seq<Kind>)
    ensures VoteScan(b).Some? <==> forall i :: 0 <= i < |b| ==> IsVote(b[i])
    ensures VoteScan(b) == Some(Success) <==> forall i :: 0 <= i < |b| ==> b[i] == VoteYes
    ensures VoteScan(b).Some? ==>
              && (VoteScan(b) == Some(ClusterFail) <==> exists k: nat :: Decides(b, k) && b[k] == Lost)
              && (VoteScan(b) == Some(Fail) <==> exists k: nat :: Decides(b, k) && b[k] == VoteNo)
  {
    if b != [] {
      var n := |b| - 1;
      var front := b[..n];
      VoteScanMeaning(front);
      assert forall i :: 0 <= i < n ==> front[i] == b[i];
      if b[n] == VoteYes {
        forall k: nat ensures Decides(b, k) <==> Decides(front, k) {
          assert Decides(b, k) ==> k != n;
        }
        assert forall k: nat :: Decides(front, k) ==> front[k] == b[k];
      } else {
        assert Decides(b, n);
        assert forall k: nat :: Decides(b, k) ==> k == n;
      }
    }
  }

  /** "A lost vote fails the cluster" is false of phase 1: a later no vote hides it. */
  lemma LostVoteCanHide()
    ensures VoteScan([Lost, VoteNo]) == Some(Fail)
    ensures VoteScan([VoteNo, Lost]) == Some(ClusterFail)
  {
    assert [Lost, VoteNo][..1] == [Lost] && [VoteNo, Lost][..1] == [VoteNo];
    assert [Lost][..0] == [] && [VoteNo][..0] == [];
    assert VoteScan([Lost]) == Some(ClusterFail) && VoteScan([VoteNo]) == Some(Fail);
  }

  // ---------------------------------------------------------------------- sending

  datatype Call = Call(conn: nat, code: Code)

  datatype SendOutcome = AllCommitted | Stopped | Terminated | StillSending

  function NonAgain(log: seq<Call>): nat {
    if log == [] then 0
    else NonAgain(log[..|log| - 1]) + if log[|log| - 1].code == EAgain then 0 else 1
  }

  /** How many calls on connection i have returned RTOFIRED. */
  function Rtos(log: seq<Call>, i: nat): nat {
    if log == [] then 0
    else Rtos(log[..|log| - 1], i) + if log[|log| - 1] == Call(i, RtoFired) then 1 else 0
  }

  /** The last call ends the program: its stream has finished, or it is one retransmission more
      than MAX_RTOS on its connection. */
  predicate Fatal(log: seq<Call>) {
    log != [] &&
    var front, last := log[..|log| - 1], log[|log| - 1];
    last.code == EFin || (last.code == RtoFired && Rtos(front, last.conn) >= MAX_RTOS)
  }

  predicate NeverFatal(log: seq<Call>) {
    log == [] || (NeverFatal(log[..|log| - 1]) && !Fatal(log))
  }

  /** The retransmissions that main counts: the one that ends the program is not. */
  function Retried(log: seq<Call>): nat {
    if log == [] then 0
    else Retried(log[..|log| - 1]) + if log[|log| - 1].code == RtoFired && !Fatal(log) then 1 else 0
  }

  /** The markers that are not negative count the retransmissions. */
  predicate RtosMatch(log: seq<Call>, marks: seq<int>) {
    forall i: nat :: i < |marks| && marks[i] >= 0 ==> marks[i] == Rtos(log, i)
  }

  lemma RtosOfCall(log: seq<Call>, marks: seq<int>, i: nat, code: Code)
    requires RtosMatch(log, marks) && NeverFatal(log) && i < |marks| && marks[i] >= 0
    ensures var log' := log + [Call(i, code)];
            && (Fatal(log') <==> code == EFin || (code == RtoFired && marks[i] >= MAX_RTOS))
            && (!Fatal(log') ==> NeverFatal(log') && RtosMatch(log', marks[i := Marked(marks[i], code)]))
            && Retried(log') == Retried(log) + (if code == RtoFired && !Fatal(log') then 1 else 0)
  {
    var log' := log + [Call(i, code)];
    assert log'[..|log'| - 1] == log;
  }

  /** No connection is called again after it returned ENONE. */
  predicate NeverAgain(log: seq<Call>) {
    forall p, q :: 0 <= p < q < |log| && log[p].code == ENone ==> log[q].conn != log[p].conn
  }

  predicate Committed(log: seq<Call>, i: nat) {
    Call(i, ENone) in log
  }

  function LastConn(log: seq<Call>): int {
    if log == [] then -1 else log[|log| - 1].conn
  }

  /** All connections behind `last` and before `i`, going round, are committed. */
  ghost predicate Passed(log: seq<Call>, last: int, i: nat, n: nat) {
    forall j: nat :: (if last < i then last < j < i else last < j < n || j < i) ==> Committed(log, j)
  }

  /** Every call is on the next connection in turn that is not committed yet. */
  ghost predicate InTurn(log: seq<Call>, n: nat) {
    log == [] ||
    var before := log[..|log| - 1];
    InTurn(before, n) && Passed(before, LastConn(before), LastConn(log), n)
  }

  /** The turn has come to connection i. */
  ghost predicate Due(log: seq<Call>, i: nat, n: nat) {
    InTurn(log, n) && Passed(log, LastConn(log), i, n)
  }

  lemma DueAfterSkip(log: seq<Call>, i: nat, n: nat)
    requires Due(log, i, n) && i < n && Committed(log, i)
    ensures Due(log, i + 1, n)
  {
  }

  lemma DueAfterCall(log: seq<Call>, i: nat, n: nat, code: Code)
    requires Due(log, i, n) && i < n
    ensures Due(log + [Call(i, code)], i + 1, n)
  {
    assert (log + [Call(i, code)])[..|log|] == log;
  }

  lemma DueAfterPass(log: seq<Call>, n: nat)
    requires Due(log, n, n) && LastConn(log) < n
    ensures Due(log, 0, n)
  {
  }

  /** The rules leave no choice: what the calls return determines which calls are made. */
  lemma {:induction false} CallsDetermined(results: seq<Code>, log: seq<Call>, other: seq<Call>, n: nat)
    requires |log| == |other|
    requires CallsMatch(results, log, n) && NeverAgain(log) && InTurn(log, n)
    requires CallsMatch(results, other, n) && NeverAgain(other) && InTurn(other, n)
    ensures log == other
  {
    if log != [] {
      var k := |log| - 1;
      CallsDetermined(results, log[..k], other[..k], n);
      if log[k].conn != other[k].conn {
        assert !Committed(log[..k], log[k].conn) && !Committed(other[..k], other[k].conn) by {
          OpenWhenCalled(log, k);
          OpenWhenCalled(other, k);
        }
        assert false;
      }
      assert log == log[..k] + [log[k]] && other == other[..k] + [other[k]];
    }
  }

  lemma OpenWhenCalled(log: seq<Call>, k: nat)
    requires NeverAgain(log) && k < |log|
    ensures !Committed(log[..k], log[k].conn)
  {
  }

  function Sum(s: seq<nat>): nat {
    if s == [] then 0 else Sum(s[..|s| - 1]) + s[|s| - 1]
  }

  lemma {:induction false} SumOfUpdate(s: seq<nat>, i: nat)
    requires i < |s|
    ensures Sum(s[i := s[i] + 1]) == Sum(s) + 1
  {
    var t := s[i := s[i] + 1];
    if i < |s| - 1 {
      SumOfUpdate(s[..|s| - 1], i);
      assert t[..|s| - 1] == s[..|s| - 1][i := s[i] + 1];
    } else {
      assert t[..|s| - 1] == s[..|s| - 1];
    }
  }

  lemma {:induction false} SumBound(s: seq<nat>, m: nat)
    requires forall i :: 0 <= i < |s| ==> s[i] <= m
    ensures Sum(s) <= |s| * m
  {
    if s != [] {
      SumBound(s[..|s| - 1], m);
    }
  }

  lemma {:induction false} SumOfZeros(s: seq<nat>)
    requires forall i :: 0 <= i < |s| ==> s[i] == 0
    ensures Sum(s) == 0
  {
    if s != [] {
      SumOfZeros(s[..|s| - 1]);
    }
  }

  function Negatives(s: seq<int>): (r: set<int>) {
    set i | 0 <= i < |s| && s[i] < 0
  }

  predicate NegativeBelow(s: seq<int>, i: nat) {
    i <= |s| && forall j :: 0 <= j < i ==> s[j] < 0
  }

  lemma {:induction false} FewNegatives(s: seq<int>)
    ensures |Negatives(s)| <= |s|
    ensures |Negatives(s)| == |s| <==> NegativeBelow(s, |s|)
  {
    if s != [] {
      var n := |s| - 1;
      var front := s[..n];
      FewNegatives(front);
      assert Negatives(s) == if s[n] < 0 then Negatives(front) + {n} else Negatives(front);
      assert n !in Negatives(front);
      assert forall i :: 0 <= i < n ==> front[i] == s[i];
    }
  }

  predicate CallsMatch(results: seq<Code>, log: seq<Call>, n: nat) {
    |log| <= |results| && forall k :: 0 <= k < |log| ==> log[k].code == results[k] && log[k].conn < n
  }

  predicate MarksMatch(log: seq<Call>, marks: seq<int>) {
    forall i: nat :: i < |marks| ==> (marks[i] < 0 <==> Committed(log, i))
  }

  /** `spent[i]` is the number of results other than EAGAIN that connection i has used. */
  predicate SpentMatch(spent: seq<nat>, marks: seq<int>) {
    |spent| == |marks| &&
    forall i :: 0 <= i < |marks| ==>
      if marks[i] < 0 then spent[i] <= MAX_RTOS + 1 else spent[i] == marks[i] <= MAX_RTOS
  }

  /** What holds between any two calls of end_write in the send loop. */
  predicate Progress(results: seq<Code>, log: seq<Call>, committed: int, spent: seq<nat>, marks: seq<int>) {
    && CallsMatch(results, log, |marks|) && NeverAgain(log)
    && MarksMatch(log, marks) && SpentMatch(spent, marks) && RtosMatch(log, marks) && NeverFatal(log)
    && committed == |Negatives(marks)| && NonAgain(log) == Sum(spent)
  }

  /** The marker after a result that does not end the loop. */
  function Marked(mark: int, code: Code): int {
    match code
    case ENone => -1
    case RtoFired => mark + 1
    case _ => mark
  }

  function Spend(spent: seq<nat>, i: nat, code: Code): seq<nat>
    requires i < |spent|
  {
    if code == EAgain then spent else spent[i := spent[i] + 1]
  }

  lemma OneMoreCall(log: seq<Call>, i: nat, code: Code)
    requires NeverAgain(log) && !Committed(log, i)
    ensures var log' := log + [Call(i, code)];
            && NeverAgain(log')
            && NonAgain(log') == NonAgain(log) + (if code == EAgain then 0 else 1)
            && forall j: nat :: Committed(log', j) <==> Committed(log, j) || (j == i && code == ENone)
  {
    var log' := log + [Call(i, code)];
    assert log'[..|log'| - 1] == log;
    forall p | 0 <= p < |log| && log[p].code == ENone ensures log[p].conn != i {
      assert log[p] == Call(log[p].conn, ENone);
    }
  }

  lemma NegativesOfUpdate(marks: seq<int>, i: nat, v: int)
    requires i < |marks| && marks[i] >= 0
    ensures |Negatives(marks[i := v])| == |Negatives(marks)| + if v < 0 then 1 else 0
  {
    assert i !in Negatives(marks);
    assert Negatives(marks[i := v]) == if v < 0 then Negatives(marks) + {i} else Negatives(marks);
  }

  lemma MarksOfCall(log: seq<Call>, marks: seq<int>, i: nat, code: Code)
    requires MarksMatch(log, marks) && NeverAgain(log) && i < |marks| && marks[i] >= 0
    ensures MarksMatch(log + [Call(i, code)], marks[i := Marked(marks[i], code)])
  {
    OneMoreCall(log, i, code);
  }

  lemma SpentOfCall(spent: seq<nat>, marks: seq<int>, i: nat, code: Code)
    requires SpentMatch(spent, marks) && i < |marks| && marks[i] >= 0
    requires code != EFin && (code == RtoFired ==> marks[i] < MAX_RTOS)
    ensures SpentMatch(Spend(spent, i, code), marks[i := Marked(marks[i], code)])
    ensures Sum(Spend(spent, i, code)) == Sum(spent) + if code == EAgain then 0 else 1
  {
    SumOfUpdate(spent, i);
  }

  lemma CallMatches(results: seq<Code>, log: seq<Call>, i: nat, n: nat)
    requires CallsMatch(results, log, n) && |log| < |results| && i < n
    ensures CallsMatch(results, log + [Call(i, results[|log|])], n)
  {
  }

  /** One call on an uncommitted connection that does not end the loop. */
  lemma CallProgress(results: seq<Code>, log: seq<Call>, committed: int, spent: seq<nat>, marks: seq<int>, i: nat)
    requires Progress(results, log, committed, spent, marks) && i < |marks| && marks[i] >= 0 && |log| < |results|
    requires var code := results[|log|]; code != EFin && (code == RtoFired ==> marks[i] < MAX_RTOS)
    ensures var code := results[|log|];
            Progress(results, log + [Call(i, code)], committed + (if code == ENone then 1 else 0),
                     Spend(spent, i, code), marks[i := Marked(marks[i], code)])
  {
    var code := results[|log|];
    CallMatches(results, log, i, |marks|);
    OneMoreCall(log, i, code);
    MarksOfCall(log, marks, i, code);
    SpentOfCall(spent, marks, i, code);
    NegativesOfUpdate(marks, i, Marked(marks[i], code));
    RtosOfCall(log, marks, i, code);
  }

  /** What the progress made so far says about the calls. */
  lemma ProgressMeans(results: seq<Code>, log: seq<Call>, committed: int, spent: seq<nat>, marks: seq<int>)
    requires Progress(results, log, committed, spent, marks)
    ensures committed <= |marks| && NonAgain(log) <= |marks| * (MAX_RTOS + 1)
    ensures committed == |marks| <==> forall i: nat :: i < |marks| ==> Committed(log, i)
    ensures forall i :: 0 <= i < |marks| && marks[i] >= 0 ==> committed < |marks|
  {
    FewNegatives(marks);
    SumBound(spent, MAX_RTOS + 1);
  }

  /** Before everything is committed some connection is not. */
  lemma SomeWaiting(results: seq<Code>, log: seq<Call>, committed: int, spent: seq<nat>, marks: seq<int>) returns (k: nat)
    requires Progress(results, log, committed, spent, marks) && committed < |marks|
    ensures k < |marks| && marks[k] >= 0
  {
    FewNegatives(marks);
    k :| k < |marks| && marks[k] >= 0;
  }

  /** A connection whose marker is negative is passed over. */
  lemma PassOver(results: seq<Code>, log: seq<Call>, committed: int, spent: seq<nat>, marks: seq<int>, i: nat)
    requires Progress(results, log, committed, spent, marks) && Due(log, i, |marks|) && i < |marks| && marks[i] < 0
    ensures Due(log, i + 1, |marks|)
  {
    DueAfterSkip(log, i, |marks|);
  }

  /** At the end of a pass the turn goes back to the first connection. */
  lemma PassIsOver(results: seq<Code>, log: seq<Call>, committed: int, spent: seq<nat>, marks: seq<int>, i: nat)
    requires Progress(results, log, committed, spent, marks) && Due(log, i, |marks|)
    ensures committed <= |marks| && InTurn(log, |marks|) && (i == |marks| ==> Due(log, 0, |marks|))
  {
    ProgressMeans(results, log, committed, spent, marks);
    if i == |marks| {
      DueAfterPass(log, |marks|);
    }
  }

  /** What holds when the last call has terminated the program. */
  ghost predicate Ended(results: seq<Code>, log: seq<Call>, marks: seq<int>) {
    && CallsMatch(results, log, |marks|) && NeverAgain(log) && MarksMatch(log, marks)
    && NonAgain(log) <= |marks| * (MAX_RTOS + 1)
    && Fatal(log) && NeverFatal(log[..|log| - 1])
    && exists i: nat :: i < |marks| && !Committed(log, i)
  }

  /** The call that ends the loop by terminating the program. */
  lemma LastCall(results: seq<Code>, log: seq<Call>, committed: int, spent: seq<nat>, marks: seq<int>, i: nat)
    requires Progress(results, log, committed, spent, marks) && i < |marks| && marks[i] >= 0 && |log| < |results|
    requires results[|log|] == EFin || (results[|log|] == RtoFired && marks[i] >= MAX_RTOS)
    ensures Ended(results, log + [Call(i, results[|log|])], marks)
  {
    OneMoreCall(log, i, results[|log|]);
    RtosOfCall(log, marks, i, results[|log|]);
    SumOfUpdate(spent, i);
    SumBound(spent[i := spent[i] + 1], MAX_RTOS + 1);
  }

  /** How the send loop ends, from the calls alone: it terminates the program exactly at the
      first fatal call, is done exactly when everything is committed, and otherwise goes on until
      it is stopped. */
  ghost predicate SendEnds(results: seq<Code>, log: seq<Call>, n: nat, stopAfter: nat, outcome: SendOutcome) {
    && (outcome == AllCommitted <==> forall i: nat :: i < n ==> Committed(log, i))
    && (outcome == Terminated <==> Fatal(log))
    && (log != [] ==> NeverFatal(log[..|log| - 1]))
    && (outcome == Stopped ==> |log| == stopAfter)
    && (outcome == StillSending ==> |log| == |results| < stopAfter)
  }

  lemma EndsInPass(results: seq<Code>, log: seq<Call>, committed: int, spent: seq<nat>, marks: seq<int>,
                   stopAfter: nat, end: SendOutcome)
    requires end == StillSending ==> Progress(results, log, committed, spent, marks) && committed < |marks|
    requires end == StillSending ==> |log| == |results| < stopAfter
    requires end == Terminated ==> Ended(results, log, marks)
    requires end == StillSending || end == Terminated
    ensures CallsMatch(results, log, |marks|) && NeverAgain(log) && MarksMatch(log, marks)
    ensures NonAgain(log) <= |marks| * (MAX_RTOS + 1)
    ensures SendEnds(results, log, |marks|, stopAfter, end)
  {
    if end == StillSending {
      ProgressMeans(results, log, committed, spent, marks);
    }
  }

  lemma EndsAfterPass(results: seq<Code>, log: seq<Call>, committed: int, spent: seq<nat>, marks: seq<int>, stopAfter: nat)
    requires Progress(results, log, committed, spent, marks) && (committed >= |marks| || |log| == stopAfter)
    ensures CallsMatch(results, log, |marks|) && NeverAgain(log) && MarksMatch(log, marks)
    ensures NonAgain(log) <= |marks| * (MAX_RTOS + 1)
    ensures SendEnds(results, log, |marks|, stopAfter, if committed >= |marks| then AllCommitted else Stopped)
  {
    ProgressMeans(results, log, committed, spent, marks);
  }

  // ------------------------------------------------ the send loop as steps of the state machine

  function Called(log: seq<Call>): set<nat> {
    set k | 0 <= k < |log| :: log[k].conn
  }

  function Finished(log: seq<Call>): set<nat> {
    set k | 0 <= k < |log| && log[k].code == ENone :: log[k].conn
  }

  /** Main picks connection i, calls end_write and looks at the result; None if some of these
      steps is not enabled. */
  function CallSteps(c: Config, p: Program, i: nat, code: Code): (q: Option<Program>)
    requires Shaped(c, p)
    ensures q.Some? ==> Shaped(c, q.value)
  {
    var m := Msg(Lost, SERVER_ID);
    if !CanMain(c, p, Pick(i)) then None
    else
      var called := MainNext(c, MainNext(c, p, Pick(i), m), EndWrite, m);
      Some(MainNext(c, called, if code == ENone then Acknowledged else Again, m))
  }

  function AfterCalls(c: Config, p: Program, log: seq<Call>): (q: Option<Program>)
    requires Shaped(c, p)
    ensures q.Some? ==> Shaped(c, q.value)
  {
    if log == [] then Some(p)
    else
      var before := AfterCalls(c, p, log[..|log| - 1]);
      if before.Some? then CallSteps(c, before.value, log[|log| - 1].conn, log[|log| - 1].code) else None
  }

  lemma CallIsSteps(c: Config, p: Program, i: nat, code: Code)
    requires Shaped(c, p) && p.pc.Sending? && i < c.n && i !in p.pc.done && !p.stop
    ensures var q := CallSteps(c, p, i, code);
            q.Some? && q.value == p.(pc := Sending(p.pc.put + {i}, if code == ENone then p.pc.done + {i} else p.pc.done))
  {
  }

  /** SENDING IS STEPS. The calls that the send loop makes while stop_signal is not raised are
      steps of the state machine, and they bring it to where it has sent to the connections that
      were called and finished with those that are committed; so it can leave its loop exactly
      when the send loop leaves it with everything committed. */
  lemma {:induction false} SendingIsSteps(c: Config, p: Program, log: seq<Call>)
    requires Shaped(c, p) && p.pc == Sending({}, {}) && !p.stop
    requires NeverAgain(log) && forall k :: 0 <= k < |log| ==> log[k].conn < c.n
    ensures var q := AfterCalls(c, p, log);
            && q.Some? && q.value == p.(pc := Sending(Called(log), Finished(log)))
            && (CanMain(c, q.value, SendExit) <==> forall i: nat :: i < c.n ==> Committed(log, i))
  {
    if log != [] {
      var n := |log| - 1;
      var front := log[..n];
      SendingIsSteps(c, p, front);
      assert log[n].conn !in Finished(front);
      CallIsSteps(c, AfterCalls(c, p, front).value, log[n].conn, log[n].code);
      OneMoreFinished(log);
    }
    forall i: nat | i < c.n ensures i in Finished(log) <==> Committed(log, i) {
      if Committed(log, i) {
        var k :| 0 <= k < |log| && log[k] == Call(i, ENone);
        assert log[k].conn in Finished(log);
      }
    }
  }

  lemma OneMoreFinished(log: seq<Call>)
    requires log != []
    ensures var front, last := log[..|log| - 1], log[|log| - 1];
            && Called(log) == Called(front) + {last.conn}
            && Finished(log) == if last.code == ENone then Finished(front) + {last.conn} else Finished(front)
  {
    var n := |log| - 1;
    assert forall k :: 0 <= k < n ==> log[..n][k] == log[k];
    forall i | i in Called(log) ensures i in Called(log[..n]) + {log[n].conn} {
      var k :| 0 <= k < |log| && log[k].conn == i;
      assert k < n ==> log[..n][k].conn in Called(log[..n]);
    }
    forall i | i in Finished(log) && i != log[n].conn ensures i in Finished(log[..n]) {
      var k :| 0 <= k < |log| && log[k].code == ENone && log[k].conn == i;
      assert log[..n][k].conn in Finished(log[..n]);
    }
  }

  class Coordinator {
    const n: nat
    const board: array<Kind>          // votes_scoreboard
    const rtoFired: array<int>        // conn_rtofired_count; negative means committed
    var totalRtos: int

    ghost predicate Valid() {
      board.Length == n && rtoFired.Length == n
    }

    constructor (n: nat)
      ensures Valid() && this.n == n && totalRtos == 0
      ensures fresh(board) && fresh(rtoFired)
    {
      this.n := n;
      board := new Kind[n](_ => Lost);
      rtoFired := new int[n](_ => 0);
      totalRtos := 0;
    }

    /** The loop that starts both phases. */
    method ClearBoard()
      requires Valid()
      modifies board
      ensures board[..] == seq(n, _ => Lost)
    {
      for i := 0 to n
        invariant forall j :: 0 <= j < i ==> board[j] == Lost
      {
        board[i] := Lost;
      }
    }

    /** The scan of do_phase1 when stop_signal is first seen at entry `stopAt`. */
    method ScanVotes(stopAt: nat) returns (result: Option<Verdict>)
      requires Valid()
      ensures result == VoteScan(board[..if stopAt < n then stopAt else n])
    {
      var status := Success;
      var i := 0;
      while i < n && i < stopAt
        invariant 0 <= i <= n && i <= stopAt
        invariant VoteScan(board[..i]) == Some(status)
        decreases n - i
      {
        assert board[..i + 1][..i] == board[..i];
        match board[i] {
          case VoteYes =>
          case VoteNo => status := Fail;
          case Lost => status := ClusterFail;
          case _ =>
            ScanStopsAt(board[..if stopAt < n then stopAt else n], i);
            return None;
        }
        i := i + 1;
      }
      return Some(status);
    }

    /** The scan of do_phase2: true iff all entries seen are acks. */
    method ScanAcks(stopAt: nat) returns (ok: bool)
      requires Valid()
      ensures ok <==> forall i :: 0 <= i < n && i < stopAt ==> board[i] == Ack
    {
      ok := true;
      var i := 0;
      while i < n && i < stopAt
        invariant 0 <= i <= n
        invariant ok <==> forall k :: 0 <= k < i && k < stopAt ==> board[k] == Ack
        decreases n - i
      {
        if board[i] != Ack {
          ok := false;
        }
        i := i + 1;
      }
    }

    /** The switch of the send loop, for the results that do not end it. */
    method Absorb(i: nat, result: Code) returns (committed: nat)
      requires Valid() && i < n && result != EFin
      modifies this`totalRtos, rtoFired
      ensures rtoFired[..] == old(rtoFired[..])[i := Marked(old(rtoFired[i]), result)]
      ensures totalRtos == old(totalRtos) + if result == RtoFired then 1 else 0
      ensures committed == if result == ENone then 1 else 0
    {
      committed := 0;
      match result
      case RtoFired =>
        rtoFired[i] := rtoFired[i] + 1;
        totalRtos := totalRtos + 1;
      case EAgain =>
      case ENone =>
        rtoFired[i] := -1;
        committed := 1;
    }

    /** One call of end_write, on a connection that is not committed; `end` says whether it
        ends the loop. */
    method CallOne(i: nat, results: seq<Code>, before: seq<Call>, already: nat, ghost spentBefore: seq<nat>)
      returns (end: Option<SendOutcome>, log: seq<Call>, committed: nat, ghost spent: seq<nat>)
      requires Valid() && i < n && rtoFired[i] >= 0
      requires Progress(results, before, already, spentBefore, rtoFired[..]) && Due(before, i, n)
      modifies this`totalRtos, rtoFired
      ensures InTurn(log, n)
      ensures end != Some(Terminated) ==> Progress(results, log, committed, spent, rtoFired[..])
      ensures end == Some(StillSending) ==> |log| == |before| == |results| && committed < n
      ensures end == Some(Terminated) ==> Ended(results, log, rtoFired[..])
      ensures totalRtos - Retried(log) == old(totalRtos) - Retried(before)
      ensures end == None ==> |log| == |before| + 1 && Due(log, i + 1, n)
      ensures end == None || end == Some(StillSending) || end == Some(Terminated)
    {
      log, committed, spent := before, already, spentBefore;
      if |log| == |results| {
        ProgressMeans(results, log, committed, spent, rtoFired[..]);
        return Some(StillSending), log, committed, spent;
      }
      var result := results[|log|];
      log := log + [Call(i, result)];
      DueAfterCall(before, i, n, result);
      RtosOfCall(before, rtoFired[..], i, result);
      if result == EFin || (result == RtoFired && rtoFired[i] >= MAX_RTOS) {
        LastCall(results, before, committed, spent, rtoFired[..], i);
        return Some(Terminated), log, committed, spent;
      }
      CallProgress(results, before, committed, spent, rtoFired[..], i);
      var now := Absorb(i, result);
      return None, log, committed + now, Spend(spent, i, result);
    }

    /** The loop that resets the markers before sending. */
    method ClearMarks(results: seq<Code>) returns (ghost spent: seq<nat>)
      requires Valid()
      modifies rtoFired
      ensures Progress(results, [], 0, spent, rtoFired[..])
    {
      for i := 0 to n
        invariant forall j :: 0 <= j < i ==> rtoFired[j] == 0
      {
        rtoFired[i] := 0;
      }
      spent := seq(n, _ => 0);
      SumOfZeros(spent);
      assert Negatives(rtoFired[..]) == {};
    }

    /** One pass of the send loop over the connections that are not committed yet; `end`
        says how it ended the whole loop, if it did. */
    method SendPass(results: seq<Code>, stopAfter: nat, before: seq<Call>, already: nat, ghost spentBefore: seq<nat>)
      returns (end: Option<SendOutcome>, log: seq<Call>, committed: nat, ghost spent: seq<nat>)
      requires Valid() && |before| < stopAfter && already < n
      requires Progress(results, before, already, spentBefore, rtoFired[..]) && Due(before, 0, n)
      modifies this`totalRtos, rtoFired
      ensures InTurn(log, n)
      ensures end != Some(Terminated) ==> Progress(results, log, committed, spent, rtoFired[..]) && |log| <= stopAfter
      ensures end == None ==> |before| < |log| && (|log| < stopAfter ==> Due(log, 0, n)) && committed <= n
      ensures end == Some(StillSending) ==> |log| == |results| < stopAfter && committed < n
      ensures end == Some(Terminated) ==> Ended(results, log, rtoFired[..])
      ensures totalRtos - Retried(log) == old(totalRtos) - Retried(before)
      ensures end == None || end == Some(StillSending) || end == Some(Terminated)
    {
      log, committed, spent := before, already, spentBefore;
      ghost var waiting := SomeWaiting(results, log, committed, spent, rtoFired[..]);
      var i := 0;
      while i < n && |log| < stopAfter
        invariant 0 <= i <= n && |before| <= |log| <= stopAfter
        invariant Progress(results, log, committed, spent, rtoFired[..]) && Due(log, i, n)
        invariant |log| == |before| ==> i <= waiting && rtoFired[waiting] >= 0
        invariant totalRtos - Retried(log) == old(totalRtos) - Retried(before)
      {
        if rtoFired[i] >= 0 {
          end, log, committed, spent := CallOne(i, results, log, committed, spent);
          if end.Some? {
            return;
          }
        } else {
          PassOver(results, log, committed, spent, rtoFired[..], i);
        }
        i := i + 1;
      }
      PassIsOver(results, log, committed, spent, rtoFired[..], i);
      end := None;
    }

    /** The send loop of send_request. `results` are what successive calls of end_write
        return, and stop_signal is raised after `stopAfter` of them. It terminates the program
        exactly at the first call that is fatal, is done exactly when everything is committed,
        and otherwise goes on until it is stopped. */
    method SendRequest(results: seq<Code>, stopAfter: nat)
      returns (outcome: SendOutcome, log: seq<Call>)
      requires Valid()
      modifies this`totalRtos, rtoFired
      ensures CallsMatch(results, log, n) && NeverAgain(log) && InTurn(log, n)
      ensures NonAgain(log) <= n * (MAX_RTOS + 1)
      ensures MarksMatch(log, rtoFired[..])
      ensures SendEnds(results, log, n, stopAfter, outcome)
      ensures totalRtos == old(totalRtos) + Retried(log)
    {
      log := [];
      var committed := 0;
      ghost var spent := ClearMarks(results);
      while committed < n && |log| < stopAfter
        invariant Progress(results, log, committed, spent, rtoFired[..]) && committed <= n
        invariant totalRtos == old(totalRtos) + Retried(log)
        invariant |log| <= stopAfter && InTurn(log, n) && (|log| < stopAfter ==> Due(log, 0, n))
        decreases |results| - |log|
      {
        var end;
        end, log, committed, spent := SendPass(results, stopAfter, log, committed, spent);
        if end.Some? {
          EndsInPass(results, log, committed, spent, rtoFired[..], stopAfter, end.value);
          return end.value, log;
        }
      }
      EndsAfterPass(results, log, committed, spent, rtoFired[..], stopAfter);
      outcome := if committed >= n then AllCommitted else Stopped;
    }
  }

  lemma {:induction false} ScanStopsAt(b: seq<Kind>, i: nat)
    requires i < |b| && !IsVote(b[i])
    ensures VoteScan(b) == None
  {
    VoteScanMeaning(b);
  }
}
