/** One turn of a worker thread in its own form, undisturbed by other threads: the test of
    the signals and the pass over its connections. */
module WorkerProgram {
  import opened Messages
  import T = TwoPhase

  /** What beg_read finds on a connection during the pass. */
  datatype Find = Message(m: Msg) | Nothing | Ended

  /** A message whose client id passes the bounds check. */
  predicate InBounds(f: Find, count: nat) {
    f.Message? && 1 <= f.m.src <= count
  }

  /** Where the pass ends: at the first stream that has finished, or behind the last one. */
  function PassEnd(found: seq<Find>, i: nat): (e: nat)
    requires i <= |found|
    ensures i <= e <= |found| && (e < |found| ==> found[e] == Ended)
    ensures forall k :: i <= k < e ==> found[k] != Ended
    decreases |found| - i
  {
    if i == |found| || found[i] == Ended then i else PassEnd(found, i + 1)
  }

  /** The messages taken from the first n finds, in order. */
  function Taken(found: seq<Find>, n: nat, count: nat): seq<Msg>
    requires n <= |found|
  {
    if n == 0 then []
    else Taken(found, n - 1, count) + if InBounds(found[n - 1], count) then [found[n - 1].m] else []
  }

  /** The scoreboard after the messages in the first n finds were posted in order. */
  function BoardAfter(board: seq<Kind>, found: seq<Find>, n: nat): (r: seq<Kind>)
    requires n <= |found|
    ensures |r| == |board|
  {
    if n == 0 then board
    else
      var before := BoardAfter(board, found, n - 1);
      if InBounds(found[n - 1], |board|) then before[found[n - 1].m.src - 1 := found[n - 1].m.kind] else before
  }

  predicate From(f: Find, client: nat) {
    f.Message? && f.m.src == client
  }

  /** Entry k after a pass is the kind of the last message from client k + 1, or the old
      entry if there was none; and every entry that a client got was taken from it. */
  lemma {:induction false} BoardMeaning(board: seq<Kind>, found: seq<Find>, n: nat, k: nat)
    requires n <= |found| && k < |board|
    ensures (forall i :: 0 <= i < n ==> !From(found[i], k + 1)) ==> BoardAfter(board, found, n)[k] == board[k]
    ensures forall i :: 0 <= i < n && From(found[i], k + 1) && (forall j :: i < j < n ==> !From(found[j], k + 1))
              ==> BoardAfter(board, found, n)[k] == found[i].m.kind
    ensures BoardAfter(board, found, n)[k] != board[k] ==> Msg(BoardAfter(board, found, n)[k], k + 1) in Taken(found, n, |board|)
  {
    if n > 0 {
      BoardMeaning(board, found, n - 1, k);
      var last := found[n - 1];
      if From(last, k + 1) {
        assert last.m == Msg(BoardAfter(board, found, n)[k], k + 1);
      } else {
        assert BoardAfter(board, found, n)[k] == BoardAfter(board, found, n - 1)[k];
      }
    }
  }

  /** The program after these steps of worker t of the state machine, m being what a fetch
      receives; None if some step is not enabled. */
  function After(c: T.Config, p: T.Program, t: nat, m: Msg, acts: seq<T.WorkerAct>): (q: Option<T.Program>)
    requires T.Shaped(c, p)
    ensures q.Some? ==> T.Shaped(c, q.value)
    decreases |acts|
  {
    if acts == [] then Some(p)
    else if T.CanWorker(c, p, t, acts[0]) then After(c, T.WorkerNext(c, p, t, acts[0], m), t, m, acts[1..])
    else None
  }

  /** Worker t takes m from connection j and, if it is in bounds, posts, releases and counts it. */
  function Steps(j: nat, m: Msg, count: nat): seq<T.WorkerAct> {
    [T.Fetch(j), T.Post] + if InBounds(Message(m), count) then [T.EndRead, T.Load, T.Store] else []
  }

  lemma AfterStep(c: T.Config, p: T.Program, t: nat, m: Msg, a: T.WorkerAct, acts: seq<T.WorkerAct>)
    requires T.Shaped(c, p) && T.CanWorker(c, p, t, a)
    ensures After(c, p, t, m, [a] + acts) == After(c, T.WorkerNext(c, p, t, a, m), t, m, acts)
  {
    assert ([a] + acts)[1..] == acts;
  }

  lemma TakeIsSteps(c: T.Config, p: T.Program, t: nat, j: nat, m: Msg)
    requires T.Shaped(c, p) && t < c.workers && p.workers[t] == T.Pass && !p.pc.Connecting?
    requires j < c.n && j < |c.owner| && c.owner[j] == t
    ensures var q := After(c, p, t, m, Steps(j, m, c.n));
            && q.Some?
            && q.value == if InBounds(Message(m), c.n)
                          then p.(board := p.board[m.src - 1 := m.kind], count := p.count[t := p.count[t] + 1])
                          else p
  {
    var tail := if InBounds(Message(m), c.n) then [T.EndRead, T.Load, T.Store] else [];
    var p1 := T.WorkerNext(c, p, t, T.Fetch(j), m);
    var p2 := T.WorkerNext(c, p1, t, T.Post, m);
    assert Steps(j, m, c.n) == [T.Fetch(j)] + ([T.Post] + tail);
    AfterStep(c, p, t, m, T.Fetch(j), [T.Post] + tail);
    AfterStep(c, p1, t, m, T.Post, tail);
    if InBounds(Message(m), c.n) {
      CountIsSteps(c, p2, t, j, m);
      assert p2.workers[t := T.Pass] == p.workers;
    } else {
      assert p2.workers == p.workers;
    }
  }

  lemma CountIsSteps(c: T.Config, p: T.Program, t: nat, j: nat, m: Msg)
    requires T.Shaped(c, p) && t < c.workers && p.workers[t] == T.Posted(j) && !p.pc.Connecting?
    ensures var q := After(c, p, t, m, [T.EndRead, T.Load, T.Store]);
            q.Some? && q.value == p.(workers := p.workers[t := T.Pass], count := p.count[t := p.count[t] + 1])
  {
    var p1 := T.WorkerNext(c, p, t, T.EndRead, m);
    var p2 := T.WorkerNext(c, p1, t, T.Load, m);
    assert [T.EndRead, T.Load, T.Store] == [T.EndRead] + ([T.Load] + ([T.Store] + []));
    AfterStep(c, p, t, m, T.EndRead, [T.Load] + ([T.Store] + []));
    AfterStep(c, p1, t, m, T.Load, [T.Store] + []);
    AfterStep(c, p2, t, m, T.Store, []);
  }

  /** The program after an undisturbed pass over the first n finds, connection lo + k being
      where find k is made. */
  function AfterPass(c: T.Config, p: T.Program, t: nat, lo: nat, found: seq<Find>, n: nat): (q: Option<T.Program>)
    requires T.Shaped(c, p) && n <= |found|
    ensures q.Some? ==> T.Shaped(c, q.value)
  {
    if n == 0 then Some(p)
    else
      var before := AfterPass(c, p, t, lo, found, n - 1);
      if before.Some? && found[n - 1].Message? then After(c, before.value, t, found[n - 1].m, Steps(lo + n - 1, found[n - 1].m, c.n)) else before
  }

  /** The program with this scoreboard and k more counted by worker t. */
  function Counted(p: T.Program, t: nat, board: seq<Kind>, k: nat): T.Program
    requires t < |p.count|
  {
    p.(board := board, count := p.count[t := p.count[t] + k])
  }

  lemma OneMoreCounted(c: T.Config, p: T.Program, t: nat, j: nat, board: seq<Kind>, k: nat, m: Msg)
    requires T.Shaped(c, p) && t < c.workers && p.workers[t] == T.Pass && !p.pc.Connecting? && |board| == c.n
    requires j < c.n && j < |c.owner| && c.owner[j] == t
    ensures var q := After(c, Counted(p, t, board, k), t, m, Steps(j, m, c.n));
            && q.Some?
            && q.value == if InBounds(Message(m), c.n) then Counted(p, t, board[m.src - 1 := m.kind], k + 1)
                          else Counted(p, t, board, k)
  {
    TakeIsSteps(c, Counted(p, t, board, k), t, j, m);
    UpdateTwice(p.count, t, p.count[t] + k, p.count[t] + k + 1);
  }

  /** A TURN IS STEPS. What Turn proves of an undisturbed pass is what the steps of the state
      machine do when nobody comes in between. */
  lemma {:induction false} PassIsSteps(c: T.Config, p: T.Program, t: nat, lo: nat, found: seq<Find>, n: nat)
    requires T.Shaped(c, p) && t < c.workers && p.workers[t] == T.Pass && !p.pc.Connecting? && n <= |found|
    requires lo + n <= c.n <= |c.owner| && forall k :: lo <= k < lo + n ==> c.owner[k] == t
    ensures var q := AfterPass(c, p, t, lo, found, n);
            q.Some? && q.value == Counted(p, t, BoardAfter(p.board, found, n), |Taken(found, n, c.n)|)
  {
    if n > 0 {
      PassIsSteps(c, p, t, lo, found, n - 1);
      if found[n - 1].Message? {
        OneMoreCounted(c, p, t, lo + n - 1, BoardAfter(p.board, found, n - 1), |Taken(found, n - 1, c.n)|, found[n - 1].m);
        assert AfterPass(c, p, t, lo, found, n - 1).value == Counted(p, t, BoardAfter(p.board, found, n - 1), |Taken(found, n - 1, c.n)|);
      }
    }
  }

  lemma UpdateTwice(s: seq<int>, t: nat, x: int, y: int)
    requires t < |s|
    ensures s[t := x][t := y] == s[t := y]
  {
  }

  class Worker {
    const threadId: nat
    const board: array<Kind>     // votes_scoreboard
    const counts: array<int>     // votes_count
    var stop: bool
    var taken: seq<Msg>          // messages read and released, in order

    constructor (threadId: nat, board: array<Kind>, counts: array<int>)
      ensures this.threadId == threadId && this.board == board && this.counts == counts && !stop && taken == []
    {
      this.threadId, this.board, this.counts := threadId, board, counts;
      stop, taken := false, [];
    }

    /** One turn: nothing once stopped; a paused worker clears its own counter; otherwise
        the pass posts every message it takes, in order, and counts each exactly once. */
    method Turn(pause: bool, found: seq<Find>) returns (running: bool)
      requires threadId < counts.Length
      modifies this`stop, this`taken, board, counts
      ensures running == !old(stop)
      ensures old(stop) || pause ==> taken == old(taken) && board[..] == old(board[..]) && stop == old(stop)
      ensures old(stop) ==> counts[..] == old(counts[..])
      ensures !old(stop) && pause ==> counts[..] == old(counts[..])[threadId := 0]
      ensures !old(stop) && !pause ==>
                var e := PassEnd(found, 0);
                && taken == old(taken) + Taken(found, e, board.Length)
                && board[..] == BoardAfter(old(board[..]), found, e)
                && counts[..] == old(counts[..])[threadId := old(counts[threadId]) + |Taken(found, e, board.Length)|]
                && (stop <==> Ended in found)
    {
      if stop {
        return false;
      }
      if pause {
        counts[threadId] := 0;
        return true;
      }
      Pass(found);
      return true;
    }

    /** The board, the counters and what was taken after the first i finds of a pass. */
    twostate predicate PassedTo(found: seq<Find>, i: nat)
      requires i <= |found| && threadId < counts.Length
      reads this, board, counts
    {
      && taken == old(taken) + Taken(found, i, board.Length)
      && board[..] == BoardAfter(old(board[..]), found, i)
      && counts[..] == old(counts[..])[threadId := old(counts[threadId]) + |Taken(found, i, board.Length)|]
    }

    /** The pass over the connections. */
    method Pass(found: seq<Find>)
      requires threadId < counts.Length && !stop
      modifies this`stop, this`taken, board, counts
      ensures PassedTo(found, PassEnd(found, 0)) && (stop <==> Ended in found)
    {
      var i := 0;
      while i < |found|
        invariant 0 <= i <= |found| && !stop
        invariant PassEnd(found, 0) == PassEnd(found, i)
        invariant PassedTo(found, i)
      {
        match found[i] {
          case Nothing =>
          case Ended =>
            stop := true;
            return;
          case Message(m) =>
            if 1 <= m.src <= board.Length {
              Record(m);
            }
        }
        i := i + 1;
      }
    }

    /** Posts, releases and counts one message. */
    method Record(m: Msg)
      requires threadId < counts.Length && 1 <= m.src <= board.Length
      modifies this`taken, board, counts
      ensures board[..] == old(board[..])[m.src - 1 := m.kind] && taken == old(taken) + [m]
      ensures counts[..] == old(counts[..])[threadId := old(counts[threadId]) + 1]
    {
      board[m.src - 1] := m.kind;
      taken := taken + [m];
      counts[threadId] := counts[threadId] + 1;
    }
  }
}
