/** How server_init splits the connections among the worker threads. */
module Partition {
  import opened Messages
  import opened TwoPhase

  /** Ceiling division, at least one. */
  function PerThread(clients: nat, threads: nat): (r: nat)
    requires threads >= 1
    ensures r >= 1
  {
    var up := (clients + threads - 1) / threads;
    if up < 1 then 1 else up
  }

  /** Enough threads times enough connections each: together they hold all clients, and one
      connection less for each thread would not do. */
  lemma CoversAll(clients: nat, threads: nat)
    requires threads >= 1 && clients >= 1
    ensures PerThread(clients, threads) <= clients
    ensures Min(threads, clients) * PerThread(clients, threads) >= clients
    ensures threads * (PerThread(clients, threads) - 1) < clients
  {
    var up := (clients + threads - 1) / threads;
    CeilingBounds(clients, threads, up);
    if up < 1 {
      MulOrder(up, 0, threads);
    }
    if up > clients {
      MulOrder(clients, up - 1, threads);
      MulOrder(1, threads, clients);
    }
    MulOrder(1, up, clients);
  }

  lemma CeilingBounds(clients: nat, threads: nat, up: int)
    requires threads >= 1 && up == (clients + threads - 1) / threads
    ensures threads * up >= clients && threads * (up - 1) < clients
  {
    var all := clients + threads - 1;
    assert all == threads * up + all % threads;
    assert threads * (up - 1) == threads * up - threads;
  }

  lemma MulOrder(a: int, b: int, k: nat)
    ensures a <= b ==> k * a <= k * b && a * k <= b * k
  {
  }

  /** Connection j belongs to the interval of exactly one worker. */
  predicate Owns(lo: seq<nat>, hi: seq<nat>, t: nat, j: nat) {
    t < |lo| && t < |hi| && lo[t] <= j < hi[t]
  }

  /** THREAD PARTITION. For every thread count and client count of at least one, the
      min(threads, clients) intervals are in bounds, and every connection lies in exactly
      one of them, so it has exactly one reader: `owner` lists it. */
  method Split(threads: nat, clients: nat) returns (lo: seq<nat>, hi: seq<nat>, owner: seq<nat>)
    requires threads >= 1 && clients >= 1
    ensures |lo| == |hi| == Min(threads, clients) && |owner| == clients
    ensures forall t :: 0 <= t < |lo| ==> hi[t] - lo[t] <= PerThread(clients, threads)
    ensures forall t :: 0 <= t < |lo| ==> lo[t] <= hi[t] <= clients
    ensures forall j :: 0 <= j < clients ==> owner[j] < |lo|
    ensures forall j: nat, t: nat :: j < clients ==> (Owns(lo, hi, t, j) <==> t == owner[j])
  {
    var consPerThread := PerThread(clients, threads);
    var realThreads := Min(threads, clients);
    CoversAll(clients, threads);
    lo, hi, owner := [], [], [];
    var l, h := 0, consPerThread;
    var i := 0;
    while i < realThreads
      invariant 0 <= i <= realThreads && |lo| == |hi| == i
      invariant l == Min(i * consPerThread, clients) && h == Min((i + 1) * consPerThread, clients)
      invariant |owner| == l && forall j :: 0 <= j < l ==> owner[j] < i
      invariant forall t :: 0 <= t < i ==> lo[t] <= hi[t] <= l && hi[t] - lo[t] <= consPerThread
      invariant forall j: nat, t: nat :: j < l ==> (Owns(lo, hi, t, j) <==> t == owner[j])
    {
      Advance(i, consPerThread);
      var lo', hi' := lo + [l], hi + [h];
      var owner' := owner + seq(h - l, _ => i);
      forall j: nat, t: nat | j < h ensures Owns(lo', hi', t, j) <==> t == owner'[j] {
        if t < i {
          assert Owns(lo', hi', t, j) <==> Owns(lo, hi, t, j);
          assert lo[t] <= hi[t] <= l;
        }
        if j < l {
          assert Owns(lo, hi, owner[j], j);
        }
      }
      lo, hi, owner := lo', hi', owner';
      l := h;
      h := Min(clients, l + consPerThread);
      i := i + 1;
    }
  }

  /** Workers that own the connections as Split says are a configuration of the state machine,
      whoever is at the far end of each connection. */
  lemma SplitIsConfig(threads: nat, clients: nat, owner: seq<nat>, ids: seq<int>, vote: (nat, nat) -> bool)
    requires threads >= 1 && clients >= 1 && |owner| == clients && |ids| == clients
    requires forall j :: 0 <= j < clients ==> owner[j] < Min(threads, clients)
    requires forall j :: 0 <= j < clients ==> 1 <= ids[j] <= clients
    requires forall i, j :: 0 <= i < j < clients ==> ids[i] != ids[j]
    ensures ValidConfig(Config(clients, Min(threads, clients), owner, ids, vote))
  {
  }

  lemma Advance(i: nat, k: nat)
    ensures (i + 1) * k == i * k + k && (i + 2) * k == (i + 1) * k + k
  {
  }
}
