/** The client program in its own form: polling, answering and counting its votes. */
module ClientProgram {
  import opened Messages
  import opened Transport
  import opened TwoPhase
  import opened CommitInvariant
  import opened Schedule

  const RTOS_MAX := 200 * 1000
  const U64 := 0x1_0000_0000_0000_0000

  /** What one call of beg_read finds; `expired` is what the clock says after an empty one. */
  datatype Poll = Message(m: Msg) | NothingYet(expired: bool) | Finished

  /** NULL for the end of the stream or a timeout; Looping if the calls so far decide nothing. */
  datatype Reply = Heard(m: Msg) | Null | Looping

  datatype Awaited = Awaited(reply: Reply, rest: seq<Poll>)

  /** The first poll that ends the wait decides. */
  function Await(polls: seq<Poll>, mayTimeOut: bool): (r: Awaited)
    ensures |r.rest| <= |polls| && (r.reply != Looping ==> |r.rest| < |polls|)
  {
    if polls == [] then Awaited(Looping, [])
    else match polls[0]
      case Message(m) => Awaited(Heard(m), polls[1..])
      case Finished => Awaited(Null, polls[1..])
      case NothingYet(expired) =>
        if mayTimeOut && expired then Awaited(Null, polls[1..]) else Await(polls[1..], mayTimeOut)
  }

  /** A poll that leaves the client waiting. */
  predicate KeepsWaiting(p: Poll, mayTimeOut: bool) {
    p.NothingYet? && !(mayTimeOut && p.expired)
  }

  /** What a poll that ends the wait tells. */
  function Told(p: Poll): Reply {
    if p.Message? then Heard(p.m) else Null
  }

  /** Poll k is the first that ends the wait; there is none if k is their number. */
  predicate WaitsFor(polls: seq<Poll>, mayTimeOut: bool, k: nat) {
    && k <= |polls| && (forall i :: 0 <= i < k ==> KeepsWaiting(polls[i], mayTimeOut))
    && (k < |polls| ==> !KeepsWaiting(polls[k], mayTimeOut))
  }

  /** The wait ends with the first poll that finds a message, the end of the stream or, where
      that is allowed, the timer expired; it tells the message, or NULL. */
  lemma {:induction false} AwaitMeaning(polls: seq<Poll>, mayTimeOut: bool) returns (k: nat)
    ensures WaitsFor(polls, mayTimeOut, k)
    ensures Await(polls, mayTimeOut) == if k < |polls| then Awaited(Told(polls[k]), polls[k + 1..]) else Awaited(Looping, [])
    decreases |polls|
  {
    k := 0;
    if polls != [] && KeepsWaiting(polls[0], mayTimeOut) {
      var k' := AwaitMeaning(polls[1..], mayTimeOut);
      k := k' + 1;
      assert forall i :: 0 < i < |polls| ==> polls[i] == polls[1..][i - 1];
    }
  }

  /** How one step of the program ends: normally, by exiting, or not yet. */
  datatype Outcome = Done | Terminated | Undecided

  datatype Pushed = Pushed(outcome: Outcome, rest: seq<Code>)

  /** Calls of end_write until ENONE, or until RTOS_MAX retransmissions. */
  function Push(results: seq<Code>, rtos: nat): Pushed
    decreases |results|
  {
    if rtos >= RTOS_MAX then Pushed(Done, results)
    else if results == [] then Pushed(Undecided, [])
    else match results[0]
      case ENone => Pushed(Done, results[1..])
      case EAgain => Push(results[1..], rtos)
      case RtoFired => Push(results[1..], rtos + 1)
      case EFin => Pushed(Terminated, results[1..])
  }

  function Fired(results: seq<Code>): nat {
    multiset(results)[RtoFired]
  }

  /** Result k lets send_response end: the message is acknowledged, the stream has ended, or
      RTOS_MAX retransmissions have fired. */
  predicate Settles(results: seq<Code>, k: nat)
    requires k < |results|
  {
    results[k] == ENone || results[k] == EFin || (results[k] == RtoFired && Fired(results[..k]) == RTOS_MAX - 1)
  }

  /** Result k is the first that ends send_response; there is none if k is their number. */
  predicate SettledBy(results: seq<Code>, k: nat) {
    && k <= |results| && (forall i :: 0 <= i < k ==> !Settles(results, i))
    && (k < |results| ==> Settles(results, k))
  }

  lemma FiredNext(results: seq<Code>, k: nat)
    requires k < |results|
    ensures Fired(results[..k + 1]) == Fired(results[..k]) + (if results[k] == RtoFired then 1 else 0)
  {
    assert results[..k + 1] == results[..k] + [results[k]];
  }

  lemma {:induction false} PushFrom(results: seq<Code>, i: nat) returns (k: nat)
    requires i <= |results| && Fired(results[..i]) < RTOS_MAX
    requires forall j :: 0 <= j < i ==> !Settles(results, j)
    ensures SettledBy(results, k)
    ensures Push(results[i..], Fired(results[..i]))
         == if k < |results| then Pushed(if results[k] == EFin then Terminated else Done, results[k + 1..])
            else Pushed(Undecided, [])
    decreases |results| - i
  {
    k := i;
    if i < |results| {
      assert results[i..][1..] == results[i + 1..];
      FiredNext(results, i);
      if !Settles(results, i) {
        k := PushFrom(results, i + 1);
      }
    }
  }

  /** An answer is written until it is acknowledged or has been retransmitted RTOS_MAX times,
      and in both cases the client goes on; the end of the stream ends the program. */
  lemma {:induction false} PushMeaning(results: seq<Code>) returns (k: nat)
    ensures SettledBy(results, k)
    ensures Push(results, 0)
         == if k < |results| then Pushed(if results[k] == EFin then Terminated else Done, results[k + 1..])
            else Pushed(Undecided, [])
  {
    assert results[0..] == results;
    k := PushFrom(results, 0);
  }

  /** Calls of end_write until ENONE, however often the hello is retransmitted. */
  function Greet(results: seq<Code>): Pushed {
    if results == [] then Pushed(Undecided, [])
    else match results[0]
      case ENone => Pushed(Done, results[1..])
      case EAgain => Greet(results[1..])
      case RtoFired => Greet(results[1..])
      case EFin => Pushed(Terminated, results[1..])
  }

  /** Result k is the first that ends the wait for the hello to be acknowledged. */
  predicate Acknowledges(results: seq<Code>, k: nat) {
    && k <= |results| && (forall i :: 0 <= i < k ==> results[i] == EAgain || results[i] == RtoFired)
    && (k < |results| ==> results[k] == ENone || results[k] == EFin)
  }

  /** The hello is written until it is acknowledged; nothing else but the end of the stream
      ends the wait. */
  lemma {:induction false} GreetMeaning(results: seq<Code>) returns (k: nat)
    ensures Acknowledges(results, k)
    ensures Greet(results)
         == if k < |results| then Pushed(if results[k] == EFin then Terminated else Done, results[k + 1..])
            else Pushed(Undecided, [])
  {
    k := 0;
    if results != [] && (results[0] == EAgain || results[0] == RtoFired) {
      var k' := GreetMeaning(results[1..]);
      k := k' + 1;
      assert forall i :: 0 < i < |results| ==> results[i] == results[1..][i - 1];
    }
  }

  /** What the client waits for before its answer i. */
  predicate Expected(i: nat, reply: Reply) {
    && reply.Heard?
    && (if i % 2 == 0 then reply.m.kind == Request else reply.m.kind == Commit || reply.m.kind == Cancel)
  }

  /** The polls tell the client what it expects, `count` times, before its answers i, i + 1, ... */
  predicate Hears(polls: seq<Poll>, i: nat, count: nat)
    decreases count
  {
    count == 0 ||
    (var w := Await(polls, i % 2 == 1);
     Expected(i, w.reply) && Hears(w.rest, i + 1, count - 1))
  }

  /** The results let the client go on behind `count` answers. */
  predicate Confirms(results: seq<Code>, count: nat)
    decreases count
  {
    count == 0 ||
    (var w := Push(results, 0);
     w.outcome == Done && Confirms(w.rest, count - 1))
  }

  /** The client gets as far as sending its message k: the hello is acknowledged, every answer
      up to this one has been asked for, and those before it have been written. */
  predicate Reaches(polls: seq<Poll>, results: seq<Code>, k: nat) {
    k == 0 ||
    (var w := Greet(results);
     w.outcome == Done && Hears(polls, 0, k) && Confirms(w.rest, k - 1))
  }

  /** The client sends exactly n messages. */
  ghost predicate SendsExactly(polls: seq<Poll>, results: seq<Code>, n: nat) {
    forall k: nat :: Reaches(polls, results, k) <==> k < n
  }

  /** With n messages sent and written, what is left decides about those from n on. */
  ghost predicate LeftDecides(polls: seq<Poll>, results: seq<Code>, n: nat, polls': seq<Poll>, results': seq<Code>)
    requires n > 0
  {
    forall k: nat :: Reaches(polls, results, k) <==>
                     (k < n || (Hears(polls', n - 1, k - n + 1) && Confirms(results', k - n)))
  }

  /** The same for the hello. */
  lemma OnceGreeted(polls: seq<Poll>, results: seq<Code>)
    ensures var w := Greet(results);
            if w.outcome != Done then SendsExactly(polls, results, 1)
            else LeftDecides(polls, results, 1, polls, w.rest)
  {
  }

  /** One phase of a round, seen from outside. */
  predicate Answers(i: nat, polls: seq<Poll>, results: seq<Code>, outcome: Outcome, polls': seq<Poll>, results': seq<Code>, sent: nat) {
    var w := Await(polls, i % 2 == 1);
    && polls' == w.rest
    && if Expected(i, w.reply) then Pushed(outcome, results') == Push(results, 0) && sent == 1
       else outcome != Done && sent == 0
  }

  /** What is left behind the next answer decides about the messages after it. */
  lemma NextAnswer(polls: seq<Poll>, results: seq<Code>, n: nat, was: seq<Poll>, wrote: seq<Code>,
                   outcome: Outcome, polls': seq<Poll>, results': seq<Code>, m: nat)
    requires 0 < n <= m && LeftDecides(polls, results, n, was, wrote)
    requires Answers(n - 1, was, wrote, outcome, polls', results', m - n)
    ensures if outcome != Done then SendsExactly(polls, results, m) else m == n + 1 && LeftDecides(polls, results, m, polls', results')
  {
    var w, p := Await(was, n % 2 == 0), Push(wrote, 0);
    forall k: nat
      ensures Reaches(polls, results, k) <==>
              (k < n || (Expected(n - 1, w.reply) && (k == n || (p.outcome == Done && Hears(w.rest, n, k - n) && Confirms(p.rest, k - n - 1)))))
    {
    }
  }

  /** Polls that bring `rounds` whole rounds, with nothing in between. */
  predicate BringRounds(polls: seq<Poll>, rounds: nat) {
    && |polls| >= 2 * rounds
    && forall i :: 0 <= i < 2 * rounds ==> polls[i].Message? && Expected(i, Heard(polls[i].m))
  }

  lemma {:induction false} HearsPolls(polls: seq<Poll>, i: nat, count: nat)
    requires i + count <= |polls|
    requires forall j :: i <= j < i + count ==> polls[j].Message? && Expected(j, Heard(polls[j].m))
    ensures Hears(polls[i..], i, count)
    decreases count
  {
    if count > 0 {
      HearsPolls(polls, i + 1, count - 1);
      assert polls[i..][1..] == polls[i + 1..];
    }
  }

  lemma {:induction false} ConfirmsAll(results: seq<Code>, i: nat, count: nat)
    requires i + count <= |results|
    requires forall j :: i <= j < i + count ==> results[j] == ENone
    ensures Confirms(results[i..], count)
    decreases count
  {
    if count > 0 {
      ConfirmsAll(results, i + 1, count - 1);
      assert results[i..][1..] == results[i + 1..];
    }
  }

  /** If r whole rounds arrive and every write is acknowledged, the client sends at least its
      first 2r + 1 messages: con and, for each round, its vote and its ack. */
  lemma {:induction false} RoundsAreAnswered(polls: seq<Poll>, results: seq<Code>, r: nat)
    requires BringRounds(polls, r)
    requires |results| >= 2 * r + 1 && forall i :: 0 <= i < 2 * r + 1 ==> results[i] == ENone
    ensures Reaches(polls, results, 2 * r)
  {
    if r > 0 {
      assert polls[0..] == polls;
      HearsPolls(polls, 0, 2 * r);
      ConfirmsAll(results, 1, 2 * r - 1);
    }
  }

  /** vote_count is an unsigned 64-bit number. */
  function VotesYes(id: nat, r: nat): bool {
    (id + r) % U64 % 5 != 0
  }

  /** The k-th message of the client with this id. */
  function ClientMsg(id: nat, k: nat): Msg {
    Msg(if k == 0 then Con
        else if k % 2 == 1 then (if VotesYes(id, k / 2) then VoteYes else VoteNo)
        else Ack, id)
  }

  /** These are the first messages of the client with this id. */
  predicate OnScript(id: nat, sent: seq<Msg>) {
    forall k :: 0 <= k < |sent| ==> sent[k] == ClientMsg(id, k)
  }

  /** What do_phase1 and do_phase2 send in round r continues the script. */
  lemma NextOnScript(id: nat, r: nat, voteCount: nat, sent: seq<Msg>)
    requires OnScript(id, sent) && |sent| == 2 * r + 1 && voteCount == (id + r) % U64
    ensures var vote := Msg(if voteCount % 5 != 0 then VoteYes else VoteNo, id);
            OnScript(id, sent + [vote]) && OnScript(id, sent + [vote] + [Msg(Ack, id)])
  {
    assert (2 * r + 1) / 2 == r && (2 * r + 1) % 2 == 1 && (2 * r + 2) % 2 == 0;
  }

  lemma WrapsOnce(id: nat, r: nat)
    ensures ((id + r) % U64 + 1) % U64 == (id + (r + 1)) % U64
  {
  }

  /** Until its 64-bit counter wraps, the program sends what the protocol model has it send. */
  lemma ProgramSendsModel(c: Config, j: nat, k: nat)
    requires ValidConfig(c) && VotesAsCoded(c) && j < c.n && c.ids[j] + k < U64
    ensures UpMsg(c, j, k) == ClientMsg(c.ids[j], k)
  {
    assert c.vote(j, k / 2) <==> (c.ids[j] + k / 2) % 5 != 0;
  }

  class Client {
    const id: nat
    var voteCount: nat
    var totalRtos: nat
    var polls: seq<Poll>       // what the calls of beg_read will find
    var results: seq<Code>     // what the calls of end_write will return
    var sent: seq<Msg>         // messages begun, in order

    constructor (id: nat, polls: seq<Poll>, results: seq<Code>)
      requires id < U64
      ensures this.id == id && voteCount == id && sent == [] && this.polls == polls && this.results == results
    {
      this.id, voteCount, totalRtos := id, id, 0;
      this.polls, this.results, sent := polls, results, [];
    }

    method GetMessage(mayTimeOut: bool) returns (reply: Reply)
      modifies this`polls
      ensures Awaited(reply, polls) == Await(old(polls), mayTimeOut)
      ensures exists k: nat :: WaitsFor(old(polls), mayTimeOut, k) &&
                if k < |old(polls)| then reply == Told(old(polls)[k]) && polls == old(polls)[k + 1..]
                else reply == Looping && polls == []
    {
      ghost var k := AwaitMeaning(polls, mayTimeOut);
      while polls != []
        invariant Await(polls, mayTimeOut) == Await(old(polls), mayTimeOut)
        decreases |polls|
      {
        var p := polls[0];
        polls := polls[1..];
        match p
        case Message(m) => return Heard(m);
        case Finished => return Null;
        case NothingYet(expired) =>
          if mayTimeOut && expired {
            return Null;
          }
      }
      return Looping;
    }

    method SendResponse(kind: Kind) returns (outcome: Outcome)
      modifies this`sent, this`results
      ensures sent == old(sent) + [Msg(kind, id)]
      ensures Pushed(outcome, results) == Push(old(results), 0)
      ensures exists k: nat :: SettledBy(old(results), k) &&
                if k < |old(results)|
                then outcome == (if old(results)[k] == EFin then Terminated else Done) && results == old(results)[k + 1..]
                else outcome == Undecided && results == []
    {
      ghost var k := PushMeaning(results);
      sent := sent + [Msg(kind, id)];
      var rtos := 0;
      while rtos < RTOS_MAX
        invariant 0 <= rtos <= RTOS_MAX
        invariant Push(results, rtos) == Push(old(results), 0)
        invariant sent == old(sent) + [Msg(kind, id)]
        decreases |results|
      {
        if results == [] {
          return Undecided;
        }
        var result := results[0];
        results := results[1..];
        match result
        case ENone => return Done;
        case EAgain =>
        case RtoFired => rtos := rtos + 1;
        case EFin => return Terminated;
      }
      return Done;
    }

    /** Connecting: the hello is retransmitted for ever, until a result is ENONE or EFIN. */
    method Connect() returns (outcome: Outcome)
      modifies this`sent, this`results, this`totalRtos
      ensures sent == old(sent) + [Msg(Con, id)]
      ensures Pushed(outcome, results) == Greet(old(results))
      ensures exists k: nat :: Acknowledges(old(results), k) &&
                totalRtos == old(totalRtos) + Fired(old(results)[..k]) &&
                if k < |old(results)|
                then outcome == (if old(results)[k] == ENone then Done else Terminated) && results == old(results)[k + 1..]
                else outcome == Undecided && results == []
    {
      sent := sent + [Msg(Con, id)];
      ghost var all, k: nat := results, 0;
      ghost var end := GreetMeaning(results);
      while results != []
        invariant sent == old(sent) + [Msg(Con, id)]
        invariant k <= |all| && results == all[k..]
        invariant forall i :: 0 <= i < k ==> all[i] == EAgain || all[i] == RtoFired
        invariant Greet(results) == Greet(all) && totalRtos == old(totalRtos) + Fired(all[..k])
        decreases |results|
      {
        var result := results[0];
        FiredNext(all, k);
        results := results[1..];
        match result {
          case ENone =>
            assert end == k;
            return Done;
          case EAgain =>
          case RtoFired => totalRtos := totalRtos + 1;
          case EFin =>
            assert end == k;
            return Terminated;
        }
        k := k + 1;
      }
      assert all[..k] == all && end == k;
      return Undecided;
    }

    /** A request is answered with the vote that vote_count gives; anything else, or no
        message, ends the program without an answer. */
    method DoPhase1() returns (outcome: Outcome)
      modifies this`polls, this`results, this`sent, this`voteCount
      ensures var w := Await(old(polls), false);
              && polls == w.rest
              && if w.reply.Heard? && w.reply.m.kind == Request
                 then && sent == old(sent) + [Msg(if old(voteCount) % 5 != 0 then VoteYes else VoteNo, id)]
                      && Pushed(outcome, results) == Push(old(results), 0)
                      && voteCount == (if outcome == Done then (old(voteCount) + 1) % U64 else old(voteCount))
                 else && outcome == (if w.reply == Looping then Undecided else Terminated)
                      && sent == old(sent) && results == old(results) && voteCount == old(voteCount)
    {
      var reply := GetMessage(false);
      if reply == Looping {
        return Undecided;
      }
      if reply == Null || reply.m.kind != Request {
        return Terminated;
      }
      var voteYes := voteCount % 5;
      if voteYes != 0 {
        outcome := SendResponse(VoteYes);
      } else {
        outcome := SendResponse(VoteNo);
      }
      if outcome == Done {
        voteCount := (voteCount + 1) % U64;
      }
    }

    /** A decision is acknowledged; `aborted` says whether it was a cancel. */
    method DoPhase2() returns (outcome: Outcome, aborted: bool)
      modifies this`polls, this`results, this`sent
      ensures aborted <==> Await(old(polls), true).reply.Heard? && Await(old(polls), true).reply.m.kind == Cancel
      ensures var w := Await(old(polls), true);
              && polls == w.rest
              && if w.reply.Heard? && (w.reply.m.kind == Commit || w.reply.m.kind == Cancel)
                 then && sent == old(sent) + [Msg(Ack, id)]
                      && Pushed(outcome, results) == Push(old(results), 0)
                 else && outcome == (if w.reply == Looping then Undecided else Terminated)
                      && sent == old(sent) && results == old(results)
    {
      aborted := false;
      var reply := GetMessage(true);
      if reply == Looping {
        return Undecided, false;
      }
      if reply == Null {
        return Terminated, false;
      }
      match reply.m.kind
      case Commit =>
        outcome := SendResponse(Ack);
      case Cancel =>
        outcome := SendResponse(Ack);
        aborted := true;
      case _ =>
        outcome := Terminated;
    }

    /** THE CLIENT'S WHOLE OUTPUT. Whatever arrives and whatever the writes return, the
        messages that the program ever sends are con, vote 0, ack, vote 1, ack, ...; and it
        sends each of them exactly if it gets that far. */
    method Run() returns (outcome: Outcome)
      requires sent == [] && voteCount == id < U64
      modifies this
      ensures OnScript(id, sent)
      ensures SendsExactly(old(polls), old(results), |sent|)
      ensures outcome != Done
    {
      OnceGreeted(polls, results);
      outcome := Connect();
      if outcome != Done {
        return;
      }
      ghost var r := 0;
      while true
        invariant |sent| == 2 * r + 1 && voteCount == (id + r) % U64
        invariant LeftDecides(old(polls), old(results), |sent|, polls, results)
        invariant OnScript(id, sent)
        decreases |polls|
      {
        NextOnScript(id, r, voteCount, sent);
        WrapsOnce(id, r);
        ghost var n, was, wrote := |sent|, polls, results;
        outcome := DoPhase1();
        NextAnswer(old(polls), old(results), n, was, wrote, outcome, polls, results, |sent|);
        if outcome != Done {
          return;
        }
        n, was, wrote := |sent|, polls, results;
        var aborted;
        outcome, aborted := DoPhase2();
        NextAnswer(old(polls), old(results), n, was, wrote, outcome, polls, results, |sent|);
        if outcome != Done {
          return;
        }
        r := r + 1;
      }
    }
  }
}
