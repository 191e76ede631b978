/**
  The dispatcher and the event stream of one client as one system: the steps of the dispatcher that push
  an event to that client are the pushes of the stream.
 */
module StreamedClients {
  import opened Options
  import opened Words
  import Stream = EventStreamSystem
  import opened DispatcherSystem
  import opened DispatcherMachine
  import opened DispatcherViews
  import opened DispatcherPower
  import opened DispatcherClients
  import opened DispatcherProgress

  /** The client is the one added as the n-th executed task. */
  datatype Streamed = Streamed(w: World, s: Stream.State<Event>, n: nat)

  datatype Move =
    | Internal(i: Stream.Action<Event>)  // of the stream, but for a push
    | Step(a: Action)                    // of the dispatcher, but for a push to the client
    | Push(a: Action)

  /** All pushes come from one thread, the executor's worker. */
  predicate May(b: Streamed, m: Move) {
    match m
    case Internal(i) => Stream.Enabled(b.s, i) && !i.Push? && (i.Acquire? ==> i.id == 0)
    case Step(a) => Enabled(b.w, a) && PushedTo(b.w, a, b.n).None?
    case Push(a) =>
      && Enabled(b.w, a) && Stream.Enabled(b.s, Stream.Push(0))
      && PushedTo(b.w, a, b.n) == Some(b.s.pushers[0].event)
  }

  function Next(b: Streamed, m: Move): Streamed
    requires May(b, m)
  {
    match m
    case Internal(i) => b.(s := Stream.Apply(b.s, i))
    case Step(a) => b.(w := Apply(b.w, a))
    case Push(a) => b.(w := Apply(b.w, a), s := Stream.Apply(b.s, Stream.Push(0)))
  }

  predicate ValidMoves(b: Streamed, moves: seq<Move>)
    decreases |moves|
  {
    moves == [] || (May(b, moves[0]) && ValidMoves(Next(b, moves[0]), moves[1..]))
  }

  function RunMoves(b: Streamed, moves: seq<Move>): Streamed
    requires ValidMoves(b, moves)
    decreases |moves|
  {
    if moves == [] then b else RunMoves(Next(b, moves[0]), moves[1..])
  }

  lemma MovesCons(b: Streamed, m: Move, rest: seq<Move>)
    requires May(b, m) && ValidMoves(Next(b, m), rest)
    ensures ValidMoves(b, [m] + rest) && RunMoves(b, [m] + rest) == RunMoves(Next(b, m), rest)
  {
    assert ([m] + rest)[1..] == rest;
  }

  lemma HeadFirst(first: seq<Move>, second: seq<Move>)
    requires first != []
    ensures [first[0]] + (first[1..] + second) == first + second
  {
  }

  lemma {:induction false} MovesAppend(b: Streamed, first: seq<Move>, second: seq<Move>)
    requires ValidMoves(b, first) && ValidMoves(RunMoves(b, first), second)
    ensures ValidMoves(b, first + second) && RunMoves(b, first + second) == RunMoves(RunMoves(b, first), second)
    decreases |first|
  {
    if first == [] {
      assert first + second == second;
    } else {
      var c, rest := Next(b, first[0]), first[1..];
      MovesAppend(c, rest, second);
      MovesCons(b, first[0], rest + second);
      HeadFirst(first, second);
    }
  }

  function DispatcherAct(m: Move): seq<Action> {
    if m.Internal? then [] else [m.a]
  }

  /** The dispatcher's part of a run. */
  function DispatcherActs(moves: seq<Move>): seq<Action> {
    if moves == [] then [] else DispatcherAct(moves[0]) + DispatcherActs(moves[1..])
  }

  function StreamActs(moves: seq<Move>): seq<Stream.Action<Event>> {
    if moves == [] then []
    else
      var first := match moves[0]
        case Internal(i) => [i]
        case Step(a) => []
        case Push(a) => [Stream.Push(0)];
      first + StreamActs(moves[1..])
  }

  /** Each part is a run of its own system, so what is proved of all its runs holds here. */
  lemma {:induction false} PartsAreRuns(b: Streamed, moves: seq<Move>)
    requires ValidMoves(b, moves)
    ensures ValidRun(b.w, DispatcherActs(moves)) && Run(b.w, DispatcherActs(moves)) == RunMoves(b, moves).w
    ensures Stream.ValidRun(b.s, StreamActs(moves)) && Stream.Run(b.s, StreamActs(moves)) == RunMoves(b, moves).s
    ensures RunMoves(b, moves).n == b.n
    decreases |moves|
  {
    if moves != [] {
      var m, rest := moves[0], moves[1..];
      PartsAreRuns(Next(b, m), rest);
      match m {
        case Internal(i) =>
          assert [] + DispatcherActs(rest) == DispatcherActs(rest);
          Stream.RunCons(b.s, i, StreamActs(rest));
        case Step(a) =>
          assert [] + StreamActs(rest) == StreamActs(rest);
          RunCons(b.w, a, DispatcherActs(rest));
        case Push(a) =>
          RunCons(b.w, a, DispatcherActs(rest));
          Stream.RunCons(b.s, Stream.Push(0), StreamActs(rest));
      }
    }
  }

  // ---------------------------------------------------------------- the invariant

  /** What the stream was given is what the dispatcher pushed to the client. */
  ghost predicate Linked(b: Streamed) {
    SyncInv(b.w) && ViewInv(b.w) && OrdersInv(b.w) && HasBeenPushed(b.w, b.n, b.s.pushed)
  }

  predicate InitialStreamed(b: Streamed) {
    InitialWorld(b.w) && b.s == Stream.Init() && b.n > 0
  }

  lemma OthersPushNothing(s: Stream.State<Event>, i: Stream.Action<Event>)
    requires Stream.Enabled(s, i) && !i.Push?
    ensures Stream.Apply(s, i).pushed == s.pushed
  {
  }

  lemma MoveKeepsLinked(b: Streamed, m: Move)
    requires Linked(b) && May(b, m)
    ensures Linked(Next(b, m))
  {
    if m.Internal? {
      OthersPushNothing(b.s, m.i);
    } else {
      StepKeepsSync(b.w, m.a);
      StepKeepsViews(b.w, m.a);
      StepKeepsOrders(b.w, m.a);
      StepPushes(b.w, m.a, b.n, b.s.pushed);
      assert b.s.pushed + [] == b.s.pushed;
    }
  }

  lemma {:induction false} MovesKeepLinked(b: Streamed, moves: seq<Move>)
    requires Linked(b) && ValidMoves(b, moves)
    ensures Linked(RunMoves(b, moves))
    decreases |moves|
  {
    if moves != [] {
      MoveKeepsLinked(b, moves[0]);
      MovesKeepLinked(Next(b, moves[0]), moves[1..]);
    }
  }

  function OrderOf(v: World, c: Client): nat
    requires Known(v, c)
  {
    match c
    case Live(k) => v.sinks[k].order
    case Gone(i) => v.departed[i].sink.order
  }

  function LogOf(v: World, c: Client): seq<Event>
    requires Known(v, c)
  {
    match c
    case Live(k) => v.sinks[k].log
    case Gone(i) => v.departed[i].sink.log
  }

  lemma StreamHasTheLog(b: Streamed, moves: seq<Move>, c: Client)
    requires InitialStreamed(b) && ValidMoves(b, moves)
    requires Known(RunMoves(b, moves).w, c) && OrderOf(RunMoves(b, moves).w, c) == b.n
    ensures RunMoves(b, moves).s.pushed == LogOf(RunMoves(b, moves).w, c)
  {
    MovesKeepLinked(b, moves);
    PartsAreRuns(b, moves);
  }

  // ---------------------------------------------------------------- what a client is written

  /**
    In every run of dispatcher and stream: the events written to a client, connected or released, and then
    the one being written are a prefix of its snapshot followed by the broadcasts from its join on.
   */
  lemma ClientIsWritten(b: Streamed, moves: seq<Move>, c: Client)
    requires InitialStreamed(b) && ValidMoves(b, moves)
    requires Known(RunMoves(b, moves).w, c) && OrderOf(RunMoves(b, moves).w, c) == b.n
    ensures var v, s := RunMoves(b, moves).w, RunMoves(b, moves).s;
            && Joined(v, c) <= Until(v, c) <= |v.broadcasts| && |SnapshotOf(v, c)| == 6
            && s.pushed == LogOf(v, c)
            && s.completed + EventSeq(s.outstanding) <= SnapshotOf(v, c) + v.broadcasts[Joined(v, c)..Until(v, c)]
  {
    PartsAreRuns(b, moves);
    StreamHasTheLog(b, moves, c);
    var v, s := RunMoves(b, moves).w, RunMoves(b, moves).s;
    ClientInOrder(b.w, DispatcherActs(moves), c);
    Stream.WritesInOrder(StreamActs(moves));
    var written := s.completed + EventSeq(s.outstanding);
    assert written <= s.pushed;
    assert s.pushed <= Got(v, c);
    PrefixOfPrefix(written, s.pushed, Got(v, c));
  }

  lemma PrefixOfPrefix(a: seq<Event>, b: seq<Event>, c: seq<Event>)
    requires a <= b <= c
    ensures a <= c
  {
  }

  /**
    Once the dispatcher is drained and the client's stream can go no further, has not ended and was not
    cancelled, the client has been written all that was broadcast since it joined, and so the published
    heater state and the steam mode, and the power unless the destructor's task misled it.
   */
  lemma SettledClientIsUpToDate(b: Streamed, moves: seq<Move>, k: nat)
    requires InitialStreamed(b) && ValidMoves(b, moves)
    requires var v, s := RunMoves(b, moves).w, RunMoves(b, moves).s;
             && Drained(v) && k < |v.sinks| && v.sinks[k].order == b.n
             && s.outstanding.None? && !Stream.WorkEnabled(s) && !s.worker.Finished?
             && s.cancels == 0 && s.pushers == map[] && |s.shared| < WORD
    ensures var v, s := RunMoves(b, moves).w, RunMoves(b, moves).s;
            && s.completed == v.sinks[k].log && SinkInOrder(v.broadcasts, v.sinks[k], s.completed)
            && LastOf(s.completed, HeaterKind) == Some(HeaterEvent(v.machine.status.published))
            && LastOf(s.completed, SteamKind) == Some(SteamEvent(v.machine.steam))
            && (LastOf(s.completed, PowerKind) == Some(PowerEvent(v.machine.power)) <==> !Misled(v, v.sinks[k]))
  {
    PartsAreRuns(b, moves);
    StreamHasTheLog(b, moves, Live(k));
    Stream.Reachable(StreamActs(moves));
    Stream.IdleWorkerHasWrittenAll(RunMoves(b, moves).s);
    DrainedAgreement(b.w, DispatcherActs(moves), k);
  }

  // ---------------------------------------------------------------- every run is streamed

  predicate Quiet(s: Stream.State<Event>) {
    s.lock == Stream.Free && s.pushers == map[]
  }

  lemma CountAndRelease(b: Streamed, index: nat) returns (moves: seq<Move>)
    requires b.s.lock == Stream.HeldByPusher(0) && b.s.pushers == map[0 := Stream.Pushed(index)]
    ensures ValidMoves(b, moves) && DispatcherActs(moves) == []
    ensures var c := RunMoves(b, moves);
            c.w == b.w && c.n == b.n && Quiet(c.s)
  {
    var release, count := Internal(Stream.Release(0)), Internal(Stream.Count(0));
    var c := Next(b, release);
    assert c.s.pushers == map[0 := Stream.Uncounted(index)];
    assert Next(c, count).s.pushers == map[];
    MovesCons(c, count, []);
    MovesCons(b, release, [count] + []);
    moves := [release] + ([count] + []);
    assert ([count] + [])[1..] == [] && moves[1..] == [count] + [];
    assert DispatcherActs([count] + []) == [];
  }

  /** One step of the dispatcher: as it is, or inside a push. */
  lemma StreamStep(b: Streamed, a: Action) returns (moves: seq<Move>)
    requires Enabled(b.w, a) && Quiet(b.s)
    ensures ValidMoves(b, moves) && DispatcherActs(moves) == [a]
    ensures var c := RunMoves(b, moves);
            c.w == Apply(b.w, a) && c.n == b.n && Quiet(c.s)
  {
    var pushed := PushedTo(b.w, a, b.n);
    if pushed.None? {
      MovesCons(b, Step(a), []);
      moves := [Step(a)] + [];
    } else {
      var acquire := Internal(Stream.Acquire(0, pushed.value));
      var c := Next(b, acquire);
      assert c.s.pushers == map[0 := Stream.Locked(pushed.value)];
      var d := Next(c, Push(a));
      assert d.s.pushers == map[0 := Stream.Pushed(|c.s.pushed|)];
      var rest := CountAndRelease(d, |c.s.pushed|);
      MovesCons(c, Push(a), rest);
      MovesCons(b, acquire, [Push(a)] + rest);
      moves := [acquire] + ([Push(a)] + rest);
      assert ([Push(a)] + rest)[1..] == rest && moves[1..] == [Push(a)] + rest;
      assert DispatcherActs([Push(a)] + rest) == [a] + [];
    }
  }

  lemma AppendLater(head: seq<Action>, front: seq<Action>, back: seq<Action>)
    ensures head + (front + back) == head + front + back
  {
  }

  lemma {:induction false} ActsAppend(first: seq<Move>, second: seq<Move>)
    ensures DispatcherActs(first + second) == DispatcherActs(first) + DispatcherActs(second)
  {
    if first == [] {
      assert first + second == second;
    } else {
      var rest := first[1..];
      ActsAppend(rest, second);
      assert (first + second)[1..] == rest + second && (first + second)[0] == first[0];
      AppendLater(DispatcherAct(first[0]), DispatcherActs(rest), DispatcherActs(second));
    }
  }

  /** Every run of the dispatcher is, for each of its clients, the dispatcher's part of a run with a stream. */
  lemma {:induction false} EveryRunIsStreamed(b: Streamed, acts: seq<Action>) returns (moves: seq<Move>)
    requires ValidRun(b.w, acts) && Quiet(b.s)
    ensures ValidMoves(b, moves) && DispatcherActs(moves) == acts && RunMoves(b, moves).w == Run(b.w, acts)
    decreases |acts|
  {
    if acts == [] {
      moves := [];
    } else {
      var first := StreamStep(b, acts[0]);
      var c := RunMoves(b, first);
      var rest := EveryRunIsStreamed(c, acts[1..]);
      MovesAppend(b, first, rest);
      ActsAppend(first, rest);
      moves := first + rest;
      assert [acts[0]] + acts[1..] == acts;
    }
  }
}
