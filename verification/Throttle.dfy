/** Per-client throttling of broadcasts that interleave at every send.

    Modelled on src/orchestrator/api/websocket.py, `ConnectionManager`.  Time is counted in
    ticks.  A run's subscribers are a list object: connecting appends to it in place,
    disconnecting puts a new list in its place, and a broadcast goes on walking the list
    it started on.  */
module Throttle {

  type RunId = string
  type Client = nat
  type Task = nat

  datatype Broadcast = Broadcast(run: RunId, now: int, list: nat, index: nat, dead: seq<Client>)

  /** What happened, in order: a send with its stamp and the time it was made, or the
      client's stamp being forgotten. */
  datatype Event = Sent(client: Client, stamp: int, at: int) | Forgot(client: Client)

  datatype State = State(
    clock: int,
    lists: seq<seq<Client>>,
    connections: map<RunId, nat>,
    lastSend: map<Client, int>,
    tasks: map<Task, Broadcast>,
    log: seq<Event>)

  datatype Step =
    | Tick(time: int)
    | Connect(run: RunId, client: Client)
    | Disconnect(run: RunId, client: Client)
    | Begin(task: Task, run: RunId)
    | Visit(task: Task, delivered: bool)
    | Finish(task: Task)

  predicate Enabled(s: State, step: Step) {
    match step
    case Tick(time) => time >= s.clock
    case Connect(_, _) => true
    case Disconnect(_, _) => true
    case Begin(task, _) => task !in s.tasks
    case Visit(task, _) => task in s.tasks && s.tasks[task].index < |Subscribers(s, s.tasks[task].list)|
    case Finish(task) => task in s.tasks && s.tasks[task].index >= |Subscribers(s, s.tasks[task].list)|
  }

  function Subscribers(s: State, list: nat): seq<Client> {
    if list < |s.lists| then s.lists[list] else []
  }

  function Without(clients: seq<Client>, c: Client): (rest: seq<Client>)
    ensures c !in rest && forall d :: d != c ==> (d in rest <==> d in clients)
  {
    if clients == [] then [] else (if clients[0] == c then [] else [clients[0]]) + Without(clients[1..], c)
  }

  function Connected(s: State, run: RunId, c: Client): State {
    if run in s.connections && s.connections[run] < |s.lists| then
      var list := s.connections[run];
      s.(lists := s.lists[list := s.lists[list] + [c]])
    else s.(lists := s.lists + [[c]], connections := s.connections[run := |s.lists|])
  }

  function Disconnected(s: State, run: RunId, c: Client): State {
    var forgotten := s.(lastSend := s.lastSend - {c}, log := s.log + [Forgot(c)]);
    if run !in s.connections then forgotten
    else
      var rest := Without(Subscribers(s, s.connections[run]), c);
      if rest == [] then forgotten.(connections := s.connections - {run})
      else forgotten.(lists := s.lists + [rest], connections := s.connections[run := |s.lists|])
  }

  /** The check and the stamp are one step; the send after them is where others come in. */
  function Visited(interval: int, s: State, task: Task, delivered: bool): State
    requires task in s.tasks && s.tasks[task].index < |Subscribers(s, s.tasks[task].list)|
  {
    var b := s.tasks[task];
    var c := Subscribers(s, b.list)[b.index];
    var last := if c in s.lastSend then s.lastSend[c] else 0;
    if b.now - last < interval then s.(tasks := s.tasks[task := b.(index := b.index + 1)])
    else s.(
      lastSend := s.lastSend[c := b.now],
      log := s.log + [Sent(c, b.now, s.clock)],
      tasks := s.tasks[task := b.(index := b.index + 1, dead := if delivered then b.dead else b.dead + [c])])
  }

  function DisconnectedAll(s: State, run: RunId, dead: seq<Client>): State
    decreases dead
  {
    if dead == [] then s else DisconnectedAll(Disconnected(s, run, dead[0]), run, dead[1..])
  }

  function Next(interval: int, s: State, step: Step): State
    requires Enabled(s, step)
  {
    match step
    case Tick(time) => s.(clock := time)
    case Connect(run, c) => Connected(s, run, c)
    case Disconnect(run, c) => Disconnected(s, run, c)
    case Begin(task, run) =>
      if run in s.connections then s.(tasks := s.tasks[task := Broadcast(run, s.clock, s.connections[run], 0, [])])
        else s
    case Visit(task, delivered) => Visited(interval, s, task, delivered)
    case Finish(task) =>
      var b := s.tasks[task];
      DisconnectedAll(s, b.run, b.dead).(tasks := s.tasks - {task})
  }

  const START := State(0, [], map[], map[], map[], [])

  predicate CanRun(interval: int, s: State, steps: seq<Step>)
    decreases steps
  {
    steps == [] || (Enabled(s, steps[0]) && CanRun(interval, Next(interval, s, steps[0]), steps[1..]))
  }

  function After(interval: int, s: State, steps: seq<Step>): State
    requires CanRun(interval, s, steps)
    decreases steps
  {
    if steps == [] then s else After(interval, Next(interval, s, steps[0]), steps[1..])
  }

  // ---------------------------------------------------------------------------
  // Stamps rise by the interval
  // ---------------------------------------------------------------------------

  /** The client's stamps since it was last forgotten. */
  function Stamps(log: seq<Event>, c: Client): seq<int> {
    if log == [] then []
    else
      var before, e := Stamps(log[..|log| - 1], c), log[|log| - 1];
      if e.client != c then before else if e.Sent? then before + [e.stamp] else []
  }

  predicate Spaced(interval: int, stamps: seq<int>) {
    forall i, j :: 0 <= i < j < |stamps| ==> stamps[j] - stamps[i] >= (j - i) * interval
  }

  /** The table holds each client's latest stamp. */
  ghost predicate Inv(interval: int, s: State) {
    forall c :: InvFor(interval, s, c)
  }

  ghost predicate InvFor(interval: int, s: State, c: Client) {
    var stamps := Stamps(s.log, c);
    Spaced(interval, stamps) && (c in s.lastSend <==> stamps != [])
    && (c in s.lastSend ==> s.lastSend[c] == stamps[|stamps| - 1])
  }

  lemma LogOneMore(log: seq<Event>, e: Event, c: Client)
    ensures Stamps(log + [e], c)
         == if e.client != c then Stamps(log, c) else if e.Sent? then Stamps(log, c) + [e.stamp] else []
  {
    assert (log + [e])[..|log|] == log;
  }

  lemma SpacedOneMore(interval: int, stamps: seq<int>, stamp: int)
    requires Spaced(interval, stamps) && (stamps != [] ==> stamp - stamps[|stamps| - 1] >= interval)
    ensures Spaced(interval, stamps + [stamp])
  {
    var more, n := stamps + [stamp], |stamps|;
    forall i | 0 <= i < n ensures more[n] - more[i] >= (n - i) * interval {
      if i < n - 1 { assert stamps[n - 1] - stamps[i] >= (n - 1 - i) * interval; }
      assert (n - i) * interval == (n - 1 - i) * interval + interval;
    }
  }

  lemma DisconnectedTables(s: State, run: RunId, gone: Client)
    ensures Disconnected(s, run, gone).log == s.log + [Forgot(gone)]
    ensures Disconnected(s, run, gone).lastSend == s.lastSend - {gone}
  {
  }

  lemma DisconnectedKeepsInv(interval: int, s: State, run: RunId, gone: Client)
    requires Inv(interval, s)
    ensures Inv(interval, Disconnected(s, run, gone))
  {
    var next := Disconnected(s, run, gone);
    DisconnectedTables(s, run, gone);
    forall c ensures InvFor(interval, next, c) {
      assert InvFor(interval, s, c);
      LogOneMore(s.log, Forgot(gone), c);
      if c != gone { assert Stamps(next.log, c) == Stamps(s.log, c); }
    }
  }

  lemma {:induction false} DisconnectedAllKeepsInv(interval: int, s: State, run: RunId, dead: seq<Client>)
    requires Inv(interval, s)
    ensures Inv(interval, DisconnectedAll(s, run, dead))
    decreases dead
  {
    if dead != [] {
      DisconnectedKeepsInv(interval, s, run, dead[0]);
      DisconnectedAllKeepsInv(interval, Disconnected(s, run, dead[0]), run, dead[1..]);
    }
  }

  lemma VisitedKeepsInv(interval: int, s: State, task: Task, delivered: bool)
    requires Inv(interval, s) && task in s.tasks && s.tasks[task].index < |Subscribers(s, s.tasks[task].list)|
    ensures Inv(interval, Visited(interval, s, task, delivered))
  {
    var b, next := s.tasks[task], Visited(interval, s, task, delivered);
    forall c ensures InvFor(interval, next, c) {
      assert InvFor(interval, s, c);
      if next.log != s.log {
        LogOneMore(s.log, Sent(Subscribers(s, b.list)[b.index], b.now, s.clock), c);
        if c == Subscribers(s, b.list)[b.index] { SpacedOneMore(interval, Stamps(s.log, c), b.now); }
      }
    }
  }

  lemma StepKeepsInv(interval: int, s: State, step: Step)
    requires Inv(interval, s) && Enabled(s, step)
    ensures Inv(interval, Next(interval, s, step))
  {
    match step
    case Disconnect(run, c) => DisconnectedKeepsInv(interval, s, run, c);
    case Visit(task, delivered) => VisitedKeepsInv(interval, s, task, delivered);
    case Finish(task) =>
      var b := s.tasks[task];
      DisconnectedAllKeepsInv(interval, s, b.run, b.dead);
      SameTables(interval, DisconnectedAll(s, b.run, b.dead), Next(interval, s, step));
    case _ => SameTables(interval, s, Next(interval, s, step));
  }

  lemma SameTables(interval: int, s: State, t: State)
    requires Inv(interval, s) && t.log == s.log && t.lastSend == s.lastSend
    ensures Inv(interval, t)
  {
    forall c ensures InvFor(interval, t, c) {
      assert InvFor(interval, s, c);
    }
  }

  /** However broadcasts interleave, the stamps a client was sent since it was last forgotten
      rise by at least the interval from each to the next. */
  lemma {:induction false} StampsRise(interval: int, s: State, steps: seq<Step>, c: Client)
    requires Inv(interval, s) && CanRun(interval, s, steps)
    ensures Inv(interval, After(interval, s, steps))
    ensures Spaced(interval, Stamps(After(interval, s, steps).log, c))
    decreases steps
  {
    if steps != [] {
      StepKeepsInv(interval, s, steps[0]);
      StampsRise(interval, Next(interval, s, steps[0]), steps[1..], c);
    } else {
      assert InvFor(interval, s, c);
    }
  }

  /** How many stamps fall in a window. */
  function InWindow(stamps: seq<int>, from: int, length: int): nat {
    if stamps == [] then 0
    else (if from <= stamps[0] <= from + length then 1 else 0) + InWindow(stamps[1..], from, length)
  }

  lemma SpacedTail(interval: int, stamps: seq<int>)
    requires Spaced(interval, stamps) && stamps != []
    ensures Spaced(interval, stamps[1..])
  {
    var rest := stamps[1..];
    forall i, j | 0 <= i < j < |rest| ensures rest[j] - rest[i] >= (j - i) * interval {
      assert stamps[j + 1] - stamps[i + 1] >= (j + 1 - (i + 1)) * interval;
    }
  }

  /** A window that starts at or before the first stamp: each later stamp in it is another
      interval on. */
  lemma {:induction false} WindowFrom(interval: int, stamps: seq<int>, from: int, length: int)
    requires interval > 0 && Spaced(interval, stamps)
    ensures InWindow(stamps, from, length) >= 1 ==> (InWindow(stamps, from, length) - 1) * interval <= length
    ensures stamps != [] && from <= stamps[0] && InWindow(stamps, from, length) >= 1
        ==> (InWindow(stamps, from, length) - 1) * interval <= from + length - stamps[0]
    decreases stamps
  {
    if stamps != [] {
      var rest := stamps[1..];
      SpacedTail(interval, stamps);
      WindowFrom(interval, rest, from, length);
      if rest != [] {
        assert stamps[1] - stamps[0] >= (1 - 0) * interval;
        var k := InWindow(rest, from, length);
        if from <= stamps[0] <= from + length && k >= 1 {
          assert (k - 1) * interval <= from + length - stamps[1];
          assert k * interval == (k - 1) * interval + interval;
        }
      } else {
        assert InWindow(rest, from, length) == 0;
      }
    }
  }

  lemma QuotientBound(n: nat, interval: int, length: nat)
    requires interval > 0 && (n >= 1 ==> (n - 1) * interval <= length)
    ensures n <= length / interval + 1
  {
    var q := length / interval;
    assert length < (q + 1) * interval;
    if n - 1 >= q + 1 { MultipliedRises(q + 1, n - 1, interval); }
  }

  lemma MultipliedRises(a: int, b: int, k: int)
    requires a <= b && k > 0
    ensures a * k <= b * k
  {
  }

  /** Any window of a given length holds at most length / interval + 1 sends to a client that
      was not forgotten meanwhile. */
  lemma ThrottleBound(interval: int, steps: seq<Step>, c: Client, from: int, length: nat)
    requires interval > 0 && CanRun(interval, START, steps)
    ensures InWindow(Stamps(After(interval, START, steps).log, c), from, length) <= length / interval + 1
  {
    assert Inv(interval, START);
    StampsRise(interval, START, steps, c);
    var stamps := Stamps(After(interval, START, steps).log, c);
    WindowFrom(interval, stamps, from, length);
    QuotientBound(InWindow(stamps, from, length), interval, length);
  }

  // ---------------------------------------------------------------------------
  // Where the bound ends
  // ---------------------------------------------------------------------------

  /** Disconnecting a client from a run takes it off that run's list. */
  lemma DisconnectRemoves(s: State, run: RunId, c: Client)
    ensures var next := Disconnected(s, run, c);
      run in next.connections ==> c !in Subscribers(next, next.connections[run])
  {
  }

  /** Every step of a run from the start, and where it leads. */
  predicate Leads(interval: int, s: State, steps: seq<Step>, t: State) {
    CanRun(interval, s, steps) && After(interval, s, steps) == t
  }

  lemma LeadsOn(interval: int, s: State, step: Step, rest: seq<Step>, t: State)
    requires Enabled(s, step) && Leads(interval, Next(interval, s, step), rest, t)
    ensures Leads(interval, s, [step] + rest, t)
  {
    assert ([step] + rest)[1..] == rest;
  }

  /** A client on two runs is forgotten when it leaves one of them, and can then be sent to
      again on the other in the same tick. */
  lemma TwoRunsBunch(interval: int, now: int, c: Client) returns (steps: seq<Step>, t: State)
    requires now >= interval > 0
    ensures Leads(interval, START, steps, t)
    ensures t.log == [Sent(c, now, now), Forgot(c), Sent(c, now, now)]
    ensures "a" in t.connections && c in Subscribers(t, t.connections["a"])
  {
    var s1 := Next(interval, START, Tick(now));
    var s2 := Next(interval, s1, Connect("a", c));
    var s3 := Next(interval, s2, Connect("b", c));
    assert s3.lists == [[c], [c]];
    var s4 := Next(interval, s3, Begin(1, "a"));
    var s5 := Next(interval, s4, Visit(1, true));
    assert s5.log == [Sent(c, now, now)];
    var s6, rest := ForgottenAndSent(interval, now, c, s5);
    t := s6;
    LeadsOn(interval, s4, Visit(1, true), rest, t);
    steps := [Visit(1, true)] + rest;
    LeadsOn(interval, s3, Begin(1, "a"), steps, t);
    steps := [Begin(1, "a")] + steps;
    LeadsOn(interval, s2, Connect("b", c), steps, t);
    steps := [Connect("b", c)] + steps;
    LeadsOn(interval, s1, Connect("a", c), steps, t);
    steps := [Connect("a", c)] + steps;
    LeadsOn(interval, START, Tick(now), steps, t);
    steps := [Tick(now)] + steps;
  }

  lemma ForgottenAndSent(interval: int, now: int, c: Client, s5: State) returns (t: State, steps: seq<Step>)
    requires now >= interval > 0 && s5.clock == now && s5.log == [Sent(c, now, now)]
    requires s5.lists == [[c], [c]] && s5.connections == map["a" := 0, "b" := 1] && 2 !in s5.tasks
    ensures Leads(interval, s5, steps, t)
    ensures t.log == [Sent(c, now, now), Forgot(c), Sent(c, now, now)]
    ensures "a" in t.connections && c in Subscribers(t, t.connections["a"])
  {
    assert Without([c], c) == [];
    var s6 := Next(interval, s5, Disconnect("b", c));
    var s7 := Next(interval, s6, Begin(2, "a"));
    assert s7.tasks[2] == Broadcast("a", now, 0, 0, []) && Subscribers(s7, 0) == [c];
    t := Next(interval, s7, Visit(2, true));
    LeadsOn(interval, s7, Visit(2, true), [], t);
    LeadsOn(interval, s6, Begin(2, "a"), [Visit(2, true)], t);
    LeadsOn(interval, s5, Disconnect("b", c), [Begin(2, "a"), Visit(2, true)], t);
    assert [Begin(2, "a")] + [Visit(2, true)] == [Begin(2, "a"), Visit(2, true)];
    assert [Visit(2, true)] + [] == [Visit(2, true)];
    steps := [Disconnect("b", c)] + [Begin(2, "a"), Visit(2, true)];
  }
}
