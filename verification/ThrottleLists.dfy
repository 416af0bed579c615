/** Who is subscribed to a run: exactly those connected to it and not disconnected since,
    in the order in which they came, whatever broadcasts are under way.

    Modelled on src/orchestrator/api/websocket.py, `ConnectionManager`.  */
module ThrottleLists {
  import opened Common
  import opened Throttle

  function Clients(s: State, run: RunId): seq<Client> {
    if run in s.connections then Subscribers(s, s.connections[run]) else []
  }

  /** No list is shared, and none is empty. */
  ghost predicate Separate(s: State) {
    && (forall r :: r in s.connections ==> s.connections[r] < |s.lists| && s.lists[s.connections[r]] != [])
    && (forall r, q :: r in s.connections && q in s.connections && s.connections[r] == s.connections[q] ==> r == q)
  }

  /** A client comes last on the list of its run, also if there are others on it. */
  lemma ConnectAdds(s: State, run: RunId, c: Client, other: RunId)
    requires Separate(s)
    ensures Separate(Connected(s, run, c))
    ensures Clients(Connected(s, run, c), other) == if other == run then Clients(s, run) + [c] else Clients(s, other)
  {
    if run in s.connections {
      JoinsList(s, run, c, other);
    } else {
      StartsList(s, run, c, other);
    }
  }

  lemma JoinsList(s: State, run: RunId, c: Client, other: RunId)
    requires Separate(s) && run in s.connections
    ensures Separate(Connected(s, run, c))
    ensures Clients(Connected(s, run, c), other) == if other == run then Clients(s, run) + [c] else Clients(s, other)
  {
    if other in s.connections && other != run { assert s.connections[other] != s.connections[run]; }
  }

  lemma StartsList(s: State, run: RunId, c: Client, other: RunId)
    requires Separate(s) && run !in s.connections
    ensures Separate(Connected(s, run, c))
    ensures Clients(Connected(s, run, c), other) == if other == run then Clients(s, run) + [c] else Clients(s, other)
  {
    assert [] + [c] == [c];
  }

  /** All others stay, in their order. */
  lemma {:induction false} WithoutSplits(a: seq<Client>, b: seq<Client>, c: Client)
    ensures Without(a + b, c) == Without(a, c) + Without(b, c)
    ensures forall d :: Without([d], c) == if d == c then [] else [d]
  {
    if a == [] {
      assert a + b == b;
    } else {
      assert (a + b)[0] == a[0] && (a + b)[1..] == a[1..] + b;
      WithoutSplits(a[1..], b, c);
      Associate(if a[0] == c then [] else [a[0]], Without(a[1..], c), Without(b, c));
    }
  }

  /** A client leaves the list of one run, and of no other. */
  lemma DisconnectDrops(s: State, run: RunId, c: Client, other: RunId)
    requires Separate(s)
    ensures Separate(Disconnected(s, run, c))
    ensures Clients(Disconnected(s, run, c), other)
      == if other == run then Without(Clients(s, run), c) else Clients(s, other)
  {
    if other in s.connections && run in s.connections && other != run {
      assert s.connections[other] != s.connections[run];
    }
  }

  function WithoutAll(clients: seq<Client>, dead: seq<Client>): seq<Client>
    decreases dead
  {
    if dead == [] then clients else WithoutAll(Without(clients, dead[0]), dead[1..])
  }

  lemma {:induction false} DisconnectAllDrops(s: State, run: RunId, dead: seq<Client>, other: RunId)
    requires Separate(s)
    ensures Separate(DisconnectedAll(s, run, dead))
    ensures Clients(DisconnectedAll(s, run, dead), other)
      == if other == run then WithoutAll(Clients(s, run), dead) else Clients(s, other)
    decreases dead
  {
    if dead != [] {
      DisconnectDrops(s, run, dead[0], other);
      DisconnectAllDrops(Disconnected(s, run, dead[0]), run, dead[1..], other);
    }
  }

  /** What a step does to the list of a run: it is connecting to it, disconnecting from it,
      and ending a broadcast to it that could not send to some, that change it. */
  function Listed(s: State, step: Step, run: RunId, clients: seq<Client>): seq<Client>
    requires Enabled(s, step)
  {
    match step
    case Connect(r, c) => if r == run then clients + [c] else clients
    case Disconnect(r, c) => if r == run then Without(clients, c) else clients
    case Finish(task) => if s.tasks[task].run == run then WithoutAll(clients, s.tasks[task].dead) else clients
    case _ => clients
  }

  lemma StepLists(interval: int, s: State, step: Step, run: RunId)
    requires Separate(s) && Enabled(s, step)
    ensures Separate(Next(interval, s, step))
    ensures Clients(Next(interval, s, step), run) == Listed(s, step, run, Clients(s, run))
  {
    match step
    case Connect(r, c) => ConnectAdds(s, r, c, run);
    case Disconnect(r, c) => DisconnectDrops(s, r, c, run);
    case Finish(task) =>
      var b := s.tasks[task];
      DisconnectAllDrops(s, b.run, b.dead, run);
      SameLists(DisconnectedAll(s, b.run, b.dead), Next(interval, s, step), run);
    case _ => SameLists(s, Next(interval, s, step), run);
  }

  lemma SameLists(s: State, t: State, run: RunId)
    requires Separate(s) && t.lists == s.lists && t.connections == s.connections
    ensures Separate(t) && Clients(t, run) == Clients(s, run)
  {
  }

  /** Step by step, from `clients` on. */
  function ListedAfter(interval: int, s: State, steps: seq<Step>, run: RunId, clients: seq<Client>): seq<Client>
    requires CanRun(interval, s, steps)
    decreases steps
  {
    if steps == [] then clients
    else ListedAfter(interval, Next(interval, s, steps[0]), steps[1..], run, Listed(s, steps[0], run, clients))
  }

  /** In every interleaving, the subscribers of a run are those. */
  lemma {:induction false} SubscribersAreListed(interval: int, s: State, steps: seq<Step>, run: RunId)
    requires Separate(s) && CanRun(interval, s, steps)
    ensures Separate(After(interval, s, steps))
    ensures Clients(After(interval, s, steps), run) == ListedAfter(interval, s, steps, run, Clients(s, run))
    decreases steps
  {
    if steps != [] {
      StepLists(interval, s, steps[0], run);
      SubscribersAreListed(interval, Next(interval, s, steps[0]), steps[1..], run);
    }
  }

  /** From the start on. */
  lemma SubscribersFromStart(interval: int, steps: seq<Step>, run: RunId)
    requires CanRun(interval, START, steps)
    ensures Clients(After(interval, START, steps), run) == ListedAfter(interval, START, steps, run, [])
  {
    SubscribersAreListed(interval, START, steps, run);
  }
}
