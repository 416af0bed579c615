/** The connection manager in the form it runs: each method is what happens between two
    awaits, and does what the step machine does.

    Modelled on src/orchestrator/api/websocket.py, `ConnectionManager`.  */
module ConnectionManagers {
  import opened Common
  import opened Throttle

  class ConnectionManager {
    const interval: int
    var clock: int
    /** The list objects, by number. */
    var lists: seq<seq<Client>>
    var connections: map<RunId, nat>
    var lastSend: map<Client, int>
    /** The broadcasts that are waiting for a send. */
    var tasks: map<Task, Broadcast>
    var log: seq<Event>

    constructor (interval: int)
      ensures this.interval == interval && View() == START
    {
      this.interval, clock, lists, connections := interval, 0, [], map[];
      lastSend, tasks, log := map[], map[], [];
    }

    function View(): State
      reads this
    {
      State(clock, lists, connections, lastSend, tasks, log)
    }

    /** Once the socket is accepted: onto the run's list, in place, or onto a new one. */
    method Connect(run: RunId, c: Client)
      modifies this
      ensures View() == Next(interval, old(View()), Step.Connect(run, c))
    {
      if run !in connections || connections[run] >= |lists| {
        connections := connections[run := |lists|];
        lists := lists + [[]];
      }
      var list := connections[run];
      lists := lists[list := lists[list] + [c]];
      assert [] + [c] == [c];
    }

    method Disconnect(run: RunId, c: Client)
      modifies this
      ensures View() == Disconnected(old(View()), run, c)
    {
      lastSend := lastSend - {c};
      log := log + [Forgot(c)];
      if run in connections {
        var rest := Filter(if connections[run] < |lists| then lists[connections[run]] else [], c);
        if rest == [] {
          connections := connections - {run};
        } else {
          connections := connections[run := |lists|];
          lists := lists + [rest];
        }
      }
    }

    method Filter(clients: seq<Client>, c: Client) returns (rest: seq<Client>)
      ensures rest == Without(clients, c)
    {
      rest := [];
      var i := 0;
      while i < |clients|
        invariant 0 <= i <= |clients|
        invariant rest + Without(clients[i..], c) == Without(clients, c)
      {
        FilterOne(rest, clients, i, c);
        if clients[i] != c { rest := rest + [clients[i]]; }
        i := i + 1;
      }
    }

    /** Up to the first client: note the time and the list. */
    method Begin(task: Task, run: RunId) returns (going: bool)
      requires task !in tasks
      modifies this
      ensures View() == Next(interval, old(View()), Step.Begin(task, run))
      ensures going <==> run in old(connections)
    {
      going := run in connections;
      if going {
        tasks := tasks[task := Broadcast(run, clock, connections[run], 0, [])];
      }
    }

    /** One client: skip it if it is too early, or stamp it and send. */
    method Visit(task: Task, delivered: bool) returns (sent: bool)
      requires Enabled(View(), Step.Visit(task, delivered))
      modifies this
      ensures View() == Next(interval, old(View()), Step.Visit(task, delivered))
      ensures sent <==> log != old(log)
    {
      var b := tasks[task];
      var c := lists[b.list][b.index];
      var last := if c in lastSend then lastSend[c] else 0;
      tasks := tasks[task := b.(index := b.index + 1)];
      if b.now - last < interval { return false; }
      lastSend := lastSend[c := b.now];
      log := log + [Sent(c, b.now, clock)];
      if !delivered {
        tasks := tasks[task := b.(index := b.index + 1, dead := b.dead + [c])];
      }
      sent := true;
    }

    /** Past the last client: disconnect those that could not be sent to. */
    method Finish(task: Task)
      requires Enabled(View(), Step.Finish(task))
      modifies this
      ensures View() == Next(interval, old(View()), Step.Finish(task))
    {
      var b := tasks[task];
      tasks := tasks - {task};
      ghost var start := View();
      var i := 0;
      while i < |b.dead|
        invariant 0 <= i <= |b.dead|
        invariant DisconnectedAll(View(), b.run, b.dead[i..]) == DisconnectedAll(start, b.run, b.dead)
      {
        assert b.dead[i..][0] == b.dead[i] && b.dead[i..][1..] == b.dead[i + 1..];
        Disconnect(b.run, b.dead[i]);
        i := i + 1;
      }
      WithoutTask(old(View()), task, b.run, b.dead);
    }
  }

  lemma FilterOne(rest: seq<Client>, clients: seq<Client>, i: nat, c: Client)
    requires i < |clients|
    ensures rest + Without(clients[i..], c)
         == (if clients[i] != c then rest + [clients[i]] else rest) + Without(clients[i + 1..], c)
  {
    assert clients[i..][0] == clients[i] && clients[i..][1..] == clients[i + 1..];
    Associate(rest, [clients[i]], Without(clients[i + 1..], c));
    assert [] + Without(clients[i + 1..], c) == Without(clients[i + 1..], c);
  }

  /** Disconnecting does not look at the broadcasts. */
  lemma {:induction false} WithoutTask(s: State, task: Task, run: RunId, dead: seq<Client>)
    ensures DisconnectedAll(s.(tasks := s.tasks - {task}), run, dead)
      == DisconnectedAll(s, run, dead).(tasks := s.tasks - {task})
    decreases dead
  {
    if dead != [] {
      var next := Disconnected(s, run, dead[0]);
      assert next.tasks == s.tasks;
      assert Disconnected(s.(tasks := s.tasks - {task}), run, dead[0]) == next.(tasks := next.tasks - {task});
      WithoutTask(next, task, run, dead[1..]);
    }
  }
}
