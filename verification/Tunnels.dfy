/** The tunnels: what each is doing, the questions that wait for an answer, and the terminal sessions
    that tied tunnels follow. Every command and every callback holds the lock for all of its work,
    so any interleaving is a sequence of these steps. */
module Tunnels {
  import opened Common

  /** A definition. `other` stands for what is only compared and shown; `problem` for what makes
      it unusable. */
  datatype Tunnel = Tunnel(id: string, host: string, tied: bool, autostart: bool, problem: bool, other: nat)

  datatype Link = Connecting | Connected | Retrying(secs: nat) | Ended(code: string)

  /** A question; `token` is the request itself, `id` the number it is shown with. */
  datatype Request = Request(token: nat, id: nat)

  datatype Entry = Entry(
    tunnel: Tunnel,
    on: bool,
    link: Option<Link>,
    session: bool,
    listening: Option<nat>,
    waiting: bool,
    failure: Option<string>,
    requests: seq<Request>,
    // Whether what the run started is kept: its task, which has the forwarder, if it is tied; else
    // its connection and its forwarder.
    active: bool,
    run: nat,
    // For the proofs. Which entry this is: every new one gets a number of its own. And whether a
    // callback of an earlier entry with this id was taken for one of the present run.
    life: nat,
    mixed: bool)

  function NewEntry(tunnel: Tunnel, life: nat): Entry {
    Entry(tunnel, false, None, false, None, false, None, [], false, 0, life, false)
  }

  /** Stops the run and forgets what it said. */
  function Halted(e: Entry): Entry {
    e.(active := false, run := e.run + 1, link := None, listening := None, waiting := false,
       failure := None, requests := [], mixed := false)
  }

  /** Nothing of a run is left. */
  predicate Idle(e: Entry) {
    !e.active && e.link == None && e.listening == None && !e.waiting && e.failure == None && e.requests == []
  }

  // ---- What is shown ------------------------------------------------------------------------

  datatype Shown = Stopped | ShownConnecting | Waiting | Running | ShownRetrying | Failed

  datatype View = View(state: Shown, port: nat, code: string, prompt: Option<nat>)

  function ViewOf(e: Entry): View {
    var port := if e.listening.Some? then e.listening.value else 0;
    var prompt := if e.requests == [] then None else Some(e.requests[0].id);
    if !e.on then View(Stopped, port, "", prompt)
    else if e.failure.Some? then View(Failed, port, "listen", prompt)
    else
      match e.link
      case Some(Ended(code)) => View(Failed, port, code, prompt)
      case Some(Retrying(_)) => View(ShownRetrying, port, "", prompt)
      case Some(Connecting) => View(ShownConnecting, port, "", prompt)
      case _ =>
        View(if e.tunnel.tied && !e.session then Waiting
             else if e.waiting then Waiting
             else if e.listening.Some? then Running
             else ShownConnecting, port, "", prompt)
  }

  // ---- Sessions -----------------------------------------------------------------------------

  type Conn = nat

  /** The live sessions of a host, and the connection its tied tunnels are given. */
  datatype Sessions = Sessions(
    panes: seq<(int, Conn)>, published: Option<Conn>,
    // How often something was published.
    version: nat)

  function PublishedFor(sessions: map<string, Sessions>, host: string): Option<Conn> {
    if host in sessions then sessions[host].published else None
  }

  /** The connection published is that of the first pane, and pane ids are unique. */
  predicate SessionsOk(s: Sessions) { s.published == FirstOf(s.panes) && Apart(s.panes) }

  predicate Apart(panes: seq<(int, Conn)>) {
    forall i, j :: 0 <= i < j < |panes| ==> panes[i].0 != panes[j].0
  }

  function Ensured(sessions: map<string, Sessions>, host: string): map<string, Sessions> {
    if host in sessions then sessions else sessions[host := Sessions([], None, 0)]
  }

  // ---- The state ----------------------------------------------------------------------------

  /** What the callbacks of a run captured: the tunnel's id, the run, and (for these proofs) which
      entry. Only a tunnel with a connection of its own asks. */
  datatype Ticket = Ticket(id: string, run: nat, life: nat, asks: bool)

  /** The task of a run of a tied tunnel: the version of the host's sessions it saw last (none before
      it ran at all), the connection that was published, whether that was open, and whether it has
      a forwarder. */
  datatype Task = Task(host: string, seen: Option<nat>, saw: Option<Conn>, wasOpen: bool, running: bool, starts: nat)

  datatype State = State(
    entries: seq<Entry>,
    sessions: map<string, Sessions>,
    // Whether there is a runtime to start tunnels on; it is made once.
    runtime: bool,
    // Every question handed to an asker, every one answered, every callback captured.
    asked: seq<Request>,
    answered: seq<Request>,
    tickets: set<Ticket>,
    lives: nat,
    // The tasks of tied tunnels that haven't ended, and the connections that have.
    tasks: map<Ticket, Task>,
    closed: set<Conn>)

  /** How often question `t` is in a list, and in all the queues. */
  function Count(requests: seq<Request>, t: nat): nat {
    if requests == [] then 0
    else Count(requests[..|requests| - 1], t) + (if requests[|requests| - 1].token == t then 1 else 0)
  }

  function Queued(entries: seq<Entry>, t: nat): nat {
    if entries == [] then 0
    else Queued(entries[..|entries| - 1], t) + Count(entries[|entries| - 1].requests, t)
  }

  lemma {:induction false} CountBoth(a: seq<Request>, b: seq<Request>, t: nat)
    ensures Count(a + b, t) == Count(a, t) + Count(b, t)
  {
    if b == [] {
      assert a + b == a;
    } else {
      CountBoth(a, b[..|b| - 1], t);
      assert (a + b)[..|a + b| - 1] == a + b[..|b| - 1];
    }
  }

  /** Every question that was asked is in exactly one queue, or was answered exactly once. */
  ghost predicate Accounted(s: State) {
    forall t {:trigger Count(s.asked, t)} ::
      Count(s.asked, t) == Count(s.answered, t) + Queued(s.entries, t) && Count(s.asked, t) <= 1
  }

  /** No two entries have the same id, or are the same entry. */
  predicate Unique(entries: seq<Entry>) {
    forall i, j :: 0 <= i < j < |entries| ==>
      entries[i].tunnel.id != entries[j].tunnel.id && entries[i].life != entries[j].life
  }

  /** The callbacks of the task of its present run. */
  function TaskOf(e: Entry): Ticket { Ticket(e.tunnel.id, e.run, e.life, false) }

  /** An entry that is off has nothing of a run (unless it took another's callback); one that is on
      was started on the runtime; and what a tied tunnel's run keeps is its task. */
  predicate EntryOk(s: State, e: Entry) {
    && (!e.on ==> Idle(e) || e.mixed) && (e.on ==> s.runtime) && e.life < s.lives && (e.active ==> e.on)
    && (e.active && e.tunnel.tied ==> TaskOf(e) in s.tasks && s.tasks[TaskOf(e)].host == e.tunnel.host)
  }

  /** Callbacks of this entry are of its runs so far; and of this run only while it is on. It took
      one that isn't its own only if it hears another's. */
  ghost predicate TicketsOk(s: State, e: Entry) {
    && (forall t :: t in s.tickets && t.life == e.life ==> t.run <= e.run && (t.run == e.run ==> e.on))
    && (e.mixed ==> HearsAnother(s, e))
  }

  /** An entry that had its id before was started, in a run with the number of its present one. */
  ghost predicate HearsAnother(s: State, e: Entry) {
    exists t :: t in s.tickets && t.id == e.tunnel.id && t.run == e.run && t.life != e.life
  }

  /** A tied tunnel that is on knows whether a connection is published. */
  predicate FlagOk(s: State, e: Entry) {
    e.on && e.tunnel.tied ==> e.session == PublishedFor(s.sessions, e.tunnel.host).Some?
  }

  ghost predicate EntryGood(s: State, pending: set<string>, e: Entry) {
    EntryOk(s, e) && TicketsOk(s, e) && (e.tunnel.id in pending || FlagOk(s, e))
  }

  predicate AllSessionsOk(sessions: map<string, Sessions>) {
    forall h :: h in sessions ==> SessionsOk(sessions[h])
  }

  ghost predicate TicketsKnown(tickets: set<Ticket>, lives: nat) {
    forall t :: t in tickets ==> t.life < lives
  }

  /** A task that saw the last version saw the connection that is published; and it has a forwarder
      exactly if the connection it saw was there, and open then. */
  predicate TaskOk(task: Task, sessions: map<string, Sessions>, closed: set<Conn>) {
    && task.host in sessions
    && (task.seen.Some? ==> task.seen.value <= sessions[task.host].version)
    && (task.seen == Some(sessions[task.host].version) ==> task.saw == sessions[task.host].published)
    && (task.running <==> task.saw.Some? && task.wasOpen)
    && (task.saw.Some? && task.saw.value !in closed ==> task.wasOpen)
  }

  ghost predicate TasksOk(tasks: map<Ticket, Task>, sessions: map<string, Sessions>, closed: set<Conn>,
                          tickets: set<Ticket>) {
    forall k :: k in tasks ==> k in tickets && TaskOk(tasks[k], sessions, closed)
  }

  /** What always holds, but for the flag of the tunnels in `pending`, about to start again. */
  ghost predicate GoodBut(s: State, pending: set<string>) {
    && Accounted(s) && Unique(s.entries)
    && (forall i :: 0 <= i < |s.entries| ==> EntryGood(s, pending, s.entries[i]))
    && AllSessionsOk(s.sessions) && TicketsKnown(s.tickets, s.lives)
    && TasksOk(s.tasks, s.sessions, s.closed, s.tickets)
  }

  ghost predicate Good(s: State) { GoodBut(s, {}) }

  // ---- What every step keeps of the past ----------------------------------------------------

  /** The same entry, later: its run never shrinks, and grows when it is switched off; and no other
      entry with its id was started meanwhile. */
  ghost predicate Since(a: State, b: State, e: Entry, f: Entry) {
    && e.life == f.life && e.tunnel.id == f.tunnel.id
    && e.run <= f.run && (e.on && !f.on ==> e.run < f.run)
    && forall t :: t in b.tickets && t.id == e.tunnel.id && t.life != e.life ==> t in a.tickets
  }

  /** An entry of `b` is new since `a`, or was there. */
  ghost predicate Descends(a: State, b: State, f: Entry) {
    f.life >= a.lives || exists i :: 0 <= i < |a.entries| && Since(a, b, a.entries[i], f)
  }

  /** Nothing that was asked, answered or captured is forgotten, and no entry goes back. */
  ghost predicate Ledger(a: State, b: State) {
    && a.asked <= b.asked && a.answered <= b.answered && a.lives <= b.lives
    && (forall t :: t in a.tickets ==> t in b.tickets)
  }

  ghost predicate History(a: State, b: State) {
    Ledger(a, b) && forall j :: 0 <= j < |b.entries| ==> Descends(a, b, b.entries[j])
  }

  lemma HistoryComposes(a: State, b: State, c: State)
    requires History(a, b) && History(b, c)
    ensures History(a, c)
  {
    forall j | 0 <= j < |c.entries| && c.entries[j].life < a.lives
      ensures Descends(a, c, c.entries[j])
    {
      assert Descends(b, c, c.entries[j]);
      var k :| 0 <= k < |b.entries| && Since(b, c, b.entries[k], c.entries[j]);
      assert Descends(a, b, b.entries[k]);
      var i :| 0 <= i < |a.entries| && Since(a, b, a.entries[i], b.entries[k]);
      assert Since(a, c, a.entries[i], c.entries[j]);
    }
  }

  lemma SameEntries(s: State, u: State)
    requires Ledger(s, u) && u.entries == s.entries && u.tickets == s.tickets
    ensures History(s, u)
  {
    forall j | 0 <= j < |s.entries|
      ensures Descends(s, u, s.entries[j])
    {
      assert Since(s, u, s.entries[j], s.entries[j]);
    }
  }

  lemma SameHistory(s: State)
    ensures History(s, s)
  {
    forall j | 0 <= j < |s.entries|
      ensures Descends(s, s, s.entries[j])
    {
      assert Since(s, s, s.entries[j], s.entries[j]);
    }
  }

  /** A step that changes one entry, and lets only that one start. */
  lemma ChangedOne(s: State, u: State, i: nat)
    requires Unique(s.entries) && i < |s.entries| == |u.entries| && Ledger(s, u)
    requires u.entries == s.entries[i := u.entries[i]]
    requires var e, f := s.entries[i], u.entries[i];
             && e.life == f.life && e.tunnel.id == f.tunnel.id
             && e.run <= f.run && (e.on && !f.on ==> e.run < f.run)
             && forall t :: t in u.tickets && t !in s.tickets ==> t.id == e.tunnel.id && t.life == e.life
    ensures History(s, u)
  {
    forall j | 0 <= j < |u.entries|
      ensures Descends(s, u, u.entries[j])
    {
      assert j != i ==> s.entries[j].tunnel.id != s.entries[i].tunnel.id;
      assert Since(s, u, s.entries[j], u.entries[j]);
    }
  }

  /** A step that starts nothing: entries come, go, move, or hear of sessions. */
  lemma Rearranged(s: State, u: State)
    requires Ledger(s, u) && u.tickets == s.tickets
    requires forall j :: 0 <= j < |u.entries| ==> u.entries[j].life >= s.lives || StaysIn(s.entries, u.entries[j])
    ensures History(s, u)
  {
    forall j | 0 <= j < |u.entries| && u.entries[j].life < s.lives
      ensures Descends(s, u, u.entries[j])
    {
      assert StaysIn(s.entries, u.entries[j]);
      var i :| 0 <= i < |s.entries| && s.entries[i] == u.entries[j].(session := s.entries[i].session);
      assert Since(s, u, s.entries[i], u.entries[j]);
    }
  }

  ghost predicate StaysIn(entries: seq<Entry>, f: Entry) {
    exists i :: 0 <= i < |entries| && entries[i] == f.(session := entries[i].session)
  }

  // ---- Changing one entry -------------------------------------------------------------------

  lemma {:induction false} QueuedAfterUpdate(entries: seq<Entry>, i: nat, e: Entry, t: nat)
    requires i < |entries|
    ensures Queued(entries[i := e], t) == Queued(entries, t) - Count(entries[i].requests, t) + Count(e.requests, t)
  {
    var n := |entries| - 1;
    if i < n {
      QueuedAfterUpdate(entries[..n], i, e, t);
      assert entries[i := e][..n] == entries[..n][i := e];
    } else {
      assert entries[i := e][..n] == entries[..n];
    }
  }

  /** The i-th entry becomes `e`, and the questions `done` are answered. */
  function Changed(s: State, i: nat, e: Entry, done: seq<Request>): State
    requires i < |s.entries|
  {
    s.(entries := s.entries[i := e], answered := s.answered + done)
  }

  lemma ChangeIsAccounted(s: State, i: nat, e: Entry, done: seq<Request>)
    requires Accounted(s) && i < |s.entries|
    requires forall t :: Count(s.entries[i].requests, t) == Count(e.requests, t) + Count(done, t)
    ensures Accounted(Changed(s, i, e, done))
  {
    forall t: nat
      ensures var u := Changed(s, i, e, done);
              Count(u.asked, t) == Count(u.answered, t) + Queued(u.entries, t) && Count(u.asked, t) <= 1
    {
      QueuedAfterUpdate(s.entries, i, e, t);
      CountBoth(s.answered, done, t);
      assert Count(s.asked, t) <= 1;
    }
  }

  /** A change of one entry that keeps what it must. */
  lemma ChangeIsGood(s: State, pending: set<string>, i: nat, e: Entry, done: seq<Request>)
    requires GoodBut(s, pending) && i < |s.entries|
    requires e.tunnel.id == s.entries[i].tunnel.id && e.life == s.entries[i].life
    requires EntryOk(s, e) && TicketsOk(s, e)
    requires e.tunnel.id in pending || FlagOk(s, e)
    requires forall t :: Count(s.entries[i].requests, t) == Count(e.requests, t) + Count(done, t)
    ensures GoodBut(Changed(s, i, e, done), pending)
  {
    ChangeIsAccounted(s, i, e, done);
  }

  lemma ChangeIsHistory(s: State, i: nat, e: Entry, done: seq<Request>)
    requires Unique(s.entries) && i < |s.entries|
    requires e.tunnel.id == s.entries[i].tunnel.id && e.life == s.entries[i].life
    requires s.entries[i].run <= e.run && (s.entries[i].on && !e.on ==> s.entries[i].run < e.run)
    ensures History(s, Changed(s, i, e, done))
  {
    ChangedOne(s, Changed(s, i, e, done), i);
  }

  function HaltedAt(s: State, i: nat): State
    requires i < |s.entries|
  {
    Changed(s, i, Halted(s.entries[i]), s.entries[i].requests)
  }

  lemma HaltIsHistory(s: State, i: nat)
    requires Unique(s.entries) && i < |s.entries|
    ensures History(s, HaltedAt(s, i))
  {
    ChangeIsHistory(s, i, Halted(s.entries[i]), s.entries[i].requests);
  }

  lemma HaltIsGood(s: State, pending: set<string>, i: nat)
    requires GoodBut(s, pending) && i < |s.entries|
    ensures GoodBut(HaltedAt(s, i), pending)
  {
    ChangeIsGood(s, pending, i, Halted(s.entries[i]), s.entries[i].requests);
  }

  function SwitchedOff(s: State, i: nat): State
    requires i < |s.entries|
  {
    Changed(s, i, Halted(s.entries[i]).(on := false), s.entries[i].requests)
  }

  lemma OffIsGood(s: State, i: nat)
    requires Good(s) && i < |s.entries|
    ensures Good(SwitchedOff(s, i)) && History(s, SwitchedOff(s, i))
  {
    assert TicketsOk(s, s.entries[i]);
    ChangeIsHistory(s, i, Halted(s.entries[i]).(on := false), s.entries[i].requests);
    ChangeIsGood(s, {}, i, Halted(s.entries[i]).(on := false), s.entries[i].requests);
  }

  /** The first `i` tunnels are off, and nothing else differs. */
  ghost predicate OffUpTo(a: State, b: State, i: nat) {
    && b == a.(entries := b.entries, answered := b.answered) && |b.entries| == |a.entries|
    && forall k :: 0 <= k < |a.entries| ==>
         b.entries[k] == if k < i then Halted(a.entries[k]).(on := false) else a.entries[k]
  }

  lemma OffOneMore(a: State, b: State, i: nat)
    requires OffUpTo(a, b, i) && i < |b.entries|
    ensures OffUpTo(a, SwitchedOff(b, i), i + 1)
  {
  }

  lemma AllOffAnswered(a: State, b: State)
    requires OffUpTo(a, b, |b.entries|) && Accounted(b)
    ensures forall t :: Count(b.asked, t) == Count(b.answered, t)
  {
    assert forall k :: 0 <= k < |b.entries| ==> b.entries[k].requests == [];
    AllAnswered(b);
  }

  // ---- Starting -----------------------------------------------------------------------------

  /** Starts the i-th tunnel: a new run, on the sessions of its host or (if `connects`) on a
      connection of its own. */
  function StartedEntry(sessions: map<string, Sessions>, e: Entry, connects: bool): Entry {
    var h := Halted(e);
    if e.tunnel.tied then
      h.(on := true, active := true, session := PublishedFor(sessions, e.tunnel.host).Some?)
    else if connects then h.(on := true, active := true)
    else h.(on := true, link := Some(Ended("invalid")))
  }

  function NewTask(host: string): Task { Task(host, None, None, false, false, 0) }

  /** The callbacks of the run that starts, none if no connection can be made; a tied tunnel's run
      is a task. */
  function StartedAt(s: State, i: nat, connects: bool): State
    requires i < |s.entries|
  {
    var e := s.entries[i];
    var ticket := Ticket(e.tunnel.id, e.run + 1, e.life, !e.tunnel.tied);
    var ready :=
      if e.tunnel.tied then
        s.(sessions := Ensured(s.sessions, e.tunnel.host), tickets := s.tickets + {ticket},
           tasks := s.tasks[ticket := NewTask(e.tunnel.host)])
      else if connects then s.(tickets := s.tickets + {ticket})
      else s;
    Changed(ready, i, StartedEntry(s.sessions, e, connects), e.requests)
  }

  /** The sessions are the same, but that a host may have got an empty list. */
  predicate SameSessions(a: map<string, Sessions>, b: map<string, Sessions>) {
    && (forall h :: h in a ==> h in b && b[h] == a[h])
    && (forall h :: h in b && h !in a ==> b[h] == Sessions([], None, 0))
  }

  lemma SessionsStay(a: map<string, Sessions>, b: map<string, Sessions>, c: map<string, Sessions>)
    requires SameSessions(a, b) && SameSessions(b, c)
    ensures SameSessions(a, c)
  {
  }

  /** Tunnels were started and nothing else happened to sessions, tasks and connections: what was there is
      as it was, and every new task is that of a tied tunnel's present run. */
  ghost predicate OnlyStarts(a: State, b: State) {
    && SameSessions(a.sessions, b.sessions) && b.closed == a.closed && b.asked == a.asked && b.runtime == a.runtime
    && (forall k :: k in a.tasks ==> k in b.tasks && b.tasks[k] == a.tasks[k])
    && (forall k :: k in b.tasks && k !in a.tasks ==> b.tasks[k] == NewTask(b.tasks[k].host) && Held(b, k))
  }

  lemma StartIsOnlyStarts(a: State, s: State, pending: set<string>, i: nat, connects: bool)
    requires OnlyStarts(a, s) && GoodBut(s, pending) && i < |s.entries| && !s.entries[i].active
    ensures OnlyStarts(a, StartedAt(s, i, connects))
  {
    var e, u := s.entries[i], StartedAt(s, i, connects);
    assert EntryGood(s, pending, e);
    SessionsStay(a.sessions, s.sessions, u.sessions);
    forall k | k in s.tasks
      ensures k in u.tasks && u.tasks[k] == s.tasks[k]
    {
      assert k in s.tickets;
    }
    forall k | k in u.tasks && k !in a.tasks
      ensures u.tasks[k] == NewTask(u.tasks[k].host) && Held(u, k)
    {
      StartHolds(s, i, connects, k);
    }
  }

  /** A started tied tunnel holds its task, and the others still hold theirs. */
  lemma StartHolds(s: State, i: nat, connects: bool, k: Ticket)
    requires i < |s.entries| && !s.entries[i].active && k in StartedAt(s, i, connects).tasks
    requires k in s.tasks ==> Held(s, k)
    ensures Held(StartedAt(s, i, connects), k)
  {
    var u := StartedAt(s, i, connects);
    if k in s.tasks {
      var j :| 0 <= j < |s.entries| && s.entries[j].active && s.entries[j].tunnel.tied && TaskOf(s.entries[j]) == k;
      assert u.entries[j] == s.entries[j];
    } else {
      assert u.entries[i].active && u.entries[i].tunnel.tied && TaskOf(u.entries[i]) == k;
    }
  }

  lemma StartKeepsTasks(s: State, i: nat, connects: bool)
    requires TasksOk(s.tasks, s.sessions, s.closed, s.tickets) && AllSessionsOk(s.sessions) && i < |s.entries|
    ensures var u := StartedAt(s, i, connects);
            && TasksOk(u.tasks, u.sessions, u.closed, u.tickets) && AllSessionsOk(u.sessions)
            && SameSessions(s.sessions, u.sessions)
            && (forall h :: PublishedFor(u.sessions, h) == PublishedFor(s.sessions, h))
  {
    StartKeepsSessions(s, i, connects);
  }

  lemma StartKeepsSessions(s: State, i: nat, connects: bool)
    requires AllSessionsOk(s.sessions) && i < |s.entries|
    ensures var u := StartedAt(s, i, connects);
            && AllSessionsOk(u.sessions) && SameSessions(s.sessions, u.sessions)
            && (forall h :: PublishedFor(u.sessions, h) == PublishedFor(s.sessions, h))
  {
  }

  lemma StartIsGood(s: State, pending: set<string>, i: nat, connects: bool)
    requires GoodBut(s, pending) && i < |s.entries| && s.runtime
    ensures GoodBut(StartedAt(s, i, connects), pending - {s.entries[i].tunnel.id})
  {
    var e, u := s.entries[i], StartedAt(s, i, connects);
    var started := StartedEntry(s.sessions, e, connects);
    ChangeIsAccounted(s, i, started, e.requests);
    StartKeepsTasks(s, i, connects);
    forall k | 0 <= k < |u.entries|
      ensures EntryGood(u, pending - {e.tunnel.id}, u.entries[k])
    {
      StartedEntryGood(s, pending, i, connects, k);
    }
    StartIsUnique(s, i, connects);
  }

  lemma StartIsUnique(s: State, i: nat, connects: bool)
    requires Unique(s.entries) && i < |s.entries|
    ensures Unique(StartedAt(s, i, connects).entries)
  {
  }

  lemma StartedEntryGood(s: State, pending: set<string>, i: nat, connects: bool, k: nat)
    requires GoodBut(s, pending) && i < |s.entries| && k < |s.entries| && s.runtime
    ensures var u := StartedAt(s, i, connects);
            EntryGood(u, pending - {s.entries[i].tunnel.id}, u.entries[k])
  {
    assert EntryGood(s, pending, s.entries[k]);
    assert k != i ==> s.entries[k].tunnel.id != s.entries[i].tunnel.id;
    StartLeavesOthers(s, i, connects, k);
  }

  lemma StartLeavesOthers(s: State, i: nat, connects: bool, k: nat)
    requires i < |s.entries| && k < |s.entries| && s.runtime && Unique(s.entries)
    requires forall k :: 0 <= k < |s.entries| ==> EntryOk(s, s.entries[k]) && TicketsOk(s, s.entries[k])
    ensures var u := StartedAt(s, i, connects);
            && EntryOk(u, u.entries[k]) && TicketsOk(u, u.entries[k])
            && (k == i || FlagOk(s, s.entries[k]) ==> FlagOk(u, u.entries[k]))
  {
    var e, u := s.entries[i], StartedAt(s, i, connects);
    if k != i {
      assert u.entries[k] == s.entries[k] && s.entries[k].life != e.life;
      assert s.entries[k].tunnel.id != e.tunnel.id;
      assert EntryOk(s, s.entries[k]) && TicketsOk(s, s.entries[k]);
      if s.entries[k].mixed {
        var t :| t in s.tickets && t.id == s.entries[k].tunnel.id && t.run == s.entries[k].run &&
                 t.life != s.entries[k].life;
        assert t in u.tickets;
      }
    }
  }

  lemma StartIsHistory(s: State, i: nat, connects: bool)
    requires Unique(s.entries) && i < |s.entries|
    ensures History(s, StartedAt(s, i, connects)) && SameSessions(s.sessions, StartedAt(s, i, connects).sessions)
  {
    ChangedOne(s, StartedAt(s, i, connects), i);
  }

  // ---- Callbacks ----------------------------------------------------------------------------

  datatype Report = Listening(port: nat) | NotYet | Broken(message: string)

  function Reported(e: Entry, r: Report): Entry {
    match r
    case Listening(port) => e.(listening := Some(port), waiting := false, failure := None)
    case NotYet => e.(waiting := true)
    case Broken(message) => e.(failure := Some(message), active := false, requests := [])
  }

  function CancelledBy(e: Entry, r: Report): seq<Request> {
    if r.Broken? then e.requests else []
  }

  /** The entry that takes a callback of this ticket. */
  function Taken(e: Entry, t: Ticket): Entry {
    e.(mixed := e.mixed || e.life != t.life)
  }

  function AskedAt(s: State, i: nat, q: Request): State
    requires i < |s.entries|
  {
    var e := s.entries[i];
    Changed(s.(asked := s.asked + [q]), i, e.(requests := e.requests + [q]), [])
  }

  lemma CountOne(q: Request, t: nat)
    ensures Count([q], t) == if q.token == t then 1 else 0
  {
    assert [q][..0] == [];
  }

  lemma AskIsGood(s: State, i: nat, q: Request)
    requires Good(s) && i < |s.entries| && Count(s.asked, q.token) == 0
    requires s.entries[i].on || s.entries[i].mixed
    ensures Good(AskedAt(s, i, q))
  {
    var e := s.entries[i];
    AskIsAccounted(s, i, q);
    assert EntryOk(s, e) && TicketsOk(s, e) && FlagOk(s, e);
  }

  lemma AskIsHistory(s: State, i: nat, q: Request)
    requires Unique(s.entries) && i < |s.entries|
    ensures History(s, AskedAt(s, i, q))
  {
    ChangedOne(s, AskedAt(s, i, q), i);
  }

  lemma AskIsAccounted(s: State, i: nat, q: Request)
    requires Accounted(s) && i < |s.entries| && Count(s.asked, q.token) == 0
    ensures Accounted(AskedAt(s, i, q))
  {
    var e, u := s.entries[i], AskedAt(s, i, q);
    forall t: nat
      ensures Count(u.asked, t) == Count(u.answered, t) + Queued(u.entries, t) && Count(u.asked, t) <= 1
    {
      assert Count(s.asked, t) <= 1;
      QueuedAfterUpdate(s.entries, i, e.(requests := e.requests + [q]), t);
      CountBoth(s.asked, [q], t);
      CountBoth(e.requests, [q], t);
      CountBoth(s.answered, [], t);
      CountOne(q, t);
    }
  }

  function CancelledAtOnce(s: State, q: Request): State {
    s.(asked := s.asked + [q], answered := s.answered + [q])
  }

  lemma CancelIsAccounted(s: State, q: Request)
    requires Accounted(s) && Count(s.asked, q.token) == 0
    ensures Accounted(CancelledAtOnce(s, q))
  {
    var u := CancelledAtOnce(s, q);
    forall t: nat
      ensures Count(u.asked, t) == Count(u.answered, t) + Queued(u.entries, t) && Count(u.asked, t) <= 1
    {
      assert Count(s.asked, t) <= 1;
      CountBoth(s.asked, [q], t);
      CountBoth(s.answered, [q], t);
      CountOne(q, t);
    }
  }

  lemma CancelIsGood(s: State, q: Request)
    requires Good(s) && Count(s.asked, q.token) == 0
    ensures Good(CancelledAtOnce(s, q)) && History(s, CancelledAtOnce(s, q))
  {
    CancelIsAccounted(s, q);
    SameEntries(s, CancelledAtOnce(s, q));
  }

  /** A callback of this run finds its tunnel on, if it is of this entry. */
  lemma TakenIsGood(s: State, t: Ticket, i: nat)
    requires Good(s) && t in s.tickets && i < |s.entries| && Accepted(s, t, i)
    ensures s.entries[i].life == t.life ==> s.entries[i].on
    ensures Good(TakenAt(s, t, i)) && History(s, TakenAt(s, t, i))
  {
    assert EntryOk(s, s.entries[i]) && TicketsOk(s, s.entries[i]);
    ChangeIsHistory(s, i, Taken(s.entries[i], t), []);
    ChangeIsGood(s, {}, i, Taken(s.entries[i], t), []);
  }

  /** A callback reaches the k-th entry: it has the id and the run that the callback captured. */
  predicate Accepted(s: State, t: Ticket, k: nat)
    requires k < |s.entries|
  {
    s.entries[k].tunnel.id == t.id && s.entries[k].run == t.run
  }

  lemma NotAccepted(s: State, t: Ticket, i: int)
    requires Unique(s.entries) && -1 <= i < |s.entries|
    requires if i < 0 then forall k :: 0 <= k < |s.entries| ==> s.entries[k].tunnel.id != t.id
             else s.entries[i].tunnel.id == t.id && s.entries[i].run != t.run
    ensures forall k :: 0 <= k < |s.entries| ==> !Accepted(s, t, k)
  {
  }

  function TakenAt(s: State, t: Ticket, i: nat): State
    requires i < |s.entries|
  {
    Changed(s, i, Taken(s.entries[i], t), [])
  }

  function ReportedAt(s: State, i: nat, report: Report): State
    requires i < |s.entries|
  {
    Changed(s, i, Reported(s.entries[i], report), CancelledBy(s.entries[i], report))
  }

  lemma ReportIsGood(s: State, i: nat, report: Report)
    requires Good(s) && i < |s.entries| && (s.entries[i].on || s.entries[i].mixed)
    ensures Good(ReportedAt(s, i, report)) && History(s, ReportedAt(s, i, report))
  {
    ChangeIsHistory(s, i, Reported(s.entries[i], report), CancelledBy(s.entries[i], report));
    assert EntryOk(s, s.entries[i]) && TicketsOk(s, s.entries[i]);
    ChangeIsGood(s, {}, i, Reported(s.entries[i], report), CancelledBy(s.entries[i], report));
  }

  function LinkedAt(s: State, i: nat, link: Link): State
    requires i < |s.entries|
  {
    Changed(s, i, s.entries[i].(link := Some(link)), [])
  }

  lemma LinkIsGood(s: State, i: nat, link: Link)
    requires Good(s) && i < |s.entries| && (s.entries[i].on || s.entries[i].mixed)
    ensures Good(LinkedAt(s, i, link)) && History(s, LinkedAt(s, i, link))
  {
    ChangeIsHistory(s, i, s.entries[i].(link := Some(link)), []);
    assert EntryOk(s, s.entries[i]) && TicketsOk(s, s.entries[i]);
    ChangeIsGood(s, {}, i, s.entries[i].(link := Some(link)), []);
  }

  // ---- Adding and removing entries ----------------------------------------------------------

  lemma {:induction false} QueuedBoth(a: seq<Entry>, b: seq<Entry>, t: nat)
    ensures Queued(a + b, t) == Queued(a, t) + Queued(b, t)
  {
    if b == [] {
      assert a + b == a;
    } else {
      QueuedBoth(a, b[..|b| - 1], t);
      assert (a + b)[..|a + b| - 1] == a + b[..|b| - 1];
    }
  }

  lemma QueuedOne(e: Entry, t: nat)
    ensures Queued([e], t) == Count(e.requests, t)
  {
    assert [e][..0] == [];
  }

  function Without(entries: seq<Entry>, i: nat): seq<Entry>
    requires i < |entries|
  {
    entries[..i] + entries[i + 1..]
  }

  lemma QueuedWithout(entries: seq<Entry>, i: nat, t: nat)
    requires i < |entries|
    ensures Queued(entries, t) == Queued(Without(entries, i), t) + Count(entries[i].requests, t)
  {
    assert entries == entries[..i] + [entries[i]] + entries[i + 1..];
    QueuedBoth(entries[..i], [entries[i]], t);
    QueuedBoth(entries[..i] + [entries[i]], entries[i + 1..], t);
    QueuedBoth(entries[..i], entries[i + 1..], t);
    QueuedOne(entries[i], t);
  }

  /** The i-th entry is stopped and gone. */
  function RemovedAt(s: State, i: nat): State
    requires i < |s.entries|
  {
    s.(entries := Without(s.entries, i), answered := s.answered + s.entries[i].requests)
  }

  lemma RemoveIsAccounted(s: State, i: nat)
    requires Accounted(s) && i < |s.entries|
    ensures Accounted(RemovedAt(s, i))
  {
    var u := RemovedAt(s, i);
    forall t: nat
      ensures Count(u.asked, t) == Count(u.answered, t) + Queued(u.entries, t) && Count(u.asked, t) <= 1
    {
      assert Count(s.asked, t) <= 1;
      QueuedWithout(s.entries, i, t);
      CountBoth(s.answered, s.entries[i].requests, t);
    }
  }

  lemma RemoveIsGood(s: State, pending: set<string>, i: nat)
    requires GoodBut(s, pending) && i < |s.entries|
    ensures GoodBut(RemovedAt(s, i), pending)
  {
    var u := RemovedAt(s, i);
    RemoveIsAccounted(s, i);
    forall k | 0 <= k < |u.entries|
      ensures u.entries[k] == s.entries[if k < i then k else k + 1]
    {
    }
  }

  lemma RemoveIsHistory(s: State, i: nat)
    requires i < |s.entries|
    ensures History(s, RemovedAt(s, i))
  {
    var u := RemovedAt(s, i);
    forall k | 0 <= k < |u.entries|
      ensures StaysIn(s.entries, u.entries[k])
    {
      assert u.entries[k] == s.entries[if k < i then k else k + 1];
    }
    Rearranged(s, u);
  }

  lemma RemovedIsGone(s: State, i: nat)
    requires Unique(s.entries) && i < |s.entries|
    ensures forall k :: 0 <= k < |s.entries| - 1 ==> RemovedAt(s, i).entries[k].tunnel.id != s.entries[i].tunnel.id
  {
    var u := RemovedAt(s, i);
    forall k | 0 <= k < |u.entries|
      ensures u.entries[k].tunnel.id != s.entries[i].tunnel.id
    {
      assert u.entries[k] == s.entries[if k < i then k else k + 1];
    }
  }

  /** A new entry, off, after the first `i`. */
  function InsertedAt(s: State, i: nat, tunnel: Tunnel): State
    requires i <= |s.entries|
  {
    s.(entries := s.entries[..i] + [NewEntry(tunnel, s.lives)] + s.entries[i..], lives := s.lives + 1)
  }

  lemma InsertIsAccounted(s: State, i: nat, tunnel: Tunnel)
    requires Accounted(s) && i <= |s.entries|
    ensures Accounted(InsertedAt(s, i, tunnel))
  {
    var u := InsertedAt(s, i, tunnel);
    forall t: nat
      ensures Count(u.asked, t) == Count(u.answered, t) + Queued(u.entries, t) && Count(u.asked, t) <= 1
    {
      assert Count(s.asked, t) <= 1;
      QueuedWithout(u.entries, i, t);
      assert Without(u.entries, i) == s.entries;
    }
  }

  lemma InsertIsUnique(s: State, i: nat, tunnel: Tunnel)
    requires Unique(s.entries) && i <= |s.entries|
    requires forall k :: 0 <= k < |s.entries| ==> s.entries[k].tunnel.id != tunnel.id && s.entries[k].life < s.lives
    ensures Unique(InsertedAt(s, i, tunnel).entries)
  {
    var u := InsertedAt(s, i, tunnel);
    forall k | 0 <= k < |u.entries| && k != i
      ensures u.entries[k] == s.entries[if k < i then k else k - 1]
    {
    }
  }

  lemma InsertIsGood(s: State, pending: set<string>, i: nat, tunnel: Tunnel)
    requires GoodBut(s, pending) && i <= |s.entries|
    requires forall k :: 0 <= k < |s.entries| ==> s.entries[k].tunnel.id != tunnel.id
    ensures GoodBut(InsertedAt(s, i, tunnel), pending)
  {
    var u := InsertedAt(s, i, tunnel);
    InsertIsAccounted(s, i, tunnel);
    assert forall k :: 0 <= k < |s.entries| ==> EntryOk(s, s.entries[k]);
    InsertIsUnique(s, i, tunnel);
    forall k | 0 <= k < |u.entries|
      ensures EntryOk(u, u.entries[k]) && TicketsOk(u, u.entries[k])
      ensures u.entries[k].tunnel.id !in pending ==> FlagOk(u, u.entries[k])
    {
      if k != i {
        assert u.entries[k] == s.entries[if k < i then k else k - 1];
      }
    }
  }

  lemma InsertIsHistory(s: State, i: nat, tunnel: Tunnel)
    requires i <= |s.entries|
    ensures History(s, InsertedAt(s, i, tunnel))
  {
    var u := InsertedAt(s, i, tunnel);
    forall k | 0 <= k < |u.entries| && k != i
      ensures StaysIn(s.entries, u.entries[k])
    {
      assert u.entries[k] == s.entries[if k < i then k else k - 1];
    }
    Rearranged(s, u);
  }

  // ---- A new definition, and a new order ----------------------------------------------------

  /** A halted entry with a new definition; if it is on, it is to start again. */
  lemma RedefineIsGood(s: State, pending: set<string>, i: nat, tunnel: Tunnel)
    requires GoodBut(s, pending) && i < |s.entries| && tunnel.id == s.entries[i].tunnel.id && !s.entries[i].active
    ensures GoodBut(Changed(s, i, s.entries[i].(tunnel := tunnel), []), pending + {tunnel.id})
    ensures !s.entries[i].on ==> GoodBut(Changed(s, i, s.entries[i].(tunnel := tunnel), []), pending)
  {
    var e := s.entries[i].(tunnel := tunnel);
    assert GoodBut(s, pending + {tunnel.id});
    ChangeIsGood(s, pending + {tunnel.id}, i, e, []);
    if !e.on {
      ChangeIsGood(s, pending, i, e, []);
    }
  }

  /** The entry at `from` goes to `to`, before it. */
  function Moved(entries: seq<Entry>, from: nat, to: nat): seq<Entry>
    requires to <= from < |entries|
  {
    entries[..to] + [entries[from]] + entries[to..from] + entries[from + 1..]
  }

  lemma MovedAt(entries: seq<Entry>, from: nat, to: nat, k: nat)
    requires to <= from < |entries| && k < |entries|
    ensures |Moved(entries, from, to)| == |entries|
    ensures Moved(entries, from, to)[k] ==
            entries[if k < to then k else if k == to then from else if k <= from then k - 1 else k]
  {
  }

  lemma QueuedMoved(entries: seq<Entry>, from: nat, to: nat, t: nat)
    requires to <= from < |entries|
    ensures Queued(Moved(entries, from, to), t) == Queued(entries, t)
  {
    QueuedWithout(entries, from, t);
    QueuedWithout(Moved(entries, from, to), to, t);
    assert Without(Moved(entries, from, to), to) == Without(entries, from);
  }

  lemma MoveIsAccounted(s: State, from: nat, to: nat)
    requires Accounted(s) && to <= from < |s.entries|
    ensures Accounted(s.(entries := Moved(s.entries, from, to)))
  {
    var u := s.(entries := Moved(s.entries, from, to));
    forall t: nat
      ensures Count(u.asked, t) == Count(u.answered, t) + Queued(u.entries, t) && Count(u.asked, t) <= 1
    {
      assert Count(s.asked, t) <= 1;
      QueuedMoved(s.entries, from, to, t);
    }
  }

  lemma MoveIsUnique(entries: seq<Entry>, from: nat, to: nat)
    requires Unique(entries) && to <= from < |entries|
    ensures Unique(Moved(entries, from, to))
  {
    var m := Moved(entries, from, to);
    forall k | 0 <= k < |m|
      ensures m[k] == entries[if k < to then k else if k == to then from else if k <= from then k - 1 else k]
    {
      MovedAt(entries, from, to, k);
    }
  }

  lemma MoveIsGood(s: State, pending: set<string>, from: nat, to: nat)
    requires GoodBut(s, pending) && to <= from < |s.entries|
    ensures GoodBut(s.(entries := Moved(s.entries, from, to)), pending)
  {
    var u := s.(entries := Moved(s.entries, from, to));
    MoveIsAccounted(s, from, to);
    MoveIsUnique(s.entries, from, to);
    forall k | 0 <= k < |u.entries|
      ensures EntryOk(u, u.entries[k]) && TicketsOk(u, u.entries[k])
      ensures u.entries[k].tunnel.id !in pending ==> FlagOk(u, u.entries[k])
    {
      MovedAt(s.entries, from, to, k);
      var j := if k < to then k else if k == to then from else if k <= from then k - 1 else k;
      assert EntryOk(s, s.entries[j]) && TicketsOk(s, s.entries[j]);
    }
  }

  // ---- Commands and callbacks ---------------------------------------------------------------

  class Manager {
    var s: State

    constructor (runtime: bool)
      ensures Good(s) && s == State([], map[], runtime, [], [], {}, 0, map[], {})
    {
      s := State([], map[], runtime, [], [], {}, 0, map[], {});
    }

    /** Where the tunnel with this id is, -1 if it is nowhere. */
    method IndexOf(id: string) returns (i: int)
      ensures -1 <= i < |s.entries|
      ensures i >= 0 ==> s.entries[i].tunnel.id == id
      ensures i < 0 ==> forall k :: 0 <= k < |s.entries| ==> s.entries[k].tunnel.id != id
    {
      for k := 0 to |s.entries|
        invariant forall j :: 0 <= j < k ==> s.entries[j].tunnel.id != id
      {
        if s.entries[k].tunnel.id == id {
          return k;
        }
      }
      i := -1;
    }

    /** Starts the i-th tunnel, if there is a runtime; `connects` says whether a connection of its own
        can be made. */
    method Start(i: nat, connects: bool, ghost pending: set<string>)
      requires GoodBut(s, pending) && i < |s.entries|
      requires s.entries[i].on ==> s.runtime
      modifies this
      ensures s == if s.runtime then StartedAt(old(s), i, connects) else old(s)
      ensures s.runtime == old(s).runtime && History(old(s), s) && SameSessions(old(s).sessions, s.sessions)
      ensures s.runtime ==> GoodBut(s, pending - {s.entries[i].tunnel.id})
    {
      if !s.runtime {
        SameHistory(s);
        return;
      }
      StartIsGood(s, pending, i, connects);
      StartIsHistory(s, i, connects);
      s := StartedAt(s, i, connects);
    }

    /** Switches a tunnel on or off. */
    method SetOn(id: string, on: bool, connects: bool) returns (known: bool)
      requires Good(s)
      modifies this
      ensures Good(s) && History(old(s), s)
      ensures !known ==> s == old(s) && forall k :: 0 <= k < |s.entries| ==> s.entries[k].tunnel.id != id
      ensures known ==> exists k :: 0 <= k < |old(s).entries| && old(s).entries[k].tunnel.id == id &&
                                    Switched(old(s), s, k, on, connects)
    {
      SameHistory(s);
      var i := IndexOf(id);
      if i < 0 {
        return false;
      }
      known := true;
      if s.entries[i].on == on {
        return;
      }
      if on {
        Start(i, connects, {});
      } else {
        OffIsGood(s, i);
        s := SwitchedOff(s, i);
      }
    }

    /** Answers a question, by the number it is shown with: the first such question of the tunnel. */
    method Answer(id: string, request: nat) returns (found: bool)
      requires Good(s)
      modifies this
      ensures Good(s) && History(old(s), s)
      ensures found <==> exists k, j :: 0 <= k < |old(s).entries| && Asks(old(s).entries[k], id, j, request)
      ensures !found ==> s == old(s)
      ensures found ==> exists k, j :: 0 <= k < |old(s).entries| && Asks(old(s).entries[k], id, j, request) &&
                                       s == AnsweredAt(old(s), k, j)
    {
      SameHistory(s);
      var i := IndexOf(id);
      if i < 0 {
        return false;
      }
      var j := FindRequest(s.entries[i].requests, request);
      if j == |s.entries[i].requests| {
        NobodyAsks(s, id, i, request);
        return false;
      }
      found := true;
      assert Asks(s.entries[i], id, j, request);
      AnswerIsGood(s, i, j);
      s := AnsweredAt(s, i, j);
    }

    method FindRequest(requests: seq<Request>, request: nat) returns (j: nat)
      ensures j <= |requests| && (j < |requests| ==> requests[j].id == request)
      ensures forall k :: 0 <= k < j ==> requests[k].id != request
    {
      j := 0;
      while j < |requests| && requests[j].id != request
        invariant 0 <= j <= |requests| && forall k :: 0 <= k < j ==> requests[k].id != request
      {
        j := j + 1;
      }
    }

    /** Stops every tunnel (at exit). */
    method StopAll()
      requires Good(s)
      modifies this
      ensures Good(s) && History(old(s), s) && |s.entries| == |old(s).entries|
      ensures OffUpTo(old(s), s, |s.entries|)
      ensures forall t :: Count(s.asked, t) == Count(s.answered, t)
    {
      ghost var a := s;
      SameHistory(s);
      for i := 0 to |s.entries|
        invariant Good(s) && History(a, s) && OffUpTo(a, s, i)
      {
        OffIsGood(s, i);
        HistoryComposes(a, s, SwitchedOff(s, i));
        OffOneMore(a, s, i);
        s := SwitchedOff(s, i);
      }
      AllOffAnswered(a, s);
    }

    /** Removes a tunnel, stopping it. */
    method Remove(id: string) returns (known: bool)
      requires Good(s)
      modifies this
      ensures Good(s) && History(old(s), s)
      ensures !known ==> s == old(s)
      ensures known ==> exists k :: 0 <= k < |old(s).entries| && old(s).entries[k].tunnel.id == id &&
                          s == RemovedAt(old(s), k)
      ensures forall k :: 0 <= k < |s.entries| ==> s.entries[k].tunnel.id != id
    {
      SameHistory(s);
      var i := IndexOf(id);
      if i < 0 {
        return false;
      }
      known := true;
      RemoveIsGood(s, {}, i);
      RemoveIsHistory(s, i);
      RemovedIsGone(s, i);
      s := RemovedAt(s, i);
    }

    /** A copy of a tunnel, off, right after it, under a new id. */
    method Duplicate(id: string, newId: string) returns (known: bool)
      requires Good(s) && forall k :: 0 <= k < |s.entries| ==> s.entries[k].tunnel.id != newId
      modifies this
      ensures Good(s) && History(old(s), s)
      ensures !known ==> s == old(s)
      ensures known ==> exists k :: 0 <= k < |old(s).entries| && old(s).entries[k].tunnel.id == id &&
                          s == InsertedAt(old(s), k + 1,
                                          old(s).entries[k].tunnel.(id := newId, autostart := false))
    {
      SameHistory(s);
      var i := IndexOf(id);
      if i < 0 {
        return false;
      }
      known := true;
      var copy := s.entries[i].tunnel.(id := newId, autostart := false);
      InsertIsGood(s, {}, i + 1, copy);
      InsertIsHistory(s, i + 1, copy);
      s := InsertedAt(s, i + 1, copy);
    }

    /** A definition from the user: of a new tunnel, or of one that is there and may be on. */
    method Upsert(tunnel: Tunnel, connects: bool) returns (ok: bool)
      requires Good(s)
      modifies this
      ensures Good(s) && History(old(s), s)
      ensures ok == !tunnel.problem && (!ok ==> s == old(s))
      ensures ok ==> UpsertDone(old(s), s, tunnel, connects)
    {
      SameHistory(s);
      if tunnel.problem {
        return false;
      }
      ok := true;
      var i := IndexOf(tunnel.id);
      if i < 0 {
        InsertIsGood(s, {}, |s.entries|, tunnel);
        InsertIsHistory(s, |s.entries|, tunnel);
        s := InsertedAt(s, |s.entries|, tunnel);
        return;
      }
      Replace(i, tunnel, connects);
    }

    method Replace(i: nat, tunnel: Tunnel, connects: bool)
      requires Good(s) && i < |s.entries| && s.entries[i].tunnel.id == tunnel.id
      modifies this
      ensures Good(s) && History(old(s), s) && s == Upserted(old(s), i, tunnel, connects)
    {
      ghost var a := s;
      SameHistory(s);
      if s.entries[i].tunnel != tunnel {
        Redefine(i, tunnel, {});
        if s.entries[i].on {
          ghost var b := s;
          Start(i, connects, {tunnel.id});
          HistoryComposes(a, b, s);
        }
      }
    }

    /** Finds the entry that takes a callback: the one with its id, if its run is the same. */
    method Accept(t: Ticket) returns (i: int)
      requires Good(s) && t in s.tickets
      modifies this
      ensures Good(s) && History(old(s), s) && -1 <= i < |s.entries|
      ensures i >= 0 ==> i < |old(s).entries| && Accepted(old(s), t, i) && s == TakenAt(old(s), t, i) &&
                         (s.entries[i].on || s.entries[i].mixed)
      ensures i < 0 ==> s == old(s) && forall k :: 0 <= k < |s.entries| ==> !Accepted(s, t, k)
    {
      SameHistory(s);
      i := IndexOf(t.id);
      if i < 0 || s.entries[i].run != t.run {
        NotAccepted(s, t, i);
        return -1;
      }
      TakenIsGood(s, t, i);
      s := TakenAt(s, t, i);
    }

    /** A report of the forwarder of a run, unless a newer run replaced it. */
    method OnReport(t: Ticket, report: Report)
      requires Good(s) && t in s.tickets
      modifies this
      ensures Good(s) && History(old(s), s)
      ensures forall k :: 0 <= k < |old(s).entries| && Accepted(old(s), t, k) ==>
                s == ReportedAt(TakenAt(old(s), t, k), k, report)
      ensures (forall k :: 0 <= k < |old(s).entries| ==> !Accepted(old(s), t, k)) ==> s == old(s)
    {
      ghost var a := s;
      var i := Accept(t);
      if i >= 0 {
        ReportIsGood(s, i, report);
        HistoryComposes(a, s, ReportedAt(s, i, report));
        s := ReportedAt(s, i, report);
      }
    }

    /** How the connection of a run is doing. */
    method OnLink(t: Ticket, link: Link)
      requires Good(s) && t in s.tickets && t.asks
      modifies this
      ensures Good(s) && History(old(s), s)
      ensures forall k :: 0 <= k < |old(s).entries| && Accepted(old(s), t, k) ==>
                s == LinkedAt(TakenAt(old(s), t, k), k, link)
      ensures (forall k :: 0 <= k < |old(s).entries| ==> !Accepted(old(s), t, k)) ==> s == old(s)
    {
      ghost var a := s;
      var i := Accept(t);
      if i >= 0 {
        LinkIsGood(s, i, link);
        HistoryComposes(a, s, LinkedAt(s, i, link));
        s := LinkedAt(s, i, link);
      }
    }

    /** A question of a run: it waits for an answer, or (of a run that ended) is cancelled at once. */
    method OnQuestion(t: Ticket, q: Request)
      requires Good(s) && t in s.tickets && t.asks && Count(s.asked, q.token) == 0
      modifies this
      ensures Good(s) && History(old(s), s)
      ensures forall k :: 0 <= k < |old(s).entries| && Accepted(old(s), t, k) ==>
                s == AskedAt(TakenAt(old(s), t, k), k, q)
      ensures (forall k :: 0 <= k < |old(s).entries| ==> !Accepted(old(s), t, k)) ==> s == CancelledAtOnce(old(s), q)
    {
      ghost var a := s;
      var i := Accept(t);
      if i >= 0 {
        AskIsGood(s, i, q);
        AskIsHistory(s, i, q);
        HistoryComposes(a, s, AskedAt(s, i, q));
        s := AskedAt(s, i, q);
      } else {
        CancelIsGood(s, q);
        s := CancelledAtOnce(s, q);
      }
    }

    /** Takes the tunnels of a file, stopping those there are; those marked so may start. */
    method Load(file: seq<Tunnel>, autostart: bool)
      requires Good(s)
      requires forall i, j :: 0 <= i < j < |file| ==> file[i].id != file[j].id
      modifies this
      ensures Good(s) && History(old(s), s) && |s.entries| == |file|
      ensures AllNew(s, file, old(s).lives, old(s).sessions)
      ensures forall k :: 0 <= k < |file| ==> s.entries[k].on == (autostart && file[k].autostart && s.runtime)
      ensures OnlyStarts(old(s), s) && forall t :: Count(s.asked, t) == Count(s.answered, t)
    {
      ghost var a := s;
      HaltAll();
      ghost var b := s;
      Adopt(file);
      HistoryComposes(a, b, s);
      ghost var c := s;
      if autostart {
        Autostart(file, a.lives, a);
        HistoryComposes(a, c, s);
      }
      AllAnswered(s);
    }

    method Autostart(file: seq<Tunnel>, ghost from: nat, ghost a: State)
      requires Good(s) && AllNew(s, file, from, a.sessions) && AllOff(s) && OnlyStarts(a, s)
      modifies this
      ensures Good(s) && History(old(s), s) && AllNew(s, file, from, a.sessions) && OnlyStarts(a, s)
      ensures forall k :: 0 <= k < |file| ==> s.entries[k].on == (file[k].autostart && s.runtime)
    {
      SameHistory(s);
      for i := 0 to |s.entries|
        invariant Good(s) && History(old(s), s) && AllNew(s, file, from, a.sessions) && OnlyStarts(a, s)
        invariant OnUpTo(s, file, i)
      {
        AutostartOne(file, from, i, a, old(s));
      }
    }

    method AutostartOne(file: seq<Tunnel>, ghost from: nat, i: nat, ghost a: State, ghost first: State)
      requires Good(s) && AllNew(s, file, from, a.sessions) && i < |file| && OnUpTo(s, file, i) && OnlyStarts(a, s)
      modifies this
      ensures Good(s) && AllNew(s, file, from, a.sessions) && OnUpTo(s, file, i + 1) && OnlyStarts(a, s)
      ensures History(first, old(s)) ==> History(first, s)
    {
      ghost var before := s;
      if s.entries[i].tunnel.autostart {
        StartNew(file, from, i, a);
        if History(first, before) {
          HistoryComposes(first, before, s);
        }
      }
      OnOneMore(before, s, file, i, from, a.sessions);
    }

    method StartNew(file: seq<Tunnel>, ghost from: nat, i: nat, ghost a: State)
      requires Good(s) && AllNew(s, file, from, a.sessions) && i < |file| && !s.entries[i].on && OnlyStarts(a, s)
      modifies this
      ensures Good(s) && History(old(s), s) && AllNew(s, file, from, a.sessions) && OnlyStarts(a, s)
      ensures s.entries == old(s).entries[i := s.entries[i]] && s.entries[i].on == s.runtime == old(s).runtime
    {
      ghost var before := s;
      var connects: bool := *;
      if s.runtime {
        assert EntryGood(s, {}, s.entries[i]);
        StartIsOnlyStarts(a, s, {}, i, connects);
      }
      Start(i, connects, {});
      StartedStaysNew(before, s, file, from, i, a.sessions);
    }

    method HaltAll()
      requires Good(s)
      modifies this
      ensures Good(s) && History(old(s), s) && OnlyEntries(old(s), s) && s.lives == old(s).lives
      ensures forall k :: 0 <= k < |s.entries| ==> s.entries[k].requests == []
    {
      SameHistory(s);
      for i := 0 to |s.entries|
        invariant Good(s) && History(old(s), s) && OnlyEntries(old(s), s) && s.lives == old(s).lives
        invariant |s.entries| == |old(s).entries| && forall k :: 0 <= k < i ==> s.entries[k].requests == []
      {
        HaltIsGood(s, {}, i);
        HaltIsHistory(s, i);
        HistoryComposes(old(s), s, HaltedAt(s, i));
        s := HaltedAt(s, i);
      }
    }

    /** New entries, off, replace the halted ones. */
    method Adopt(file: seq<Tunnel>)
      requires Good(s) && forall k :: 0 <= k < |s.entries| ==> s.entries[k].requests == []
      requires forall i, j :: 0 <= i < j < |file| ==> file[i].id != file[j].id
      modifies this
      ensures Good(s) && History(old(s), s) && OnlyEntries(old(s), s)
      ensures AllNew(s, file, old(s).lives, old(s).sessions) && AllOff(s)
    {
      DropIsGood(s);
      s := s.(entries := []);
      for n := 0 to |file|
        invariant Good(s) && History(old(s), s) && OnlyEntries(old(s), s)
        invariant AllNew(s, file[..n], old(s).lives, old(s).sessions) && s.lives == old(s).lives + n && AllOff(s)
      {
        OneMoreNew(s, file, n, old(s).lives, old(s).sessions);
        ghost var before := s;
        AdoptOne(file, n);
        HistoryComposes(old(s), before, s);
      }
      assert file[..|file|] == file;
    }

    method AdoptOne(file: seq<Tunnel>, n: nat)
      requires Good(s) && n < |file| && |s.entries| == n
      requires forall i, j :: 0 <= i < j < |file| ==> file[i].id != file[j].id
      requires forall k :: 0 <= k < n ==> s.entries[k].tunnel == file[k]
      modifies this
      ensures Good(s) && History(old(s), s) && s == InsertedAt(old(s), n, file[n])
    {
      InsertIsGood(s, {}, n, file[n]);
      InsertIsHistory(s, n, file[n]);
      s := InsertedAt(s, n, file[n]);
    }

    /** Follows another version of the file: the entries are those of its tunnels, in its order, and
        each is as `Reloaded` says. */
    method Reload(file: seq<Tunnel>)
      requires Good(s)
      requires forall i, j :: 0 <= i < j < |file| ==> file[i].id != file[j].id
      modifies this
      ensures Good(s) && History(old(s), s) && |s.entries| == |file|
      ensures OnlyStarts(old(s), s)
      ensures forall k :: 0 <= k < |file| ==>
                Reloaded(Before(old(s), file[k].id), s.entries[k], file[k], false, old(s).sessions)
    {
      ghost var a := s;
      var kept, restart := TakeOver(file);
      ghost var b := With(s, kept);
      DropRest(kept, Ids(restart));
      HistoryComposes(a, b, s);
      ghost var c := s;
      Restart(file, restart, a);
      HistoryComposes(a, c, s);
    }

    /** Collects the entries of the file's tunnels, and the ids of those to start again. */
    method TakeOver(file: seq<Tunnel>) returns (kept: seq<Entry>, restart: seq<string>)
      requires Good(s)
      requires forall i, j :: 0 <= i < j < |file| ==> file[i].id != file[j].id
      modifies this
      ensures GoodBut(With(s, kept), Ids(restart)) && OnlyEntries(old(s), s) && History(old(s), With(s, kept))
      ensures Collected(old(s), kept, file, Ids(restart)) && Distinct(restart)
    {
      kept, restart := [], [];
      NothingKept(s);
      for n := 0 to |file|
        invariant GoodBut(With(s, kept), Ids(restart)) && OnlyEntries(old(s), s) && History(old(s), With(s, kept))
        invariant Collected(old(s), kept, file[..n], Ids(restart)) && Distinct(restart)
        invariant LeftOver(old(s), s.entries, file[..n])
      {
        assert file[..n + 1] == file[..n] + [file[n]];
        ghost var before := With(s, kept);
        kept, restart := TakeOne(kept, restart, file[n], old(s), file[..n]);
        HistoryComposes(old(s), before, With(s, kept));
      }
      assert file[..|file|] == file;
    }

    /** One tunnel of the file: its entry, with the new definition, or a new entry. */
    method TakeOne(kept: seq<Entry>, restart: seq<string>, tunnel: Tunnel, ghost a: State, ghost done: seq<Tunnel>)
        returns (kept': seq<Entry>, restart': seq<string>)
      requires GoodBut(With(s, kept), Ids(restart)) && Unique(a.entries) && tunnel.id !in FileIds(done)
      requires Collected(a, kept, done, Ids(restart)) && Distinct(restart) && LeftOver(a, s.entries, done)
      requires s.sessions == a.sessions
      modifies this
      ensures GoodBut(With(s, kept'), Ids(restart')) && OnlyEntries(old(s), s)
      ensures History(With(old(s), kept), With(s, kept'))
      ensures Collected(a, kept', done + [tunnel], Ids(restart')) && Distinct(restart')
      ensures LeftOver(a, s.entries, done + [tunnel])
    {
      var p := IndexOf(tunnel.id);
      if p < 0 {
        kept' := TakeNew(kept, tunnel, a, done, Ids(restart));
        restart' := restart;
      } else {
        kept', restart' := TakeFound(kept, restart, tunnel, p, a, done);
      }
    }

    method TakeNew(kept: seq<Entry>, tunnel: Tunnel, ghost a: State, ghost done: seq<Tunnel>,
                   ghost pending: set<string>) returns (kept': seq<Entry>)
      requires GoodBut(With(s, kept), pending) && tunnel.id !in FileIds(done)
      requires Collected(a, kept, done, pending) && LeftOver(a, s.entries, done)
      requires forall k :: 0 <= k < |s.entries| ==> s.entries[k].tunnel.id != tunnel.id
      modifies this
      ensures GoodBut(With(s, kept'), pending) && OnlyEntries(old(s), s)
      ensures History(With(old(s), kept), With(s, kept'))
      ensures Collected(a, kept', done + [tunnel], pending) && LeftOver(a, s.entries, done + [tunnel])
    {
      NewIsCollected(a, s, kept, done, pending, tunnel);
      kept' := kept + [NewEntry(tunnel, s.lives)];
      s := s.(lives := s.lives + 1);
    }

    method TakeFound(kept: seq<Entry>, restart: seq<string>, tunnel: Tunnel, p: nat, ghost a: State,
                     ghost done: seq<Tunnel>)
        returns (kept': seq<Entry>, restart': seq<string>)
      requires GoodBut(With(s, kept), Ids(restart)) && Unique(a.entries) && tunnel.id !in FileIds(done)
      requires Collected(a, kept, done, Ids(restart)) && Distinct(restart) && LeftOver(a, s.entries, done)
      requires p < |s.entries| && s.entries[p].tunnel.id == tunnel.id && s.sessions == a.sessions
      modifies this
      ensures GoodBut(With(s, kept'), Ids(restart')) && OnlyEntries(old(s), s)
      ensures History(With(old(s), kept), With(s, kept'))
      ensures Collected(a, kept', done + [tunnel], Ids(restart')) && Distinct(restart')
      ensures LeftOver(a, s.entries, done + [tunnel])
    {
      LeftOverTaken(a, s.entries, done, p, tunnel);
      var e, again := TakeOut(kept, p, tunnel, Ids(restart));
      restart' := if again then restart + [tunnel.id] else restart;
      IdsMore(restart, tunnel.id);
      kept' := kept + [e];
      CollectedMore(a, kept, done, Ids(restart), e, tunnel, again);
    }

    /** Takes an entry out of the old ones, with the new definition. */
    method TakeOut(ghost kept: seq<Entry>, p: nat, tunnel: Tunnel, ghost pending: set<string>)
        returns (e: Entry, again: bool)
      requires GoodBut(With(s, kept), pending) && p < |s.entries| && s.entries[p].tunnel.id == tunnel.id
      modifies this
      ensures GoodBut(With(s, kept + [e]), if again then pending + {tunnel.id} else pending)
      ensures OnlyEntries(old(s), s) && s.entries == Without(old(s).entries, p)
      ensures History(With(old(s), kept), With(s, kept + [e]))
      ensures Reloaded(Some(old(s).entries[p]), e, tunnel, again, old(s).sessions)
    {
      ghost var a := With(s, kept);
      again := RedefineIfChanged(kept, p, tunnel, pending);
      ghost var b := With(s, kept);
      e := s.entries[p];
      KeptIsGood(s, kept, p, if again then pending + {tunnel.id} else pending);
      KeptIsHistory(s, kept, p);
      s := s.(entries := Without(s.entries, p));
      HistoryComposes(a, b, With(s, kept + [e]));
    }

    /** Halts the tunnel and gives it the new definition, if that changed; whether it is to start
        again. */
    method RedefineIfChanged(ghost kept: seq<Entry>, p: nat, tunnel: Tunnel, ghost pending: set<string>)
        returns (again: bool)
      requires GoodBut(With(s, kept), pending) && p < |s.entries| && s.entries[p].tunnel.id == tunnel.id
      modifies this
      ensures GoodBut(With(s, kept), if again then pending + {tunnel.id} else pending)
      ensures OnlyEntries(old(s), s) && |s.entries| == |old(s).entries|
      ensures s.entries == old(s).entries[p := s.entries[p]] && History(With(old(s), kept), With(s, kept))
      ensures Reloaded(Some(old(s).entries[p]), s.entries[p], tunnel, again, old(s).sessions)
    {
      again := false;
      SameHistory(With(s, kept));
      if s.entries[p].tunnel != tunnel {
        ChangedHistory(s, kept, p, tunnel);
        ChangedIsGood(s, kept, p, pending, tunnel);
        again := s.entries[p].on;
        s := Redefined(s, p, tunnel);
      }
    }

    /** Stops the entries that the file doesn't have, and keeps the others. */
    method DropRest(kept: seq<Entry>, ghost pending: set<string>)
      requires GoodBut(With(s, kept), pending)
      modifies this
      ensures GoodBut(s, pending) && s.entries == kept && OnlyEntries(old(s), s)
      ensures History(With(old(s), kept), s)
    {
      ghost var a := With(s, kept);
      SameHistory(a);
      while s.entries != []
        invariant GoodBut(With(s, kept), pending) && OnlyEntries(old(s), s) && History(a, With(s, kept))
        decreases |s.entries|
      {
        RestDropped(s, kept, pending);
        HistoryComposes(a, With(s, kept), With(RemovedAt(s, 0), kept));
        s := RemovedAt(s, 0);
      }
      assert kept + [] == kept;
      s := s.(entries := kept);
    }

    /** Starts again the tunnels whose definition changed. */
    method Restart(file: seq<Tunnel>, restart: seq<string>, ghost a: State)
      requires GoodBut(s, Ids(restart)) && Collected(a, s.entries, file, Ids(restart)) && Distinct(restart)
      requires OnlyStarts(a, s)
      modifies this
      ensures Good(s) && History(old(s), s) && Collected(a, s.entries, file, {}) && OnlyStarts(a, s)
    {
      SameHistory(s);
      for n := 0 to |restart|
        invariant GoodBut(s, Ids(restart[n..])) && Collected(a, s.entries, file, Ids(restart[n..]))
        invariant History(old(s), s) && OnlyStarts(a, s)
      {
        ghost var before := s;
        IdsLess(restart, n);
        RestartOne(file, restart[n], Ids(restart[n..]), a);
        HistoryComposes(old(s), before, s);
      }
    }

    method RestartOne(file: seq<Tunnel>, id: string, ghost pending: set<string>, ghost a: State)
      requires GoodBut(s, pending) && Collected(a, s.entries, file, pending) && id in pending && OnlyStarts(a, s)
      modifies this
      ensures GoodBut(s, pending - {id}) && History(old(s), s) && Collected(a, s.entries, file, pending - {id})
      ensures OnlyStarts(a, s)
    {
      ghost var before := s;
      var i := IndexOf(id);
      IsCollected(a, s.entries, file, pending, id);
      assert EntryGood(s, pending, s.entries[i]);
      var connects: bool := *;
      StartIsOnlyStarts(a, s, pending, i, connects);
      Start(i, connects, pending);
      StartedIsCollected(a, before, s, file, pending, i);
    }

    /** A session of a host is up in a pane, or gone; the tunnels tied to the host follow. */
    method SessionLive(host: string, pane: int, connection: Option<Conn>) returns (woken: bool)
      requires Good(s)
      modifies this
      ensures Good(s) && History(old(s), s)
      ensures s == FollowedBy(old(s), host, PanesAfter(PanesOf(old(s).sessions, host), pane, connection))
      ensures woken <==> PublishedFor(s.sessions, host) != PublishedFor(old(s).sessions, host)
      ensures woken ==> forall k :: k in s.tasks && s.tasks[k].host == host ==> CanWake(s, k)
    {
      LiveIsGood(s, host, pane, connection);
      ghost var before := s;
      s := s.(sessions := Ensured(s.sessions, host));
      var panes := PanesNow(s.sessions[host].panes, pane, connection);
      var current := FirstOf(panes);
      woken := s.sessions[host].published != current;
      var version := s.sessions[host].version + if woken then 1 else 0;
      s := s.(sessions := s.sessions[host := Sessions(panes, current, version)]);
      Flag(host, current.Some?);
      assert s.sessions == before.sessions[host := Sessions(panes, current, version)];
      assert s == FollowedBy(before, host, panes);
      if woken {
        PublishingWakes(before, host, panes);
      }
    }

    method PanesNow(panes: seq<(int, Conn)>, pane: int, connection: Option<Conn>) returns (r: seq<(int, Conn)>)
      ensures r == PanesAfter(panes, pane, connection)
    {
      r := [];
      for i := 0 to |panes|
        invariant r == Others(panes[..i], pane)
      {
        assert panes[..i + 1][..i] == panes[..i];
        if panes[i].0 != pane {
          r := r + [panes[i]];
        }
      }
      assert panes[..|panes|] == panes;
      if connection.Some? {
        r := r + [(pane, connection.value)];
      }
    }

    /** Tells the tunnels tied to a host whether it has a session. */
    method Flag(host: string, up: bool)
      modifies this
      ensures s == old(s).(entries := FlaggedAll(old(s).entries, host, up))
    {
      var entries := s.entries;
      for i := 0 to |entries|
        invariant |entries| == |s.entries|
        invariant forall k :: 0 <= k < |entries| ==>
                    entries[k] == if k < i then Flagged(s.entries[k], host, up) else s.entries[k]
      {
        entries := entries[i := Flagged(entries[i], host, up)];
      }
      FlaggedEach(s.entries, entries, host, up);
      s := s.(entries := entries);
    }

    /** A pane closed: its session carries no tunnel any more. */
    method SessionClosed(pane: int)
      requires Good(s)
      modifies this
      ensures Good(s) && History(old(s), s) && s.sessions.Keys == old(s).sessions.Keys
      ensures forall h :: h in s.sessions ==> s.sessions[h].panes == Others(old(s).sessions[h].panes, pane)
      ensures OnlyFlags(old(s), s)
    {
      ghost var all := s.sessions;
      SameHistory(s);
      var hosts := set h | h in s.sessions && HasPane(s.sessions[h].panes, pane);
      while hosts != {}
        invariant Good(s) && History(old(s), s) && OnlyFlags(old(s), s) && ClosedBut(all, s.sessions, pane, hosts)
        decreases hosts
      {
        var h :| h in hosts;
        ghost var before := s;
        ClosedOneMore(all, s, pane, hosts, h);
        var woken := SessionLive(h, pane, None);
        FollowIsFlags(old(s), before, h, PanesAfter(PanesOf(before.sessions, h), pane, None));
        HistoryComposes(old(s), before, s);
        hosts := hosts - {h};
      }
      ClosedAll(all, s.sessions, pane);
    }

    /** A tied tunnel's task looks at the connection that is published. */
    method Wake(k: Ticket)
      requires Good(s) && k in s.tasks && CanWake(s, k)
      modifies this
      ensures Good(s) && History(old(s), s) && s == Woken(old(s), k) && !CanWake(s, k)
    {
      WakeIsGood(s, k);
      var task := Look(s.tasks[k], s.sessions[s.tasks[k].host]);
      s := s.(tasks := s.tasks[k := task]);
    }

    /** One turn of a task's loop. */
    method Look(before: Task, sessions: Sessions) returns (task: Task)
      ensures task == Looked(before, sessions, s.closed)
    {
      var up := sessions.published.Some? && sessions.published.value !in s.closed;
      task := before.(seen := Some(sessions.version), saw := sessions.published, wasOpen := up);
      if up && !task.running {
        task := task.(running := true, starts := task.starts + 1);
      } else if !up && task.running {
        task := task.(running := false);
      }
    }

    /** A task whose run isn't kept ends, and its forwarder with it. */
    method EndTask(k: Ticket)
      requires Good(s) && k in s.tasks && !Held(s, k)
      modifies this
      ensures Good(s) && History(old(s), s) && s == old(s).(tasks := old(s).tasks - {k})
    {
      EndIsGood(s, k);
      s := s.(tasks := s.tasks - {k});
    }

    /** A connection closed; that alone wakes no task. */
    method CloseConnection(c: Conn)
      requires Good(s)
      modifies this
      ensures Good(s) && History(old(s), s) && s == old(s).(closed := old(s).closed + {c})
    {
      CloseIsGood(s, c);
      s := s.(closed := s.closed + {c});
    }

    /** Halts the i-th tunnel and gives it a new definition. */
    method Redefine(i: nat, tunnel: Tunnel, ghost pending: set<string>)
      requires GoodBut(s, pending) && i < |s.entries| && tunnel.id == s.entries[i].tunnel.id
      modifies this
      ensures s == Redefined(old(s), i, tunnel)
      ensures GoodBut(s, pending + {tunnel.id}) && (!s.entries[i].on ==> GoodBut(s, pending))
      ensures (s.entries[i].on ==> s.runtime) && History(old(s), s)
    {
      RedefinedIsGood(s, pending, i, tunnel);
      ChangeIsHistory(s, i, Halted(s.entries[i]).(tunnel := tunnel), s.entries[i].requests);
      s := Redefined(s, i, tunnel);
      assert EntryOk(s, s.entries[i]);
    }
  }

  /** Nothing differs but the entries, what was answered, and how many entries there were. */
  ghost predicate OnlyEntries(a: State, b: State) {
    b == a.(entries := b.entries, answered := b.answered, lives := b.lives)
  }

  /** Nothing differs but the sessions, and what the entries know of them. */
  ghost predicate OnlyFlags(a: State, b: State) {
    && b == a.(entries := b.entries, sessions := b.sessions) && |b.entries| == |a.entries|
    && forall k :: 0 <= k < |a.entries| ==> b.entries[k] == a.entries[k].(session := b.entries[k].session)
  }

  /** The entries are those of the file, all of them new, in order. */
  predicate AllNew(s: State, file: seq<Tunnel>, from: nat, sessions: map<string, Sessions>) {
    && |s.entries| == |file| && from + |file| <= s.lives
    && forall k :: 0 <= k < |file| ==> Loaded(s.entries[k], NewEntry(file[k], from + k), sessions)
  }

  /** Of the first `i` tunnels those marked so are on, the others are off. */
  predicate OnUpTo(s: State, file: seq<Tunnel>, i: nat)
    requires |s.entries| == |file|
  {
    forall k :: 0 <= k < |file| ==> s.entries[k].on == (k < i && file[k].autostart && s.runtime)
  }

  lemma OnOneMore(a: State, b: State, file: seq<Tunnel>, i: nat, from: nat, sessions: map<string, Sessions>)
    requires AllNew(a, file, from, sessions) && i < |file| && OnUpTo(a, file, i) && b.runtime == a.runtime
    requires |b.entries| == |a.entries|
    requires if file[i].autostart then b.entries == a.entries[i := b.entries[i]] && b.entries[i].on == b.runtime else b == a
    ensures OnUpTo(b, file, i + 1)
  {
  }

  lemma OneMoreNew(s: State, file: seq<Tunnel>, n: nat, from: nat, sessions: map<string, Sessions>)
    requires n < |file| && AllNew(s, file[..n], from, sessions) && s.lives == from + n && AllOff(s)
    ensures var u := InsertedAt(s, n, file[n]);
            AllNew(u, file[..n + 1], from, sessions) && u.lives == from + n + 1 && AllOff(u)
  {
    var u := InsertedAt(s, n, file[n]);
    assert u.entries == s.entries + [NewEntry(file[n], s.lives)];
    forall k | 0 <= k < n + 1
      ensures Loaded(u.entries[k], NewEntry(file[..n + 1][k], from + k), sessions) && !u.entries[k].on
    {
      if k < n {
        assert file[..n + 1][k] == file[..n][k];
      }
    }
  }

  predicate AllOff(s: State) { forall k :: 0 <= k < |s.entries| ==> !s.entries[k].on }

  /** The entry as it was made, or started. */
  predicate Loaded(e: Entry, made: Entry, sessions: map<string, Sessions>) {
    e == made || e == StartedEntry(sessions, made, true) || e == StartedEntry(sessions, made, false)
  }

  lemma StartedStaysNew(a: State, b: State, file: seq<Tunnel>, from: nat, i: nat, sessions: map<string, Sessions>)
    requires AllNew(a, file, from, sessions) && i < |file| && StartTried(a, b, i) && !a.entries[i].on
    requires SameSessions(sessions, a.sessions)
    ensures AllNew(b, file, from, sessions) && b.runtime == a.runtime && b.entries == a.entries[i := b.entries[i]]
    ensures b.entries[i].on == a.runtime
  {
    assert Loaded(a.entries[i], NewEntry(file[i], from + i), sessions);
    var e := a.entries[i];
    assert e == NewEntry(file[i], from + i);
    assert PublishedFor(a.sessions, e.tunnel.host) == PublishedFor(sessions, e.tunnel.host);
  }

  lemma DropIsGood(s: State)
    requires Good(s) && forall k :: 0 <= k < |s.entries| ==> s.entries[k].requests == []
    ensures Good(s.(entries := []))
  {
    forall t: nat
      ensures Count(s.asked, t) == Count(s.answered, t) && Count(s.asked, t) <= 1
    {
      NothingQueued(s.entries, t);
      assert Count(s.asked, t) <= 1;
    }
  }

  // ---- Sessions coming and going ------------------------------------------------------------

  function Others(panes: seq<(int, Conn)>, pane: int): seq<(int, Conn)> {
    if panes == [] then []
    else
      var n := |panes| - 1;
      Others(panes[..n], pane) + (if panes[n].0 != pane then [panes[n]] else [])
  }

  predicate HasPane(panes: seq<(int, Conn)>, pane: int) {
    exists k :: 0 <= k < |panes| && panes[k].0 == pane
  }

  function PanesOf(sessions: map<string, Sessions>, host: string): seq<(int, Conn)> {
    if host in sessions then sessions[host].panes else []
  }

  function PanesAfter(panes: seq<(int, Conn)>, pane: int, connection: Option<Conn>): seq<(int, Conn)> {
    Others(panes, pane) + if connection.Some? then [(pane, connection.value)] else []
  }

  function FirstOf(panes: seq<(int, Conn)>): Option<Conn> {
    if panes == [] then None else Some(panes[0].1)
  }

  function Flagged(e: Entry, host: string, up: bool): Entry {
    if e.tunnel.tied && e.tunnel.host == host then e.(session := up) else e
  }

  function FlaggedAll(entries: seq<Entry>, host: string, up: bool): (r: seq<Entry>)
    ensures |r| == |entries|
  {
    if entries == [] then []
    else
      var n := |entries| - 1;
      FlaggedAll(entries[..n], host, up) + [Flagged(entries[n], host, up)]
  }

  /** Only another connection is a new version, which wakes the tasks. */
  function VersionAfter(sessions: map<string, Sessions>, host: string, current: Option<Conn>): nat {
    (if host in sessions then sessions[host].version else 0)
    + if PublishedFor(sessions, host) != current then 1 else 0
  }

  /** The host's panes, the connection published and the tunnels tied to it. */
  function FollowedBy(s: State, host: string, panes: seq<(int, Conn)>): State {
    s.(sessions := s.sessions[host := Sessions(panes, FirstOf(panes), VersionAfter(s.sessions, host, FirstOf(panes)))],
       entries := FlaggedAll(s.entries, host, FirstOf(panes).Some?))
  }

  lemma ApartMore(panes: seq<(int, Conn)>, p: (int, Conn))
    requires Apart(panes) && !HasPane(panes, p.0)
    ensures Apart(panes + [p])
  {
  }

  lemma {:induction false} OthersAreApart(panes: seq<(int, Conn)>, pane: int)
    requires Apart(panes)
    ensures Apart(Others(panes, pane)) && !HasPane(Others(panes, pane), pane)
    ensures forall id :: id != pane ==> (HasPane(Others(panes, pane), id) <==> HasPane(panes, id))
  {
    if panes != [] {
      var n := |panes| - 1;
      var o := Others(panes[..n], pane);
      OthersAreApart(panes[..n], pane);
      assert panes == panes[..n] + [panes[n]];
      PanesMore(panes[..n], panes[n]);
      assert !HasPane(panes[..n], panes[n].0);
      if panes[n].0 != pane {
        ApartMore(o, panes[n]);
        PanesMore(o, panes[n]);
      } else {
        assert o + [] == o;
      }
    }
  }

  lemma PanesMore(panes: seq<(int, Conn)>, p: (int, Conn))
    ensures forall id :: HasPane(panes + [p], id) <==> HasPane(panes, id) || id == p.0
  {
    forall id
      ensures HasPane(panes + [p], id) <==> HasPane(panes, id) || id == p.0
    {
      if HasPane(panes, id) {
        var k :| 0 <= k < |panes| && panes[k].0 == id;
        assert (panes + [p])[k].0 == id;
      }
      assert (panes + [p])[|panes|].0 == p.0;
    }
  }

  lemma {:induction false} NoneOfThem(panes: seq<(int, Conn)>, pane: int)
    requires !HasPane(panes, pane)
    ensures Others(panes, pane) == panes
  {
    if panes != [] {
      var n := |panes| - 1;
      assert panes[n].0 != pane;
      assert !HasPane(panes[..n], pane);
      NoneOfThem(panes[..n], pane);
      assert panes == panes[..n] + [panes[n]];
    }
  }

  lemma PanesAreOk(s: State, host: string, pane: int, connection: Option<Conn>)
    requires Good(s)
    ensures var panes := PanesAfter(PanesOf(s.sessions, host), pane, connection);
            Apart(panes)
  {
    var panes := PanesOf(s.sessions, host);
    assert host in s.sessions ==> SessionsOk(s.sessions[host]);
    OthersAreApart(panes, pane);
    var o := Others(panes, pane);
    if connection.Some? {
      ApartMore(o, (pane, connection.value));
    } else {
      assert o + [] == o;
    }
  }

  lemma {:induction false} FlaggedAt(entries: seq<Entry>, host: string, up: bool, k: nat)
    requires k < |entries|
    ensures FlaggedAll(entries, host, up)[k] == Flagged(entries[k], host, up)
  {
    var n := |entries| - 1;
    if k < n {
      FlaggedAt(entries[..n], host, up, k);
    }
  }

  lemma FlaggedEach(entries: seq<Entry>, r: seq<Entry>, host: string, up: bool)
    requires |r| == |entries| && forall k :: 0 <= k < |r| ==> r[k] == Flagged(entries[k], host, up)
    ensures r == FlaggedAll(entries, host, up)
  {
    forall k | 0 <= k < |r|
      ensures r[k] == FlaggedAll(entries, host, up)[k]
    {
      FlaggedAt(entries, host, up, k);
    }
  }

  lemma {:induction false} QueuedFlagged(entries: seq<Entry>, host: string, up: bool, t: nat)
    ensures Queued(FlaggedAll(entries, host, up), t) == Queued(entries, t)
  {
    if entries != [] {
      var n := |entries| - 1;
      QueuedFlagged(entries[..n], host, up, t);
      var r := FlaggedAll(entries, host, up);
      assert r[..n] == FlaggedAll(entries[..n], host, up);
    }
  }

  lemma FollowIsAccounted(s: State, host: string, panes: seq<(int, Conn)>)
    requires Accounted(s)
    ensures Accounted(FollowedBy(s, host, panes))
  {
    var u := FollowedBy(s, host, panes);
    forall t: nat
      ensures Count(u.asked, t) == Count(u.answered, t) + Queued(u.entries, t) && Count(u.asked, t) <= 1
    {
      assert Count(s.asked, t) <= 1;
      QueuedFlagged(s.entries, host, FirstOf(panes).Some?, t);
    }
  }

  lemma FollowIsGood(s: State, host: string, panes: seq<(int, Conn)>)
    requires Good(s) && Apart(panes)
    ensures Good(FollowedBy(s, host, panes))
  {
    var u, up := FollowedBy(s, host, panes), FirstOf(panes).Some?;
    FollowIsAccounted(s, host, panes);
    FollowKeepsTasks(s, host, panes);
    FlaggedStaysUnique(s.entries, host, up);
    forall k | 0 <= k < |u.entries|
      ensures EntryOk(u, u.entries[k]) && TicketsOk(u, u.entries[k]) && FlagOk(u, u.entries[k])
    {
      FlaggedAt(s.entries, host, up, k);
      assert EntryOk(s, s.entries[k]) && TicketsOk(s, s.entries[k]) && FlagOk(s, s.entries[k]);
      FollowedEntry(s, host, panes, s.entries[k]);
    }
  }

  lemma FollowKeepsTasks(s: State, host: string, panes: seq<(int, Conn)>)
    requires TasksOk(s.tasks, s.sessions, s.closed, s.tickets) && AllSessionsOk(s.sessions) && Apart(panes)
    ensures var u := FollowedBy(s, host, panes);
            TasksOk(u.tasks, u.sessions, u.closed, u.tickets) && AllSessionsOk(u.sessions)
  {
    var u := FollowedBy(s, host, panes);
    forall k | k in u.tasks
      ensures TaskOk(u.tasks[k], u.sessions, u.closed)
    {
      assert TaskOk(s.tasks[k], s.sessions, s.closed);
    }
  }

  /** Another connection is published: every task of the host is to wake. */
  lemma PublishingWakes(s: State, host: string, panes: seq<(int, Conn)>)
    requires TasksOk(s.tasks, s.sessions, s.closed, s.tickets) && PublishedFor(s.sessions, host) != FirstOf(panes)
    ensures var u := FollowedBy(s, host, panes);
            forall k :: k in u.tasks && u.tasks[k].host == host ==> CanWake(u, k)
  {
    forall k | k in s.tasks && s.tasks[k].host == host
      ensures CanWake(FollowedBy(s, host, panes), k)
    {
      assert TaskOk(s.tasks[k], s.sessions, s.closed);
    }
  }

  lemma FollowIsHistory(s: State, host: string, panes: seq<(int, Conn)>)
    ensures History(s, FollowedBy(s, host, panes))
  {
    var u := FollowedBy(s, host, panes);
    forall k | 0 <= k < |u.entries|
      ensures StaysIn(s.entries, u.entries[k])
    {
      FlaggedAt(s.entries, host, FirstOf(panes).Some?, k);
      assert s.entries[k] == u.entries[k].(session := s.entries[k].session);
    }
    Rearranged(s, u);
  }

  lemma FollowIsFlags(a: State, s: State, host: string, panes: seq<(int, Conn)>)
    requires OnlyFlags(a, s)
    ensures OnlyFlags(a, FollowedBy(s, host, panes))
  {
    forall k | 0 <= k < |s.entries|
      ensures FlaggedAll(s.entries, host, FirstOf(panes).Some?)[k] == Flagged(s.entries[k], host, FirstOf(panes).Some?)
    {
      FlaggedAt(s.entries, host, FirstOf(panes).Some?, k);
    }
  }

  lemma FlaggedStaysUnique(entries: seq<Entry>, host: string, up: bool)
    requires Unique(entries)
    ensures Unique(FlaggedAll(entries, host, up))
  {
    var r := FlaggedAll(entries, host, up);
    forall k | 0 <= k < |r|
      ensures r[k].tunnel == entries[k].tunnel && r[k].life == entries[k].life
    {
      FlaggedAt(entries, host, up, k);
    }
  }

  lemma LiveIsGood(s: State, host: string, pane: int, connection: Option<Conn>)
    requires Good(s)
    ensures Good(FollowedBy(s, host, PanesAfter(PanesOf(s.sessions, host), pane, connection)))
    ensures History(s, FollowedBy(s, host, PanesAfter(PanesOf(s.sessions, host), pane, connection)))
    ensures host in s.sessions ==> SessionsOk(s.sessions[host])
  {
    FollowIsHistory(s, host, PanesAfter(PanesOf(s.sessions, host), pane, connection));
    PanesAreOk(s, host, pane, connection);
    FollowIsGood(s, host, PanesAfter(PanesOf(s.sessions, host), pane, connection));
  }

  /** The pane is gone from every host, but for `hosts`, whose sessions are as they were. */
  predicate ClosedBut(all: map<string, Sessions>, now: map<string, Sessions>, pane: int, hosts: set<string>) {
    && now.Keys == all.Keys && hosts <= all.Keys
    && (forall h :: h in hosts ==> now[h] == all[h])
    && (forall h :: h in all && h !in hosts ==>
          (now[h].panes == Others(all[h].panes, pane) || (now[h] == all[h] && !HasPane(all[h].panes, pane))))
  }

  lemma ClosedOneMore(all: map<string, Sessions>, s: State, pane: int, hosts: set<string>, h: string)
    requires ClosedBut(all, s.sessions, pane, hosts) && h in hosts
    ensures ClosedBut(all, FollowedBy(s, h, PanesAfter(PanesOf(s.sessions, h), pane, None)).sessions, pane, hosts - {h})
  {
    assert Others(all[h].panes, pane) + [] == Others(all[h].panes, pane);
  }

  lemma ClosedAll(all: map<string, Sessions>, now: map<string, Sessions>, pane: int)
    requires ClosedBut(all, now, pane, {})
    ensures forall h :: h in now ==> now[h].panes == Others(all[h].panes, pane)
  {
    forall h | h in all && !HasPane(all[h].panes, pane)
      ensures Others(all[h].panes, pane) == all[h].panes
    {
      NoneOfThem(all[h].panes, pane);
    }
  }

  lemma FollowedEntry(s: State, host: string, panes: seq<(int, Conn)>, e: Entry)
    requires EntryOk(s, e) && TicketsOk(s, e) && FlagOk(s, e)
    ensures var u, f := FollowedBy(s, host, panes), Flagged(e, host, FirstOf(panes).Some?);
            EntryOk(u, f) && TicketsOk(u, f) && FlagOk(u, f)
  {
  }

  // ---- The tasks of tied tunnels ------------------------------------------------------------

  /** The task hasn't run yet, or another connection was published since it last looked. */
  predicate CanWake(s: State, k: Ticket)
    requires k in s.tasks
  {
    s.tasks[k].host in s.sessions && s.tasks[k].seen != Some(s.sessions[s.tasks[k].host].version)
  }

  /** The run that started the task is kept by its entry. */
  ghost predicate Held(s: State, k: Ticket) {
    exists i :: 0 <= i < |s.entries| && s.entries[i].active && s.entries[i].tunnel.tied && TaskOf(s.entries[i]) == k
  }

  /** What a task does when it wakes: it starts a forwarder if there is an open connection and it has
      none, and stops it if there is no such connection. */
  function Looked(task: Task, sessions: Sessions, closed: set<Conn>): Task {
    var up := sessions.published.Some? && sessions.published.value !in closed;
    task.(seen := Some(sessions.version), saw := sessions.published, wasOpen := up, running := up,
          starts := task.starts + if up && !task.running then 1 else 0)
  }

  function Woken(s: State, k: Ticket): State
    requires k in s.tasks && s.tasks[k].host in s.sessions
  {
    s.(tasks := s.tasks[k := Looked(s.tasks[k], s.sessions[s.tasks[k].host], s.closed)])
  }

  lemma TasksDontMatter(s: State, u: State)
    requires Good(s) && u == s.(tasks := u.tasks, closed := u.closed) && Ledger(s, u)
    requires TasksOk(u.tasks, u.sessions, u.closed, u.tickets)
    requires forall i :: 0 <= i < |s.entries| && s.entries[i].active && s.entries[i].tunnel.tied ==>
               TaskOf(s.entries[i]) in u.tasks && u.tasks[TaskOf(s.entries[i])].host == s.entries[i].tunnel.host
    ensures Good(u) && History(s, u)
  {
    SameEntries(s, u);
    forall i | 0 <= i < |u.entries|
      ensures EntryOk(u, u.entries[i]) && TicketsOk(u, u.entries[i]) && FlagOk(u, u.entries[i])
    {
      assert EntryOk(s, s.entries[i]) && TicketsOk(s, s.entries[i]) && FlagOk(s, s.entries[i]);
    }
    assert Accounted(u) by {
      forall t: nat
        ensures Count(u.asked, t) == Count(u.answered, t) + Queued(u.entries, t) && Count(u.asked, t) <= 1
      {
        assert Count(s.asked, t) <= 1;
      }
    }
  }

  lemma WakeIsGood(s: State, k: Ticket)
    requires Good(s) && k in s.tasks
    ensures s.tasks[k].host in s.sessions && Good(Woken(s, k)) && History(s, Woken(s, k)) && !CanWake(Woken(s, k), k)
  {
    assert TaskOk(s.tasks[k], s.sessions, s.closed);
    var u := Woken(s, k);
    forall j | j in u.tasks
      ensures j in u.tickets && TaskOk(u.tasks[j], u.sessions, u.closed)
    {
      assert j in s.tasks && TaskOk(s.tasks[j], s.sessions, s.closed);
    }
    forall i | 0 <= i < |s.entries| && s.entries[i].active && s.entries[i].tunnel.tied
      ensures TaskOf(s.entries[i]) in u.tasks && u.tasks[TaskOf(s.entries[i])].host == s.entries[i].tunnel.host
    {
      assert EntryOk(s, s.entries[i]);
    }
    TasksDontMatter(s, u);
  }

  lemma EndIsGood(s: State, k: Ticket)
    requires Good(s) && k in s.tasks && !Held(s, k)
    ensures Good(s.(tasks := s.tasks - {k})) && History(s, s.(tasks := s.tasks - {k}))
  {
    var u := s.(tasks := s.tasks - {k});
    forall i | 0 <= i < |s.entries| && s.entries[i].active && s.entries[i].tunnel.tied
      ensures TaskOf(s.entries[i]) in u.tasks && u.tasks[TaskOf(s.entries[i])].host == s.entries[i].tunnel.host
    {
      assert EntryOk(s, s.entries[i]) && TaskOf(s.entries[i]) != k;
    }
    TasksDontMatter(s, u);
  }

  lemma CloseIsGood(s: State, c: Conn)
    requires Good(s)
    ensures Good(s.(closed := s.closed + {c})) && History(s, s.(closed := s.closed + {c}))
  {
    var u := s.(closed := s.closed + {c});
    forall k | k in u.tasks
      ensures TaskOk(u.tasks[k], u.sessions, u.closed)
    {
      assert TaskOk(s.tasks[k], s.sessions, s.closed);
    }
    forall i | 0 <= i < |s.entries| && s.entries[i].active && s.entries[i].tunnel.tied
      ensures TaskOf(s.entries[i]) in u.tasks && u.tasks[TaskOf(s.entries[i])].host == s.entries[i].tunnel.host
    {
      assert EntryOk(s, s.entries[i]);
    }
    TasksDontMatter(s, u);
  }

  /** A task with no wake on its way has a forwarder exactly if a connection is published and was
      open when the task looked: certainly if it is open, and never if there is none. */
  lemma TaskFollows(s: State, k: Ticket)
    requires Good(s) && k in s.tasks && !CanWake(s, k)
    ensures var task, published := s.tasks[k], PublishedFor(s.sessions, s.tasks[k].host);
            && task.saw == published && (task.running <==> published.Some? && task.wasOpen)
            && (published.Some? && published.value !in s.closed ==> task.running)
            && (published.None? ==> !task.running)
  {
    assert TaskOk(s.tasks[k], s.sessions, s.closed);
  }

  /** A tied tunnel whose run is kept has its task, on its host; every other task of a tunnel is about
      to end: when it is off, all of them are. */
  lemma OnlyItsTask(s: State, i: nat, k: Ticket)
    requires Good(s) && i < |s.entries| && k in s.tasks && k.life == s.entries[i].life
    ensures Held(s, k) <==> s.entries[i].active && s.entries[i].tunnel.tied && k == TaskOf(s.entries[i])
    ensures !s.entries[i].on ==> !Held(s, k)
  {
    assert EntryOk(s, s.entries[i]);
    if Held(s, k) {
      var j :| 0 <= j < |s.entries| && s.entries[j].active && s.entries[j].tunnel.tied && TaskOf(s.entries[j]) == k;
      assert j == i;
    }
  }

  /** No task is about to wake or to end. */
  ghost predicate TasksQuiet(s: State) {
    forall k :: k in s.tasks ==> !CanWake(s, k) && Held(s, k)
  }

  /** Once every task did what it was about to, a tied tunnel has a forwarder, and just one, exactly
      if its run is kept and the connection of its host's first pane was open when its task looked;
      one that is off has none. */
  lemma QuietMeansFollowing(s: State, i: nat)
    requires Good(s) && TasksQuiet(s) && i < |s.entries|
    ensures var e := s.entries[i];
            && (forall k :: k in s.tasks && k.life == e.life ==> e.on && e.tunnel.tied && k == TaskOf(e))
            && (e.active && e.tunnel.tied ==>
                  && TaskOf(e) in s.tasks && s.tasks[TaskOf(e)].saw == PublishedFor(s.sessions, e.tunnel.host)
                  && (s.tasks[TaskOf(e)].running <==>
                      PublishedFor(s.sessions, e.tunnel.host).Some? && s.tasks[TaskOf(e)].wasOpen))
  {
    var e := s.entries[i];
    assert EntryOk(s, e);
    forall k | k in s.tasks && k.life == e.life
      ensures e.on && e.tunnel.tied && k == TaskOf(e)
    {
      OnlyItsTask(s, i, k);
    }
    if e.active && e.tunnel.tied {
      TaskFollows(s, TaskOf(e));
    }
  }

  // ---- Reloading ----------------------------------------------------------------------------

  /** The entries kept so far, then those not looked at. */
  function With(s: State, kept: seq<Entry>): State { s.(entries := kept + s.entries) }

  function Ids(ids: seq<string>): set<string> { set x | x in ids }

  predicate Distinct(ids: seq<string>) { forall i, j :: 0 <= i < j < |ids| ==> ids[i] != ids[j] }

  function FileIds(file: seq<Tunnel>): set<string> { set k | 0 <= k < |file| :: file[k].id }

  /** The entry that had this id. */
  ghost function Before(s: State, id: string): Option<Entry> {
    if k :| 0 <= k < |s.entries| && s.entries[k].tunnel.id == id then Some(s.entries[k]) else None
  }

  /** What becomes of an entry: the same if its definition is; else halted, with the new one, and
      started again if it is on (unless that is still pending); and a new one is off. */
  predicate Reloaded(was: Option<Entry>, e: Entry, tunnel: Tunnel, pending: bool, sessions: map<string, Sessions>) {
    match was
    case None => !pending && e == NewEntry(tunnel, e.life)
    case Some(o) =>
      if o.tunnel == tunnel then !pending && e == o
      else
        var halted := Halted(o).(tunnel := tunnel);
        if pending || !o.on then e == halted && (pending ==> o.on)
        else e == StartedEntry(sessions, halted, true) || e == StartedEntry(sessions, halted, false)
  }

  ghost predicate Collected(a: State, kept: seq<Entry>, file: seq<Tunnel>, pending: set<string>) {
    && |kept| == |file| && pending <= FileIds(file)
    && forall k :: 0 <= k < |file| ==>
         && kept[k].tunnel == file[k]
         && Reloaded(Before(a, file[k].id), kept[k], file[k], file[k].id in pending, a.sessions)
  }

  ghost predicate LeftOver(a: State, rest: seq<Entry>, done: seq<Tunnel>) {
    && (forall k :: 0 <= k < |rest| ==> rest[k] in a.entries)
    && (forall j :: 0 <= j < |a.entries| ==> a.entries[j] in rest || a.entries[j].tunnel.id in FileIds(done))
  }

  lemma BeforeIs(s: State, e: Entry)
    requires Unique(s.entries) && e in s.entries
    ensures Before(s, e.tunnel.id) == Some(e)
  {
    var k :| 0 <= k < |s.entries| && s.entries[k] == e;
  }

  lemma NothingKept(s: State)
    requires Good(s)
    ensures GoodBut(With(s, []), Ids([])) && Collected(s, [], [], Ids([])) && LeftOver(s, s.entries, [])
    ensures History(s, With(s, []))
  {
    assert [] + s.entries == s.entries;
    assert With(s, []) == s && Ids([]) == {};
    SameHistory(s);
  }

  lemma IdsMore(ids: seq<string>, id: string)
    ensures Ids(ids + [id]) == Ids(ids) + {id}
  {
  }

  lemma IdsLess(ids: seq<string>, n: nat)
    requires n < |ids| && Distinct(ids)
    ensures Ids(ids[n + 1..]) == Ids(ids[n..]) - {ids[n]} && ids[n] in Ids(ids[n..])
  {
    assert ids[n..] == [ids[n]] + ids[n + 1..];
  }

  lemma FileIdsMore(done: seq<Tunnel>, tunnel: Tunnel)
    ensures FileIds(done + [tunnel]) == FileIds(done) + {tunnel.id}
  {
    var more := done + [tunnel];
    assert forall k :: 0 <= k < |done| ==> more[k] == done[k];
    assert more[|done|] == tunnel;
  }

  lemma CollectedMore(a: State, kept: seq<Entry>, done: seq<Tunnel>, pending: set<string>, e: Entry, tunnel: Tunnel,
                      again: bool)
    requires Collected(a, kept, done, pending) && tunnel.id !in FileIds(done)
    requires Reloaded(Before(a, tunnel.id), e, tunnel, again, a.sessions) && e.tunnel == tunnel
    ensures Collected(a, kept + [e], done + [tunnel], if again then pending + {tunnel.id} else pending)
  {
    FileIdsMore(done, tunnel);
    assert forall k :: 0 <= k < |done| ==> done[k].id in FileIds(done);
  }

  lemma LeftOverTaken(a: State, rest: seq<Entry>, done: seq<Tunnel>, p: nat, tunnel: Tunnel)
    requires LeftOver(a, rest, done) && p < |rest| && rest[p].tunnel.id == tunnel.id && Unique(a.entries)
    ensures LeftOver(a, Without(rest, p), done + [tunnel]) && Before(a, tunnel.id) == Some(rest[p])
  {
    FileIdsMore(done, tunnel);
    BeforeIs(a, rest[p]);
    forall j | 0 <= j < |a.entries| && a.entries[j] in rest && a.entries[j] != rest[p]
      ensures a.entries[j] in Without(rest, p)
    {
      var k :| 0 <= k < |rest| && rest[k] == a.entries[j];
      assert Without(rest, p)[if k < p then k else k - 1] == a.entries[j];
    }
  }

  lemma NewIsCollected(a: State, s: State, kept: seq<Entry>, done: seq<Tunnel>, pending: set<string>, tunnel: Tunnel)
    requires GoodBut(With(s, kept), pending) && Collected(a, kept, done, pending) && LeftOver(a, s.entries, done)
    requires tunnel.id !in FileIds(done)
    requires forall k :: 0 <= k < |s.entries| ==> s.entries[k].tunnel.id != tunnel.id
    ensures GoodBut(With(s.(lives := s.lives + 1), kept + [NewEntry(tunnel, s.lives)]), pending)
    ensures Collected(a, kept + [NewEntry(tunnel, s.lives)], done + [tunnel], pending)
    ensures LeftOver(a, s.entries, done + [tunnel])
    ensures History(With(s, kept), With(s.(lives := s.lives + 1), kept + [NewEntry(tunnel, s.lives)]))
  {
    FileIdsMore(done, tunnel);
    CollectedMore(a, kept, done, pending, NewEntry(tunnel, s.lives), tunnel, false);
    forall k | 0 <= k < |done|
      ensures kept[k].tunnel.id != tunnel.id
    {
      assert done[k].id in FileIds(done);
    }
    NewIsGood(s, kept, pending, tunnel);
  }

  lemma NewIsGood(s: State, kept: seq<Entry>, pending: set<string>, tunnel: Tunnel)
    requires GoodBut(With(s, kept), pending)
    requires forall k :: 0 <= k < |s.entries| ==> s.entries[k].tunnel.id != tunnel.id
    requires forall k :: 0 <= k < |kept| ==> kept[k].tunnel.id != tunnel.id
    ensures GoodBut(With(s.(lives := s.lives + 1), kept + [NewEntry(tunnel, s.lives)]), pending)
    ensures History(With(s, kept), With(s.(lives := s.lives + 1), kept + [NewEntry(tunnel, s.lives)]))
  {
    InsertIsHistory(With(s, kept), |kept|, tunnel);
    InsertIsGood(With(s, kept), pending, |kept|, tunnel);
    assert InsertedAt(With(s, kept), |kept|, tunnel).entries == kept + [NewEntry(tunnel, s.lives)] + s.entries;
    assert InsertedAt(With(s, kept), |kept|, tunnel) == With(s.(lives := s.lives + 1), kept + [NewEntry(tunnel, s.lives)]);
  }

  lemma RedefinedIsGood(s: State, pending: set<string>, i: nat, tunnel: Tunnel)
    requires GoodBut(s, pending) && i < |s.entries| && tunnel.id == s.entries[i].tunnel.id
    ensures GoodBut(Redefined(s, i, tunnel), pending + {tunnel.id})
    ensures !s.entries[i].on ==> GoodBut(Redefined(s, i, tunnel), pending)
  {
    HaltIsGood(s, pending, i);
    var h := HaltedAt(s, i);
    RedefineIsGood(h, pending, i, tunnel);
    assert h.answered + [] == h.answered;
    assert Redefined(s, i, tunnel) == Changed(h, i, h.entries[i].(tunnel := tunnel), []);
  }

  lemma ChangedIsGood(s: State, kept: seq<Entry>, p: nat, pending: set<string>, tunnel: Tunnel)
    requires GoodBut(With(s, kept), pending) && p < |s.entries| && s.entries[p].tunnel.id == tunnel.id
    ensures var u := With(Redefined(s, p, tunnel), kept);
            GoodBut(u, pending + {tunnel.id}) && (!s.entries[p].on ==> GoodBut(u, pending))
  {
    var i := |kept| + p;
    RedefinedIsGood(With(s, kept), pending, i, tunnel);
    assert Redefined(With(s, kept), i, tunnel).entries == kept + Redefined(s, p, tunnel).entries;
  }

  lemma ChangedHistory(s: State, kept: seq<Entry>, p: nat, tunnel: Tunnel)
    requires Unique(With(s, kept).entries) && p < |s.entries| && s.entries[p].tunnel.id == tunnel.id
    ensures History(With(s, kept), With(Redefined(s, p, tunnel), kept))
  {
    var i, w := |kept| + p, With(s, kept);
    ChangeIsHistory(w, i, Halted(w.entries[i]).(tunnel := tunnel), w.entries[i].requests);
    assert Redefined(w, i, tunnel).entries == kept + Redefined(s, p, tunnel).entries;
  }

  lemma KeptIsHistory(s: State, kept: seq<Entry>, p: nat)
    requires p < |s.entries|
    ensures History(With(s, kept), With(s.(entries := Without(s.entries, p)), kept + [s.entries[p]]))
  {
    var w, u := With(s, kept), With(s.(entries := Without(s.entries, p)), kept + [s.entries[p]]);
    forall k | 0 <= k < |u.entries|
      ensures StaysIn(w.entries, u.entries[k])
    {
      var j := if k < |kept| then k else if k == |kept| then |kept| + p else if k <= |kept| + p then k - 1 else k;
      assert u.entries[k] == w.entries[j];
    }
    Rearranged(w, u);
  }

  lemma KeptIsGood(s: State, kept: seq<Entry>, p: nat, pending: set<string>)
    requires GoodBut(With(s, kept), pending) && p < |s.entries|
    ensures GoodBut(With(s.(entries := Without(s.entries, p)), kept + [s.entries[p]]), pending)
  {
    KeptIsMoved(s, kept, p);
    MoveIsGood(With(s, kept), pending, |kept| + p, |kept|);
  }

  lemma KeptIsMoved(s: State, kept: seq<Entry>, p: nat)
    requires p < |s.entries|
    ensures var w := With(s, kept);
            With(s.(entries := Without(s.entries, p)), kept + [s.entries[p]]) ==
            w.(entries := Moved(w.entries, |kept| + p, |kept|))
  {
    assert Moved(kept + s.entries, |kept| + p, |kept|) == kept + [s.entries[p]] + Without(s.entries, p);
  }

  lemma RestDropped(s: State, kept: seq<Entry>, pending: set<string>)
    requires GoodBut(With(s, kept), pending) && s.entries != []
    ensures GoodBut(With(RemovedAt(s, 0), kept), pending) && History(With(s, kept), With(RemovedAt(s, 0), kept))
  {
    RemoveIsHistory(With(s, kept), |kept|);
    RemoveIsGood(With(s, kept), pending, |kept|);
    assert RemovedAt(With(s, kept), |kept|).entries == kept + RemovedAt(s, 0).entries;
  }

  lemma IsCollected(a: State, kept: seq<Entry>, file: seq<Tunnel>, pending: set<string>, id: string)
    requires Collected(a, kept, file, pending) && id in pending
    ensures exists k :: 0 <= k < |kept| && kept[k].tunnel.id == id
    ensures forall k :: 0 <= k < |kept| && kept[k].tunnel.id == id ==> kept[k].on && !kept[k].active
  {
    assert id in FileIds(file);
  }

  lemma StartedIsCollected(a: State, s: State, u: State, file: seq<Tunnel>, pending: set<string>, i: nat)
    requires Collected(a, s.entries, file, pending) && i < |s.entries| && s.entries[i].tunnel.id in pending
    requires s.runtime && StartTried(s, u, i) && Unique(s.entries) && SameSessions(a.sessions, s.sessions)
    ensures Collected(a, u.entries, file, pending - {s.entries[i].tunnel.id})
  {
    var e := s.entries[i];
    assert PublishedFor(s.sessions, e.tunnel.host) == PublishedFor(a.sessions, e.tunnel.host);
    forall k | 0 <= k < |file|
      ensures u.entries[k].tunnel == file[k]
      ensures Reloaded(Before(a, file[k].id), u.entries[k], file[k], file[k].id in pending - {e.tunnel.id}, a.sessions)
    {
      assert Reloaded(Before(a, file[k].id), s.entries[k], file[k], file[k].id in pending, a.sessions);
      assert k != i ==> s.entries[k].tunnel.id != e.tunnel.id;
    }
  }

  /** A tunnel with a new id is added at the end; else the one with its id gets the definition. */
  ghost predicate UpsertDone(a: State, b: State, tunnel: Tunnel, connects: bool) {
    if forall k :: 0 <= k < |a.entries| ==> a.entries[k].tunnel.id != tunnel.id
    then b == InsertedAt(a, |a.entries|, tunnel)
    else exists k :: 0 <= k < |a.entries| && a.entries[k].tunnel.id == tunnel.id && b == Upserted(a, k, tunnel, connects)
  }

  lemma UpsertDoneAt(a: State, b: State, k: nat, tunnel: Tunnel, connects: bool)
    requires Unique(a.entries) && UpsertDone(a, b, tunnel, connects)
    requires k < |a.entries| && a.entries[k].tunnel.id == tunnel.id
    ensures b == Upserted(a, k, tunnel, connects)
  {
  }

  /** The k-th tunnel gets a new definition; if that changes and it is on, it is started again. */
  function Upserted(s: State, k: nat, tunnel: Tunnel, connects: bool): State
    requires k < |s.entries|
  {
    if s.entries[k].tunnel == tunnel then s
    else if !s.entries[k].on || !s.runtime then Redefined(s, k, tunnel)
    else StartedAt(Redefined(s, k, tunnel), k, connects)
  }

  /** The k-th tunnel is on or off as asked: nothing happened if it was, or if nothing can start. */
  ghost predicate Switched(a: State, b: State, k: nat, on: bool, connects: bool)
    requires k < |a.entries|
  {
    if a.entries[k].on == on then b == a
    else if on then b == if a.runtime then StartedAt(a, k, connects) else a
    else b == SwitchedOff(a, k)
  }

  ghost predicate StartTried(a: State, b: State, k: nat)
    requires k < |a.entries|
  {
    if a.runtime then b == StartedAt(a, k, true) || b == StartedAt(a, k, false) else b == a
  }

  function Redefined(s: State, i: nat, tunnel: Tunnel): State
    requires i < |s.entries|
  {
    Changed(s, i, Halted(s.entries[i]).(tunnel := tunnel), s.entries[i].requests)
  }

  /** The j-th question of the tunnel `id` is shown with this number. */
  predicate Asks(e: Entry, id: string, j: int, request: nat) {
    e.tunnel.id == id && 0 <= j < |e.requests| && e.requests[j].id == request
  }

  lemma NobodyAsks(s: State, id: string, i: nat, request: nat)
    requires Unique(s.entries) && i < |s.entries| && s.entries[i].tunnel.id == id
    requires forall j :: 0 <= j < |s.entries[i].requests| ==> s.entries[i].requests[j].id != request
    ensures forall k, j :: 0 <= k < |s.entries| ==> !Asks(s.entries[k], id, j, request)
  {
  }

  /** The j-th question of the i-th tunnel is answered. */
  function AnsweredAt(s: State, i: nat, j: nat): State
    requires i < |s.entries| && j < |s.entries[i].requests|
  {
    var e := s.entries[i];
    Changed(s, i, e.(requests := e.requests[..j] + e.requests[j + 1..]), [e.requests[j]])
  }

  lemma CountWithout(requests: seq<Request>, j: nat, t: nat)
    requires j < |requests|
    ensures Count(requests, t) == Count(requests[..j] + requests[j + 1..], t) + Count([requests[j]], t)
  {
    assert requests == requests[..j] + [requests[j]] + requests[j + 1..];
    CountBoth(requests[..j], [requests[j]], t);
    CountBoth(requests[..j] + [requests[j]], requests[j + 1..], t);
    CountBoth(requests[..j], requests[j + 1..], t);
  }

  lemma AnswerIsGood(s: State, i: nat, j: nat)
    requires Good(s) && i < |s.entries| && j < |s.entries[i].requests|
    ensures Good(AnsweredAt(s, i, j)) && History(s, AnsweredAt(s, i, j))
  {
    var e := s.entries[i];
    ChangeIsHistory(s, i, e.(requests := e.requests[..j] + e.requests[j + 1..]), [e.requests[j]]);
    forall t: nat
      ensures Count(e.requests, t) == Count(e.requests[..j] + e.requests[j + 1..], t) + Count([e.requests[j]], t)
    {
      CountWithout(e.requests, j, t);
    }
    ChangeIsGood(s, {}, i, e.(requests := e.requests[..j] + e.requests[j + 1..]), [e.requests[j]]);
  }

  lemma {:induction false} NothingQueued(entries: seq<Entry>, t: nat)
    requires forall k :: 0 <= k < |entries| ==> entries[k].requests == []
    ensures Queued(entries, t) == 0
  {
    if entries != [] {
      NothingQueued(entries[..|entries| - 1], t);
    }
  }

  lemma AllAnswered(s: State)
    requires Accounted(s) && forall k :: 0 <= k < |s.entries| ==> s.entries[k].requests == []
    ensures forall t :: Count(s.asked, t) == Count(s.answered, t)
  {
    forall t: nat
      ensures Count(s.asked, t) == Count(s.answered, t)
    {
      NothingQueued(s.entries, t);
      assert Count(s.asked, t) <= 1;
    }
  }

  // ---- What callbacks can do ----------------------------------------------------------------

  /** A callback of this very entry is taken only if no later run began, and only while it is on. */
  lemma OnlyTheLastRunIsHeard(s: State, t: Ticket, k: nat)
    requires Good(s) && t in s.tickets && k < |s.entries| && s.entries[k].life == t.life && Accepted(s, t, k)
    ensures s.entries[k].on
    ensures forall later :: later in s.tickets && later.life == t.life ==> later.run <= t.run
  {
    assert TicketsOk(s, s.entries[k]);
  }

  /** A callback reaches a tunnel that is off exactly if an entry that had its id before captured it,
      in a run with the same number. */
  lemma OffHears(s: State, t: Ticket, k: nat)
    requires Good(s) && k < |s.entries| && !s.entries[k].on && t in s.tickets
    ensures var e := s.entries[k];
            Accepted(s, t, k) <==> t.id == e.tunnel.id && t.run == e.run && t.life != e.life
  {
    assert TicketsOk(s, s.entries[k]);
  }

  /** A tunnel that is off and hears no other's callbacks shows nothing and hears nothing. */
  lemma OffShowsNothing(s: State, k: nat)
    requires Good(s) && k < |s.entries| && !s.entries[k].on
    ensures HearsAnother(s, s.entries[k]) <==> exists t :: t in s.tickets && Accepted(s, t, k)
    ensures !HearsAnother(s, s.entries[k]) ==>
              Idle(s.entries[k]) && ViewOf(s.entries[k]) == View(Stopped, 0, "", None)
  {
    assert EntryOk(s, s.entries[k]) && TicketsOk(s, s.entries[k]);
    forall t | t in s.tickets
      ensures var e := s.entries[k];
              Accepted(s, t, k) <==> t.id == e.tunnel.id && t.run == e.run && t.life != e.life
    {
      OffHears(s, t, k);
    }
  }

  /** The entry is past every run of the entries that had its id before. */
  ghost predicate Outlived(s: State, e: Entry) {
    forall t :: t in s.tickets && t.id == e.tunnel.id && t.life != e.life ==> t.run < e.run
  }

  /** Then it is so for good: in every later state it hears none of their callbacks, on or off, and
      shows nothing when it is off. `ReachOldRun` is the other half. */
  lemma OutlivedForGood(a: State, b: State, i: nat, j: nat)
    requires Good(a) && Good(b) && History(a, b) && i < |a.entries| && j < |b.entries|
    requires a.entries[i].life == b.entries[j].life && Outlived(a, a.entries[i])
    ensures Outlived(b, b.entries[j])
    ensures forall t :: t in b.tickets && Accepted(b, t, j) ==> t.life == b.entries[j].life && b.entries[j].on
    ensures !b.entries[j].on ==> ViewOf(b.entries[j]) == View(Stopped, 0, "", None)
  {
    assert EntryOk(a, a.entries[i]) && Descends(a, b, b.entries[j]);
    var k :| 0 <= k < |a.entries| && Since(a, b, a.entries[k], b.entries[j]);
    assert k == i;
    assert TicketsOk(b, b.entries[j]) && EntryOk(b, b.entries[j]);
  }

  /** Otherwise a tunnel that is off can be brought to hear such a callback while it is off, by new
      definitions alone. */
  method ReachOldRun(m: Manager, k: nat, t: Ticket)
    requires Good(m.s) && k < |m.s.entries| && !m.s.entries[k].on && t in m.s.tickets
    requires t.id == m.s.entries[k].tunnel.id && t.life != m.s.entries[k].life && t.run >= m.s.entries[k].run
    modifies m
    ensures Good(m.s) && History(old(m.s), m.s) && |m.s.entries| == |old(m.s).entries|
    ensures m.s.entries[k].life == old(m.s).entries[k].life && !m.s.entries[k].on
    ensures t in m.s.tickets && Accepted(m.s, t, k) && m.s.asked == old(m.s).asked
  {
    SameHistory(m.s);
    while m.s.entries[k].run < t.run
      invariant Good(m.s) && History(old(m.s), m.s) && |m.s.entries| == |old(m.s).entries| && t in m.s.tickets
      invariant m.s.entries[k].life == old(m.s).entries[k].life && !m.s.entries[k].on && m.s.asked == old(m.s).asked
      invariant m.s.entries[k].tunnel.id == t.id && m.s.entries[k].run <= t.run
      decreases t.run - m.s.entries[k].run
    {
      ghost var before := m.s;
      ChangeDefinition(m, k);
      HistoryComposes(old(m.s), before, m.s);
    }
  }

  /** Another definition for a tunnel that is off. */
  method ChangeDefinition(m: Manager, k: nat)
    requires Good(m.s) && k < |m.s.entries| && !m.s.entries[k].on
    modifies m
    ensures Good(m.s) && History(old(m.s), m.s) && |m.s.entries| == |old(m.s).entries|
    ensures m.s.tickets == old(m.s).tickets && m.s.asked == old(m.s).asked
    ensures var e, f := old(m.s).entries[k], m.s.entries[k];
            f.life == e.life && !f.on && f.run == e.run + 1 && f.tunnel.id == e.tunnel.id
  {
    ghost var before := m.s;
    var tunnel := m.s.entries[k].tunnel.(other := m.s.entries[k].tunnel.other + 1, problem := false);
    var ok := m.Upsert(tunnel, true);
    UpsertDoneAt(before, m.s, k, tunnel, true);
  }

  /** So a tunnel that is off asks the user, with a question of a tunnel that was removed. */
  method LateQuestion(m: Manager, k: nat, t: Ticket, q: Request)
    requires Good(m.s) && k < |m.s.entries| && !m.s.entries[k].on && t in m.s.tickets && t.asks
    requires t.id == m.s.entries[k].tunnel.id && t.life != m.s.entries[k].life && t.run >= m.s.entries[k].run
    requires Count(m.s.asked, q.token) == 0
    modifies m
    ensures Good(m.s) && |m.s.entries| == |old(m.s).entries|
    ensures m.s.entries[k].life == old(m.s).entries[k].life && !m.s.entries[k].on
    ensures ViewOf(m.s.entries[k]).prompt.Some?
  {
    ReachOldRun(m, k, t);
    m.OnQuestion(t, q);
  }

  /** For example: a tunnel is switched on, removed, and made again. */
  method MadeAgain(tunnel: Tunnel) returns (m: Manager)
    requires !tunnel.problem && !tunnel.tied
    ensures Good(m.s) && |m.s.entries| == 1 && !m.s.entries[0].on && ViewOf(m.s.entries[0]).prompt.Some?
  {
    m := new Manager(true);
    var ok := m.Upsert(tunnel, true);
    assert m.s.entries == [NewEntry(tunnel, 0)];
    ok := m.SetOn(tunnel.id, true, true);
    assert |m.s.entries| == 1 && m.s.entries[0].tunnel == tunnel;
    var t := Ticket(tunnel.id, 1, 0, true);
    assert t in m.s.tickets && m.s.asked == [];
    RemoveAndMakeAgain(m, tunnel);
    LateQuestion(m, 0, t, Request(0, 7));
  }

  method RemoveAndMakeAgain(m: Manager, tunnel: Tunnel)
    requires Good(m.s) && !tunnel.problem && |m.s.entries| == 1 && m.s.entries[0].tunnel == tunnel
    modifies m
    ensures Good(m.s) && m.s.entries == [NewEntry(tunnel, old(m.s).lives)]
    ensures m.s.tickets == old(m.s).tickets && m.s.asked == old(m.s).asked
  {
    var ok := m.Remove(tunnel.id);
    assert ok && m.s.entries == [];
    ok := m.Upsert(tunnel, true);
  }
}
