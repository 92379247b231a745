/** Remote control: commands sent to a worker through a table, and taken by it in batches. */
module Commands {
  import opened Signals

  datatype Row = Row(worker: string, command: Command)

  datatype Delivery = Delivery(id: int, command: Command)

  /** worker_commands, and the ids in the workers table that it references. */
  datatype Inbox = Inbox(rows: map<int, Row>, nextId: int, workers: set<string>)

  ghost predicate ValidInbox(b: Inbox)
  {
    1 <= b.nextId && forall id :: id in b.rows ==> 1 <= id < b.nextId && b.rows[id].worker in b.workers
  }

  predicate IsFor(b: Inbox, worker: string, id: int) { id in b.rows && b.rows[id].worker == worker }

  /** A worker's commands with an id below `bound`, oldest first. */
  function PendingBelow(b: Inbox, worker: string, bound: int): seq<Delivery>
    decreases bound
  {
    if bound <= 1 then []
    else
      var id := bound - 1;
      var older := PendingBelow(b, worker, id);
      if IsFor(b, worker, id) then older + [Delivery(id, b.rows[id].command)] else older
  }

  function PendingFor(b: Inbox, worker: string): seq<Delivery> { PendingBelow(b, worker, b.nextId) }

  /** INSERT; the foreign key rejects an unregistered worker, after the identity value has been used. */
  function Sent(b: Inbox, worker: string, command: Command): Inbox
  {
    if worker in b.workers then b.(rows := b.rows[b.nextId := Row(worker, command)], nextId := b.nextId + 1)
    else b.(nextId := b.nextId + 1)
  }

  function Taken(b: Inbox, worker: string): Inbox
  {
    b.(rows := map id | id in b.rows && b.rows[id].worker != worker :: b.rows[id])
  }

  function Registered(b: Inbox, worker: string): Inbox { b.(workers := b.workers + {worker}) }

  /** ON DELETE CASCADE removes the worker's unread commands with it. */
  function Removed(b: Inbox, worker: string): Inbox { Taken(b, worker).(workers := b.workers - {worker}) }

  // ----- order -------------------------------------------------------------------------------------

  predicate IsIncreasing(s: seq<Delivery>) { forall i, j :: 0 <= i < j < |s| ==> s[i].id < s[j].id }

  lemma {:induction false} PendingIsExact(b: Inbox, worker: string, bound: int)
    ensures IsIncreasing(PendingBelow(b, worker, bound))
    ensures forall d :: d in PendingBelow(b, worker, bound) <==>
      1 <= d.id < bound && IsFor(b, worker, d.id) && d.command == b.rows[d.id].command
    decreases bound
  {
    if bound > 1 {
      PendingIsExact(b, worker, bound - 1);
      var older := PendingBelow(b, worker, bound - 1);
      assert forall i :: 0 <= i < |older| ==> older[i] in older;
    }
  }

  lemma {:induction false} SamePending(a: Inbox, b: Inbox, worker: string, bound: int)
    requires forall id :: 1 <= id < bound ==>
      (IsFor(a, worker, id) <==> IsFor(b, worker, id)) && (IsFor(a, worker, id) ==> a.rows[id] == b.rows[id])
    ensures PendingBelow(a, worker, bound) == PendingBelow(b, worker, bound)
    decreases bound
  {
    if bound > 1 {
      SamePending(a, b, worker, bound - 1);
    }
  }

  /** Python's sorted(rows, key=id), as an insertion sort. */
  function Insert(d: Delivery, s: seq<Delivery>): seq<Delivery>
  {
    if s == [] || d.id < s[0].id then [d] + s else [s[0]] + Insert(d, s[1..])
  }

  function SortById(rows: seq<Delivery>): seq<Delivery>
  {
    if rows == [] then [] else Insert(rows[0], SortById(rows[1..]))
  }

  lemma {:induction false} InsertAddsOne(d: Delivery, s: seq<Delivery>, x: Delivery)
    ensures x in Insert(d, s) <==> x == d || x in s
  {
    if s != [] && s[0].id <= d.id {
      InsertAddsOne(d, s[1..], x);
      assert s == [s[0]] + s[1..];
    }
  }

  lemma {:induction false} InsertSorts(d: Delivery, s: seq<Delivery>)
    requires IsIncreasing(s) && forall x :: x in s ==> x.id != d.id
    ensures IsIncreasing(Insert(d, s))
  {
    if s != [] {
      assert s[0] in s;
      if s[0].id < d.id {
        var rest := Insert(d, s[1..]);
        InsertSorts(d, s[1..]);
        forall i | 0 <= i < |rest| ensures s[0].id < rest[i].id {
          InsertAddsOne(d, s[1..], rest[i]);
        }
      }
    }
  }

  lemma {:induction false} SortSorts(rows: seq<Delivery>)
    requires forall i, j :: 0 <= i < j < |rows| ==> rows[i].id != rows[j].id
    ensures IsIncreasing(SortById(rows)) && forall x :: x in SortById(rows) <==> x in rows
  {
    if rows != [] {
      var rest := SortById(rows[1..]);
      SortSorts(rows[1..]);
      InsertSorts(rows[0], rest);
      forall x ensures x in Insert(rows[0], rest) <==> x in rows { InsertAddsOne(rows[0], rest, x); }
    }
  }

  lemma {:induction false} IncreasingIsUnique(a: seq<Delivery>, b: seq<Delivery>)
    requires IsIncreasing(a) && IsIncreasing(b) && forall x :: x in a <==> x in b
    ensures a == b
  {
    assert b != [] ==> b[0] in b;
    if a != [] {
      assert a[0] in b && b[0] in a;
      assert a[0] == b[0];
      assert a == [a[0]] + a[1..] && b == [b[0]] + b[1..];
      forall x ensures x in a[1..] <==> x in b[1..] {
        assert x in a[1..] <==> x in a && x != a[0];
        assert x in b[1..] <==> x in b && x != b[0];
      }
      IncreasingIsUnique(a[1..], b[1..]);
    }
  }

  lemma TakenInPlace(b: Inbox, worker: string, rows: map<int, Row>)
    requires forall id :: id in rows <==> id in b.rows && !IsFor(b, worker, id)
    requires forall id :: id in rows ==> rows[id] == b.rows[id]
    ensures rows == Taken(b, worker).rows
  {
    var after := Taken(b, worker).rows;
    assert forall id :: id in after <==> id in rows;
    assert forall id :: id in rows ==> rows[id] == after[id];
    assert rows.Keys == after.Keys;
  }

  method Pick<T>(s: set<T>) returns (x: T)
    requires 0 < |s|
    ensures x in s
  {
    x :| x in s;
  }

  // ----- the tables, in place ------------------------------------------------------------------------

  class Control {
    var rows: map<int, Row>
    var nextId: int
    var workers: set<string>

    function View(): Inbox
      reads this
    {
      Inbox(rows, nextId, workers)
    }

    constructor ()
      ensures View() == Inbox(map[], 1, {}) && ValidInbox(View())
    {
      rows, nextId, workers := map[], 1, {};
    }

    method SendCommand(worker: string, command: Command) returns (sent: bool)
      requires ValidInbox(View())
      modifies this
      ensures View() == Sent(old(View()), worker, command) && ValidInbox(View())
      ensures sent <==> worker in old(workers)
      ensures rows == if sent then old(rows)[old(nextId) := Row(worker, command)] else old(rows)
      ensures nextId == old(nextId) + 1
    {
      sent := worker in workers;
      if sent {
        rows := rows[nextId := Row(worker, command)];
      }
      nextId := nextId + 1;
    }

    /** DELETE ... RETURNING: the deleted rows, in whatever order they were visited. */
    method DeleteReturning(worker: string) returns (deleted: seq<Delivery>)
      modifies this`rows
      ensures View() == Taken(old(View()), worker)
      ensures forall i, j :: 0 <= i < j < |deleted| ==> deleted[i].id != deleted[j].id
      ensures forall d :: d in deleted <==>
        IsFor(old(View()), worker, d.id) && d.command == old(rows)[d.id].command
    {
      ghost var before := View();
      deleted := [];
      var todo := set id | id in rows && rows[id].worker == worker;
      while 0 < |todo|
        invariant forall id :: id in todo ==> IsFor(before, worker, id)
        invariant forall id :: id in rows <==> id in before.rows && (before.rows[id].worker == worker ==> id in todo)
        invariant forall id :: id in rows ==> rows[id] == before.rows[id]
        invariant forall i :: 0 <= i < |deleted| ==> deleted[i].id !in todo
        invariant forall i, j :: 0 <= i < j < |deleted| ==> deleted[i].id != deleted[j].id
        invariant forall d :: d in deleted <==>
          IsFor(before, worker, d.id) && d.id !in todo && d.command == before.rows[d.id].command
        decreases |todo|
      {
        var id := Pick(todo);
        deleted := deleted + [Delivery(id, rows[id].command)];
        rows := rows - {id};
        todo := todo - {id};
      }
      assert todo == {};
      TakenInPlace(before, worker, rows);
    }

    /** The worker's commands, oldest first, and none of them is left. */
    method TakeCommands(worker: string) returns (batch: seq<Delivery>)
      requires ValidInbox(View())
      modifies this`rows
      ensures View() == Taken(old(View()), worker) && ValidInbox(View())
      ensures batch == PendingFor(old(View()), worker)
    {
      ghost var before := View();
      var deleted := DeleteReturning(worker);
      batch := SortById(deleted);
      SortSorts(deleted);
      PendingIsExact(before, worker, before.nextId);
      IncreasingIsUnique(batch, PendingFor(before, worker));
    }

    method RegisterWorker(worker: string)
      requires ValidInbox(View())
      modifies this`workers
      ensures View() == Registered(old(View()), worker) && ValidInbox(View())
      ensures workers == old(workers) + {worker} && rows == old(rows)
    {
      workers := workers + {worker};
    }

    method RemoveWorker(worker: string)
      requires ValidInbox(View())
      modifies this`rows, this`workers
      ensures View() == Removed(old(View()), worker) && ValidInbox(View())
      ensures workers == old(workers) - {worker}
      ensures forall id :: id in rows <==> id in old(rows) && old(rows)[id].worker != worker
      ensures forall id :: id in rows ==> rows[id] == old(rows)[id]
    {
      ghost var before := View();
      var _ := DeleteReturning(worker);
      workers := workers - {worker};
    }
  }

  // ----- delivery over whole runs --------------------------------------------------------------------

  /** What one worker has been sent, has taken, and has executed. `cascaded` says whether any of its unread
    commands was deleted by cascade. */
  datatype Mail = Mail(
    inbox: Inbox,
    sent: seq<Delivery>,
    taken: seq<Delivery>,
    executed: seq<Delivery>,
    cascaded: bool)

  datatype Event =
    | Register(worker: string)
    | Remove(worker: string)
    | Send(worker: string, command: Command)
    | Take(worker: string, executed: nat)  // how much of the batch runs before an error drops the rest

  function BatchOf(m: Mail, e: Event): seq<Delivery>
    requires e.Take?
  {
    PendingFor(m.inbox, e.worker)
  }

  predicate CanStep(m: Mail, e: Event) { e.Take? ==> e.executed <= |BatchOf(m, e)| }

  /** A step, with the mail of worker `me` recorded. */
  function Step(me: string, m: Mail, e: Event): Mail
    requires CanStep(m, e)
  {
    match e
    case Register(w) => m.(inbox := Registered(m.inbox, w))
    case Remove(w) => m.(inbox := Removed(m.inbox, w),
                         cascaded := m.cascaded || (w == me && PendingFor(m.inbox, w) != []))
    case Send(w, command) =>
      var accepted := if w == me && w in m.inbox.workers then [Delivery(m.inbox.nextId, command)] else [];
      m.(inbox := Sent(m.inbox, w, command), sent := m.sent + accepted)
    case Take(w, executed) =>
      if w != me then m.(inbox := Taken(m.inbox, w))
      else
        var batch := BatchOf(m, e);
        m.(inbox := Taken(m.inbox, w), taken := m.taken + batch, executed := m.executed + batch[..executed])
  }

  /** `a` keeps some of the elements of the increasing sequence `b`, in order. */
  ghost predicate IsSelection(a: seq<Delivery>, b: seq<Delivery>)
  {
    IsIncreasing(a) && IsIncreasing(b) && forall d :: d in a ==> d in b
  }

  ghost predicate ValidMail(me: string, m: Mail)
  {
    var pending := PendingFor(m.inbox, me);
    && ValidInbox(m.inbox)
    && IsSelection(m.taken + pending, m.sent)
    && IsSelection(m.executed, m.taken)
    && (forall d :: d in m.sent ==> d.id < m.inbox.nextId)
    && (!m.cascaded ==> m.taken + pending == m.sent)
  }

  lemma EmptyInbox(b: Inbox, worker: string, bound: int)
    requires forall id :: !IsFor(b, worker, id)
    ensures PendingBelow(b, worker, bound) == []
  {
  }

  lemma OthersLeaveMailAlone(me: string, m: Mail, e: Event)
    requires ValidMail(me, m) && CanStep(m, e) && e.worker != me
    ensures ValidMail(me, Step(me, m, e))
  {
    var n := Step(me, m, e);
    SamePending(m.inbox, n.inbox, me, m.inbox.nextId);
    assert PendingFor(n.inbox, me) == PendingFor(m.inbox, me);
  }

  lemma AppendNewest(a: seq<Delivery>, b: seq<Delivery>, d: Delivery)
    requires IsSelection(a, b) && forall x :: x in b ==> x.id < d.id
    ensures IsSelection(a + [d], b + [d])
  {
    forall i | 0 <= i < |a| ensures a[i].id < d.id { assert a[i] in b; }
    forall i | 0 <= i < |b| ensures b[i].id < d.id { assert b[i] in b; }
  }

  lemma SendKeepsMail(me: string, m: Mail, command: Command)
    requires ValidMail(me, m)
    ensures ValidMail(me, Step(me, m, Send(me, command)))
  {
    var n := Step(me, m, Send(me, command));
    var pending := PendingFor(m.inbox, me);
    SamePending(m.inbox, n.inbox, me, m.inbox.nextId);
    PendingIsExact(m.inbox, me, m.inbox.nextId);
    if me in m.inbox.workers {
      var d := Delivery(m.inbox.nextId, command);
      assert PendingFor(n.inbox, me) == pending + [d];
      assert (m.taken + pending) + [d] == m.taken + (pending + [d]);
      AppendNewest(m.taken + pending, m.sent, d);
    } else {
      assert PendingFor(n.inbox, me) == pending;
      assert n.sent == m.sent;
    }
  }

  lemma TakeKeepsMail(me: string, m: Mail, executed: nat)
    requires ValidMail(me, m) && CanStep(m, Take(me, executed))
    ensures ValidMail(me, Step(me, m, Take(me, executed)))
  {
    var n := Step(me, m, Take(me, executed));
    var batch := PendingFor(m.inbox, me);
    EmptyInbox(n.inbox, me, n.inbox.nextId);
    assert n.taken + PendingFor(n.inbox, me) == m.taken + batch;
    AppendBatch(m.executed, m.taken, batch, executed);
  }

  /** Executing the first `k` commands of the next batch keeps the executed ones a selection. */
  lemma AppendBatch(executed: seq<Delivery>, taken: seq<Delivery>, batch: seq<Delivery>, k: nat)
    requires IsSelection(executed, taken) && IsIncreasing(taken + batch) && k <= |batch|
    ensures IsSelection(executed + batch[..k], taken + batch)
  {
    var e, t := executed + batch[..k], taken + batch;
    forall i, j | 0 <= i < j < |e| ensures e[i].id < e[j].id {
      if i < |executed| <= j {
        assert e[i] in taken;
        var x :| 0 <= x < |taken| && taken[x] == e[i];
        assert t[x].id < t[|taken| + (j - |executed|)].id;
      } else if |executed| <= i {
        assert t[|taken| + (i - |executed|)].id < t[|taken| + (j - |executed|)].id;
      }
    }
  }

  lemma RemoveKeepsMail(me: string, m: Mail)
    requires ValidMail(me, m)
    ensures ValidMail(me, Step(me, m, Remove(me)))
  {
    var n := Step(me, m, Remove(me));
    EmptyInbox(n.inbox, me, n.inbox.nextId);
    assert n.taken + PendingFor(n.inbox, me) == m.taken;
    var all := m.taken + PendingFor(m.inbox, me);
    assert forall i :: 0 <= i < |m.taken| ==> m.taken[i] == all[i];
    assert forall d :: d in m.taken ==> d in all;
    assert m.taken + [] == m.taken;
  }

  lemma RegisterKeepsMail(me: string, m: Mail)
    requires ValidMail(me, m)
    ensures ValidMail(me, Step(me, m, Register(me)))
  {
    SamePending(m.inbox, Registered(m.inbox, me), me, m.inbox.nextId);
  }

  lemma StepKeepsMail(me: string, m: Mail, e: Event)
    requires ValidMail(me, m) && CanStep(m, e)
    ensures ValidMail(me, Step(me, m, e))
  {
    if e.worker != me {
      OthersLeaveMailAlone(me, m, e);
    } else {
      match e
      case Register(_) => RegisterKeepsMail(me, m);
      case Remove(_) => RemoveKeepsMail(me, m);
      case Send(_, command) => SendKeepsMail(me, m, command);
      case Take(_, executed) => TakeKeepsMail(me, m, executed);
    }
  }

  ghost predicate CanRun(me: string, m: Mail, events: seq<Event>)
    decreases |events|
  {
    events == [] || (CanStep(m, events[0]) && CanRun(me, Step(me, m, events[0]), events[1..]))
  }

  function After(me: string, m: Mail, events: seq<Event>): Mail
    requires CanRun(me, m, events)
    decreases |events|
  {
    if events == [] then m else After(me, Step(me, m, events[0]), events[1..])
  }

  const NO_MAIL := Mail(Inbox(map[], 1, {}), [], [], [], false)

  lemma {:induction false} RunKeepsMail(me: string, m: Mail, events: seq<Event>)
    requires ValidMail(me, m) && CanRun(me, m, events)
    ensures ValidMail(me, After(me, m, events))
    decreases |events|
  {
    if events != [] {
      StepKeepsMail(me, m, events[0]);
      RunKeepsMail(me, Step(me, m, events[0]), events[1..]);
    }
  }

  /** How many commands worker `me` executes in these events. */
  function TimesExecuted(me: string, events: seq<Event>): nat
  {
    if events == [] then 0
    else (if events[0].Take? && events[0].worker == me then events[0].executed else 0) + TimesExecuted(me, events[1..])
  }

  lemma {:induction false} ExecutedCount(me: string, m: Mail, events: seq<Event>)
    requires CanRun(me, m, events)
    ensures |After(me, m, events).executed| == |m.executed| + TimesExecuted(me, events)
    decreases |events|
  {
    if events != [] {
      ExecutedCount(me, Step(me, m, events[0]), events[1..]);
    }
  }

  /** Over any interleaving of sends, takes, registrations and removals, the concatenated batches of a
    worker have strictly increasing ids, so contain each command at most once, and only commands that were
    sent to it; with nothing deleted by cascade they are a prefix of what was sent. What it executed is
    such a selection of what it took, even when errors drop the rest of a batch, and as many as its turns executed. */
  lemma CommandDelivery(me: string, events: seq<Event>)
    requires CanRun(me, NO_MAIL, events)
    ensures var m := After(me, NO_MAIL, events);
      && IsIncreasing(m.taken) && (forall d :: d in m.taken ==> d in m.sent)
      && (!m.cascaded ==> m.taken <= m.sent)
      && IsSelection(m.executed, m.taken) && |m.executed| == TimesExecuted(me, events)
  {
    ExecutedCount(me, NO_MAIL, events);
    assert PendingFor(NO_MAIL.inbox, me) == [];
    RunKeepsMail(me, NO_MAIL, events);
    var m := After(me, NO_MAIL, events);
    var all := m.taken + PendingFor(m.inbox, me);
    assert forall i :: 0 <= i < |m.taken| ==> m.taken[i] == all[i];
    assert forall d :: d in m.taken ==> d in all;
  }

  // ----- which commands are accepted -----------------------------------------------------------------

  /** Whether a worker is registered after these events: its last registration or removal says so. */
  predicate IsRegistered(worker: string, before: bool, events: seq<Event>)
    decreases |events|
  {
    if events == [] then before
    else IsRegistered(worker, if events[0].worker != worker then before
                              else events[0].Register? || (before && !events[0].Remove?), events[1..])
  }

  /** The commands sent to a worker while it was registered, in order. */
  function Accepted(worker: string, registered: bool, events: seq<Event>): seq<Command>
    decreases |events|
  {
    if events == [] then []
    else if events[0].worker != worker then Accepted(worker, registered, events[1..])
    else
      match events[0]
      case Register(_) => Accepted(worker, true, events[1..])
      case Remove(_) => Accepted(worker, false, events[1..])
      case Send(_, command) =>
        (if registered then [command] else []) + Accepted(worker, registered, events[1..])
      case Take(_, _) => Accepted(worker, registered, events[1..])
  }

  function CommandsOf(s: seq<Delivery>): (commands: seq<Command>)
    ensures |commands| == |s|
  {
    if s == [] then [] else CommandsOf(s[..|s| - 1]) + [s[|s| - 1].command]
  }

  lemma {:induction false} RegisteredIff(me: string, m: Mail, events: seq<Event>, worker: string)
    requires CanRun(me, m, events)
    ensures worker in After(me, m, events).inbox.workers <==> IsRegistered(worker, worker in m.inbox.workers, events)
    decreases |events|
  {
    if events != [] {
      RegisteredIff(me, Step(me, m, events[0]), events[1..], worker);
    }
  }

  lemma SendsAccepted(me: string, m: Mail, e: Event)
    requires CanStep(m, e)
    ensures CommandsOf(Step(me, m, e).sent) == CommandsOf(m.sent) +
      if e.Send? && e.worker == me && me in m.inbox.workers then [e.command] else []
  {
    var n := Step(me, m, e);
    if e.Send? && e.worker == me && me in m.inbox.workers {
      assert n.sent[..|n.sent| - 1] == m.sent;
    } else {
      assert n.sent == m.sent;
    }
  }

  lemma {:induction false} SentIsAccepted(me: string, m: Mail, events: seq<Event>)
    requires CanRun(me, m, events)
    ensures CommandsOf(After(me, m, events).sent) ==
      CommandsOf(m.sent) + Accepted(me, me in m.inbox.workers, events)
    decreases |events|
  {
    if events != [] {
      SendsAccepted(me, m, events[0]);
      SentIsAccepted(me, Step(me, m, events[0]), events[1..]);
    }
  }

  /** Over any interleaving a command is accepted if and only if its worker is registered at that moment, that is,
    was registered after it was last removed; and what a worker has been sent is what was accepted, in that order. */
  lemma CommandAcceptance(me: string, events: seq<Event>, command: Command)
    requires CanRun(me, NO_MAIL, events)
    ensures CommandsOf(After(me, NO_MAIL, events).sent) == Accepted(me, false, events)
    ensures var m := After(me, NO_MAIL, events);
      Step(me, m, Send(me, command)).sent ==
        m.sent + if IsRegistered(me, false, events) then [Delivery(m.inbox.nextId, command)] else []
  {
    SentIsAccepted(me, NO_MAIL, events);
    RegisteredIff(me, NO_MAIL, events, me);
  }
}
