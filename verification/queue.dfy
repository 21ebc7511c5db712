/** The attendant's queue of the day (`Queue.tsx`): today's active queue rows joined with their
    appointments and ordered by position, the single customer who may be called next, and the
    two handlers that move an appointment to `in_progress` and to `completed`. Only the first
    is reachable: each queue item gets `onStart` alone, so the page never calls the second. */
module DailyQueue {
  import opened Wrappers
  import opened Seqs
  import opened Tables

  /** A row of the queue query: the queue entry and its appointment. */
  datatype QueueItem = QueueItem(entry: QueueEntry, appointment: Appointment)

  function ActiveOn(today: string): QueueEntry -> bool {
    (e: QueueEntry) => e.queueDate == today && e.isActive
  }

  function HasId(id: Id): Appointment -> bool {
    (a: Appointment) => a.id == id
  }

  /** The queue entries joined with the appointment each refers to; an entry whose appointment
      is not in the table has no row. */
  function Join(entries: seq<QueueEntry>, appointments: seq<Appointment>): (items: seq<QueueItem>)
    ensures |items| <= |entries|
    decreases |entries|
  {
    if entries == [] then []
    else
      var e := entries[|entries| - 1];
      Join(entries[..|entries| - 1], appointments)
        + match Find(appointments, HasId(e.appointmentId))
          case None => []
          case Some(a) => [QueueItem(e, a)]
  }

  function Position(item: QueueItem): int {
    item.entry.queuePosition
  }

  predicate ByPosition(items: seq<QueueItem>) {
    forall i, j :: 0 <= i < j < |items| ==> Position(items[i]) <= Position(items[j])
  }

  /** Placing an item into a queue ordered by position, after the items with its position. */
  function Insert(x: QueueItem, sorted: seq<QueueItem>): (r: seq<QueueItem>)
    ensures |r| == |sorted| + 1
    ensures multiset(r) == multiset(sorted) + multiset{x}
    decreases |sorted|
  {
    if sorted == [] then [x]
    else if Position(x) < Position(sorted[0]) then [x] + sorted
    else
      assert sorted == [sorted[0]] + sorted[1..];
      [sorted[0]] + Insert(x, sorted[1..])
  }

  lemma {:induction false} InsertKeepsOrder(x: QueueItem, sorted: seq<QueueItem>)
    requires ByPosition(sorted)
    ensures ByPosition(Insert(x, sorted))
    ensures |Insert(x, sorted)| > 0 && (Insert(x, sorted)[0] == x || Insert(x, sorted)[0] == sorted[0])
    decreases |sorted|
  {
    if sorted == [] {
    } else if Position(x) < Position(sorted[0]) {
      var r := [x] + sorted;
      forall i, j | 0 <= i < j < |r| ensures Position(r[i]) <= Position(r[j]) {
        assert r[j] == sorted[j - 1];
        if i > 0 { assert r[i] == sorted[i - 1]; }
      }
    } else {
      var tail := sorted[1..];
      assert ByPosition(tail) by {
        forall i, j | 0 <= i < j < |tail| ensures Position(tail[i]) <= Position(tail[j]) {
          assert tail[i] == sorted[i + 1] && tail[j] == sorted[j + 1];
        }
      }
      InsertKeepsOrder(x, tail);
      var rest := Insert(x, tail);
      assert Position(sorted[0]) <= Position(rest[0]) by {
        if rest[0] != x { assert rest[0] == tail[0] == sorted[1]; }
      }
      var r := [sorted[0]] + rest;
      forall i, j | 0 <= i < j < |r| ensures Position(r[i]) <= Position(r[j]) {
        assert r[j] == rest[j - 1];
        if i > 0 { assert r[i] == rest[i - 1]; } else { assert Position(rest[0]) <= Position(rest[j - 1]); }
      }
    }
  }

  /** `.order('queue_position')`, taken as a stable sort. */
  function SortByPosition(items: seq<QueueItem>): (r: seq<QueueItem>)
    ensures multiset(r) == multiset(items)
    decreases |items|
  {
    if items == [] then []
    else
      assert items == items[..|items| - 1] + [items[|items| - 1]];
      Insert(items[|items| - 1], SortByPosition(items[..|items| - 1]))
  }

  lemma {:induction false} SortIsOrdered(items: seq<QueueItem>)
    ensures ByPosition(SortByPosition(items))
    decreases |items|
  {
    if items != [] {
      SortIsOrdered(items[..|items| - 1]);
      InsertKeepsOrder(items[|items| - 1], SortByPosition(items[..|items| - 1]));
    }
  }

  /** The queue query: today's active entries with their appointments, by position. */
  function TodaysQueue(dailyQueue: seq<QueueEntry>, appointments: seq<Appointment>, today: string): seq<QueueItem> {
    SortByPosition(Join(Filter(dailyQueue, ActiveOn(today)), appointments))
  }

  /** The queue holds exactly today's active rows of the queue table whose appointment is in
      the appointment table, each with that appointment, ordered by position. */
  lemma {:induction false} TodaysQueueShape(dailyQueue: seq<QueueEntry>, appointments: seq<Appointment>, today: string)
    ensures ByPosition(TodaysQueue(dailyQueue, appointments, today))
    ensures multiset(TodaysQueue(dailyQueue, appointments, today))
            == multiset(Join(Filter(dailyQueue, ActiveOn(today)), appointments))
    ensures forall i :: 0 <= i < |TodaysQueue(dailyQueue, appointments, today)| ==>
              var item := TodaysQueue(dailyQueue, appointments, today)[i];
              && item.entry in dailyQueue && item.entry.queueDate == today && item.entry.isActive
              && Find(appointments, HasId(item.entry.appointmentId)) == Some(item.appointment)
    ensures forall e :: e in dailyQueue && e.queueDate == today && e.isActive
                        && Find(appointments, HasId(e.appointmentId)).Some? ==>
              QueueItem(e, Find(appointments, HasId(e.appointmentId)).value) in TodaysQueue(dailyQueue, appointments, today)
  {
    var active := Filter(dailyQueue, ActiveOn(today));
    var joined := Join(active, appointments);
    SortIsOrdered(joined);
    JoinedRows(active, appointments);
    var q := TodaysQueue(dailyQueue, appointments, today);
    forall i | 0 <= i < |q|
      ensures q[i] in joined && q[i].entry in dailyQueue && ActiveOn(today)(q[i].entry)
    {
      assert q[i] in multiset(q);
      FilterMembership(dailyQueue, ActiveOn(today), q[i].entry);
    }
    forall e | e in dailyQueue && e.queueDate == today && e.isActive && Find(appointments, HasId(e.appointmentId)).Some?
      ensures QueueItem(e, Find(appointments, HasId(e.appointmentId)).value) in q
    {
      FilterMembership(dailyQueue, ActiveOn(today), e);
      JoinComplete(active, appointments, e);
      assert QueueItem(e, Find(appointments, HasId(e.appointmentId)).value) in multiset(joined);
    }
  }

  /** Every joined item pairs an entry with the appointment it refers to. */
  lemma {:induction false} JoinedRows(entries: seq<QueueEntry>, appointments: seq<Appointment>)
    ensures forall item :: item in Join(entries, appointments) ==>
              item.entry in entries && Find(appointments, HasId(item.entry.appointmentId)) == Some(item.appointment)
    decreases |entries|
  {
    if entries != [] {
      JoinedRows(entries[..|entries| - 1], appointments);
      assert forall e :: e in entries[..|entries| - 1] ==> e in entries;
    }
  }

  /** No entry whose appointment is in the table is lost by the join. */
  lemma {:induction false} JoinComplete(entries: seq<QueueEntry>, appointments: seq<Appointment>, e: QueueEntry)
    requires e in entries && Find(appointments, HasId(e.appointmentId)).Some?
    ensures QueueItem(e, Find(appointments, HasId(e.appointmentId)).value) in Join(entries, appointments)
    decreases |entries|
  {
    var init, last := entries[..|entries| - 1], entries[|entries| - 1];
    assert entries == init + [last];
    if e != last {
      JoinComplete(init, appointments, e);
    }
  }

  function IsScheduled(item: QueueItem): bool {
    item.appointment.status == Scheduled
  }

  /** `nextInQueue`: the position in the list of the first item whose appointment is scheduled;
      the page compares items by identity, so the index stands for the item. */
  function NextInQueue(queue: seq<QueueItem>): (k: Option<nat>)
    ensures k.Some? ==> k.value < |queue| && queue[k.value].appointment.status == Scheduled
                        && forall j :: 0 <= j < k.value ==> queue[j].appointment.status != Scheduled
    ensures k.None? <==> forall j :: 0 <= j < |queue| ==> queue[j].appointment.status != Scheduled
  {
    FindIndex(queue, IsScheduled)
  }

  /** `canStart`: only the next item. */
  predicate CanStart(queue: seq<QueueItem>, i: nat) {
    NextInQueue(queue) == Some(i)
  }

  /** At most one item can be started, it is scheduled and no scheduled item is ahead of it;
      with nothing scheduled none can. */
  lemma {:induction false} OneStartable(queue: seq<QueueItem>, i: nat, j: nat)
    ensures CanStart(queue, i) && CanStart(queue, j) ==> i == j
    ensures CanStart(queue, i) ==> i < |queue| && IsScheduled(queue[i])
    ensures (forall k :: 0 <= k < |queue| ==> !IsScheduled(queue[k])) ==> !CanStart(queue, i)
  {
  }

  /** The appointments table after `update({ status }).eq('id', id)`: the rows with that id
      take the new status whatever their status was, and nothing else changes. */
  function WithStatus(appointments: seq<Appointment>, id: Id, status: AppointmentStatus): (r: seq<Appointment>)
    ensures |r| == |appointments|
    ensures forall i :: 0 <= i < |r| ==> r[i].(status := appointments[i].status) == appointments[i]
    ensures forall i :: 0 <= i < |r| && appointments[i].id == id ==> r[i].status == status
    ensures forall i :: 0 <= i < |r| && appointments[i].id != id ==> r[i] == appointments[i]
  {
    seq(|appointments|, i requires 0 <= i < |appointments| =>
      if appointments[i].id == id then appointments[i].(status := status) else appointments[i])
  }

  /** The update, row by row. */
  method UpdateStatus(db: Database, id: Id, status: AppointmentStatus)
    modifies db`appointments
    ensures db.appointments == WithStatus(old(db.appointments), id, status)
  {
    var i := 0;
    while i < |db.appointments|
      invariant 0 <= i <= |db.appointments| == |old(db.appointments)|
      invariant forall k :: 0 <= k < |db.appointments| ==>
                  db.appointments[k] == if k < i then WithStatus(old(db.appointments), id, status)[k] else old(db.appointments)[k]
    {
      if db.appointments[i].id == id {
        db.appointments := db.appointments[i := db.appointments[i].(status := status)];
      }
      i := i + 1;
    }
  }

  /** The error text of a failed button: the store's message, or the button's fallback. */
  function ErrorText(storeMessage: string, fallback: string): (t: string)
    ensures storeMessage != "" ==> t == storeMessage
    ensures storeMessage == "" ==> t == fallback
  {
    if storeMessage == "" then fallback else storeMessage
  }

  /** `handleStartAppointment`: the appointment goes to `in_progress`, with no check of its
      current status; a store error leaves the table and reports its message. */
  method StartAppointment(db: Database, appointmentId: Id, fails: bool, storeMessage: string) returns (error: Option<string>)
    modifies db`appointments
    ensures fails <==> error.Some?
    ensures fails ==> db.appointments == old(db.appointments) && error.value == ErrorText(storeMessage, "Erro ao iniciar atendimento.")
    ensures !fails ==> db.appointments == WithStatus(old(db.appointments), appointmentId, InProgress)
  {
    if fails {
      return Some(ErrorText(storeMessage, "Erro ao iniciar atendimento."));
    }
    UpdateStatus(db, appointmentId, InProgress);
    error := None;
  }

  /** `handleCompleteAppointment`: the appointment goes to `completed`. The page defines this
      handler but passes it to no component, so nothing on it calls this. */
  method CompleteAppointment(db: Database, appointmentId: Id, fails: bool, storeMessage: string) returns (error: Option<string>)
    modifies db`appointments
    ensures fails <==> error.Some?
    ensures fails ==> db.appointments == old(db.appointments) && error.value == ErrorText(storeMessage, "Erro ao finalizar atendimento.")
    ensures !fails ==> db.appointments == WithStatus(old(db.appointments), appointmentId, Completed)
  {
    if fails {
      return Some(ErrorText(storeMessage, "Erro ao finalizar atendimento."));
    }
    UpdateStatus(db, appointmentId, Completed);
    error := None;
  }

  /** The queue rows of an appointment after its status changed. */
  function Restatus(item: QueueItem, id: Id, status: AppointmentStatus): QueueItem {
    if item.appointment.id == id then item.(appointment := item.appointment.(status := status)) else item
  }

  function RestatusAll(items: seq<QueueItem>, id: Id, status: AppointmentStatus): (r: seq<QueueItem>)
    ensures |r| == |items|
    ensures forall i :: 0 <= i < |r| ==> r[i] == Restatus(items[i], id, status)
  {
    seq(|items|, i requires 0 <= i < |items| => Restatus(items[i], id, status))
  }

  lemma {:induction false} FindIndexAgrees<T, U>(xs: seq<T>, p: T -> bool, ys: seq<U>, q: U -> bool)
    requires |xs| == |ys|
    requires forall i :: 0 <= i < |xs| ==> p(xs[i]) == q(ys[i])
    ensures FindIndex(xs, p) == FindIndex(ys, q)
    decreases |xs|
  {
    if xs != [] {
      FindIndexAgrees(xs[1..], p, ys[1..], q);
    }
  }

  lemma {:induction false} JoinAfterUpdate(entries: seq<QueueEntry>, appointments: seq<Appointment>, id: Id, status: AppointmentStatus)
    ensures Join(entries, WithStatus(appointments, id, status)) == RestatusAll(Join(entries, appointments), id, status)
    decreases |entries|
  {
    if entries != [] {
      var init, e := entries[..|entries| - 1], entries[|entries| - 1];
      JoinAfterUpdate(init, appointments, id, status);
      var updated := WithStatus(appointments, id, status);
      FindIndexAgrees(updated, HasId(e.appointmentId), appointments, HasId(e.appointmentId));
      var before := Join(init, appointments);
      match FindIndex(appointments, HasId(e.appointmentId))
      case None =>
        assert Find(updated, HasId(e.appointmentId)).None?;
      case Some(k) =>
        var a := appointments[k];
        assert Find(appointments, HasId(e.appointmentId)) == Some(a);
        assert Find(updated, HasId(e.appointmentId)) == Some(updated[k]);
        assert updated[k] == if a.id == id then a.(status := status) else a;
        RestatusAppend(before, [QueueItem(e, a)], id, status);
    }
  }

  lemma RestatusAppend(a: seq<QueueItem>, b: seq<QueueItem>, id: Id, status: AppointmentStatus)
    ensures RestatusAll(a + b, id, status) == RestatusAll(a, id, status) + RestatusAll(b, id, status)
  {
  }

  lemma {:induction false} InsertAfterUpdate(x: QueueItem, sorted: seq<QueueItem>, id: Id, status: AppointmentStatus)
    ensures Insert(Restatus(x, id, status), RestatusAll(sorted, id, status)) == RestatusAll(Insert(x, sorted), id, status)
    decreases |sorted|
  {
    var rx, rs := Restatus(x, id, status), RestatusAll(sorted, id, status);
    assert Position(rx) == Position(x);
    if sorted == [] {
      assert RestatusAll([x], id, status) == [rx];
    } else {
      assert rs[0] == Restatus(sorted[0], id, status);
      if Position(x) < Position(sorted[0]) {
        RestatusAppend([x], sorted, id, status);
        assert RestatusAll([x], id, status) == [rx];
      } else {
        InsertAfterUpdate(x, sorted[1..], id, status);
        assert rs[1..] == RestatusAll(sorted[1..], id, status);
        assert Insert(rx, rs) == [rs[0]] + Insert(rx, rs[1..]);
        RestatusAppend([sorted[0]], Insert(x, sorted[1..]), id, status);
        assert RestatusAll([sorted[0]], id, status) == [rs[0]];
      }
    }
  }

  lemma {:induction false} SortAfterUpdate(items: seq<QueueItem>, id: Id, status: AppointmentStatus)
    ensures SortByPosition(RestatusAll(items, id, status)) == RestatusAll(SortByPosition(items), id, status)
    decreases |items|
  {
    if items != [] {
      var init, last := items[..|items| - 1], items[|items| - 1];
      SortAfterUpdate(init, id, status);
      var restated := RestatusAll(items, id, status);
      assert restated[..|items| - 1] == RestatusAll(init, id, status);
      assert restated[|items| - 1] == Restatus(last, id, status);
      assert SortByPosition(restated) == Insert(Restatus(last, id, status), SortByPosition(RestatusAll(init, id, status)));
      assert SortByPosition(items) == Insert(last, SortByPosition(init));
      InsertAfterUpdate(last, SortByPosition(init), id, status);
    }
  }

  /** Refetching after a status update gives the same list with that appointment's rows
      restated: the update moves no row. */
  lemma {:induction false} RefetchAfterUpdate(dailyQueue: seq<QueueEntry>, appointments: seq<Appointment>, today: string,
                                              id: Id, status: AppointmentStatus)
    ensures TodaysQueue(dailyQueue, WithStatus(appointments, id, status), today)
            == RestatusAll(TodaysQueue(dailyQueue, appointments, today), id, status)
  {
    var joined := Join(Filter(dailyQueue, ActiveOn(today)), appointments);
    JoinAfterUpdate(Filter(dailyQueue, ActiveOn(today)), appointments, id, status);
    SortAfterUpdate(joined, id, status);
  }

  /** Starting the next item leaves no scheduled item at or before it. */
  lemma {:induction false} StartedIsNoLongerNext(queue: seq<QueueItem>, k: nat)
    requires NextInQueue(queue) == Some(k)
    ensures var after := RestatusAll(queue, queue[k].appointment.id, InProgress);
            NextInQueue(after).None? || NextInQueue(after).value > k
  {
    var after := RestatusAll(queue, queue[k].appointment.id, InProgress);
    if NextInQueue(after).Some? {
      assert !IsScheduled(after[k]);
    }
  }

  /** After the next customer is started the refetched queue is the same list with that
      appointment in progress, so the call moves on to a later item, or to none. */
  lemma {:induction false} StartMovesTheQueueOn(dailyQueue: seq<QueueEntry>, appointments: seq<Appointment>, today: string, k: nat)
    requires NextInQueue(TodaysQueue(dailyQueue, appointments, today)) == Some(k)
    ensures var id := TodaysQueue(dailyQueue, appointments, today)[k].appointment.id;
            var after := TodaysQueue(dailyQueue, WithStatus(appointments, id, InProgress), today);
            NextInQueue(after).None? || NextInQueue(after).value > k
  {
    var q := TodaysQueue(dailyQueue, appointments, today);
    RefetchAfterUpdate(dailyQueue, appointments, today, q[k].appointment.id, InProgress);
    StartedIsNoLongerNext(q, k);
  }
}
