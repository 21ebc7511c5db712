/** The booking calendar (`SchedulingCalendar.tsx`): three fixed shifts of five places, the
    occupancy of a shift read from the day's active queue rows, the blocked dates, and the
    booking itself: every selected service is booked `scheduled` at the shift start plus
    thirty minutes per booking already there, and gets a queue row. */
module Scheduling {
  import opened Wrappers
  import opened Seqs
  import opened Tables
  import AppointmentCheckout
  import Processor

  /** A shift: its id, label (`title`), start and end (seconds of the day) and its capacity. */
  datatype TimeSlot = TimeSlot(id: string, title: string, start: int, end: int, maxSlots: int)

  const Hour := 3600

  const TimeSlots: seq<TimeSlot> := [
    TimeSlot("morning", "Manhã", 9 * Hour, 12 * Hour, 5),
    TimeSlot("afternoon", "Tarde", 14 * Hour, 18 * Hour, 5),
    TimeSlot("evening", "Noite", 18 * Hour, 21 * Hour, 5)
  ]

  /** The average service time the booking spaces appointments by: thirty minutes. */
  const AverageServiceSeconds := 30 * 60

  function SlotNamed(id: string): TimeSlot -> bool {
    (s: TimeSlot) => s.id == id
  }

  /** `TIME_SLOTS.find(s => s.id === id)`. */
  function SlotOf(id: string): (r: Option<TimeSlot>)
    ensures r.Some? <==> id in {"morning", "afternoon", "evening"}
    ensures r.Some? ==> r.value in TimeSlots && r.value.id == id
  {
    var r := Find(TimeSlots, SlotNamed(id));
    assert id == "morning" ==> TimeSlots[0].id == id;
    assert id == "afternoon" ==> TimeSlots[1].id == id;
    assert id == "evening" ==> TimeSlots[2].id == id;
    r
  }

  /** `getTotalPrice`: Σ price over the loaded services, 0 before they load. */
  function TotalPrice(services: Option<seq<Service>>): real {
    if services.None? then 0.0 else Sum(services.value, AppointmentCheckout.Price)
  }

  /** A service's duration; a null `duration_minutes` adds nothing. */
  function Duration(s: Service): real {
    s.durationMinutes.GetOr(0) as real
  }

  /** `getTotalDuration`: Σ duration over the loaded services, 0 before they load. */
  function TotalDuration(services: Option<seq<Service>>): real {
    if services.None? then 0.0 else Sum(services.value, Duration)
  }

  /** The calendar shows the amount the appointment checkout charges for the same services,
      and a duration that no service with a non-negative duration can make negative. */
  lemma {:induction false} TotalsMatchCheckout(services: seq<Service>)
    requires forall i :: 0 <= i < |services| ==> services[i].durationMinutes.GetOr(0) >= 0
    ensures TotalPrice(Some(services)) == Sum(AppointmentCheckout.LineItems(services, ""), Processor.ItemAmount)
    ensures TotalDuration(Some(services)) >= 0.0
  {
    AppointmentCheckout.LineItemsSumToTotal(services, "");
    SumNonNegative(services, Duration);
  }

  /** A row of the day's queue query: the queue entry joined with its appointment's time. */
  datatype QueueRow = QueueRow(entry: QueueEntry, scheduledTime: DateTime)

  /** `scheduled_time` lies in the shift window of the date, both bounds included. */
  function InSlot(date: string, slot: TimeSlot): QueueRow -> bool {
    (r: QueueRow) => r.scheduledTime.date == date && slot.start <= r.scheduledTime.second <= slot.end
  }

  /** `getSlotOccupancy`: the day's rows inside the shift window; 0 without data, without a
      date or for an unknown shift. */
  function Occupancy(queueData: Option<seq<QueueRow>>, date: Option<string>, slotId: string): (n: nat)
    ensures queueData.None? || date.None? || SlotOf(slotId).None? ==> n == 0
    ensures queueData.Some? && queueData.value == [] ==> n == 0
  {
    if queueData.None? || date.None? then 0
    else match SlotOf(slotId)
      case None => 0
      case Some(slot) => Count(queueData.value, InSlot(date.value, slot))
  }

  /** The windows share their bounds: a booking at 18:00 counts in the afternoon and in the
      evening shift. */
  lemma EighteenHundredCountsTwice(entry: QueueEntry, date: string)
    ensures var row := QueueRow(entry, DateTime(date, 18 * Hour));
            && Occupancy(Some([row]), Some(date), "afternoon") == 1
            && Occupancy(Some([row]), Some(date), "evening") == 1
  {
    var row := QueueRow(entry, DateTime(date, 18 * Hour));
    assert SlotOf("afternoon") == Some(TimeSlots[1]) by {
      FindIndexIs(TimeSlots, SlotNamed("afternoon"), 1);
    }
    assert SlotOf("evening") == Some(TimeSlots[2]) by {
      FindIndexIs(TimeSlots, SlotNamed("evening"), 2);
    }
    assert [row][..0] == [];
    assert Filter([row], InSlot(date, TimeSlots[1])) == [row];
    assert Filter([row], InSlot(date, TimeSlots[2])) == [row];
  }

  /** A calendar day: its weekday (0 Sunday … 6 Saturday) and the instant it starts, in ms. */
  datatype Day = Day(weekday: int, start: int)

  /** `isDateDisabled`: Mondays, Sundays and days whose start is before now. */
  predicate DateDisabled(d: Day, now: int) {
    d.weekday == 1 || d.weekday == 0 || d.start < now
  }

  /** A day can be picked exactly when it is Tuesday to Saturday and has not started; in
      particular today, which began before now, is never bookable. */
  lemma {:induction false} BookableDays(d: Day, now: int)
    requires 0 <= d.weekday <= 6
    ensures !DateDisabled(d, now) <==> 2 <= d.weekday <= 6 && d.start >= now
  {
  }

  /** `slotStart + occupancy × 30 min`, as a second of the day. */
  function SlotTime(slot: TimeSlot, occupancy: int): int {
    slot.start + occupancy * AverageServiceSeconds
  }

  /** With fewer than five bookings in a shift the computed time stays inside its window. */
  lemma {:induction false} ScheduledTimeInsideSlot(slotId: string, occupancy: int)
    requires SlotOf(slotId).Some?
    requires 0 <= occupancy < SlotOf(slotId).value.maxSlots
    ensures var slot := SlotOf(slotId).value;
            slot.start <= SlotTime(slot, occupancy) <= slot.end
  {
    var slot := SlotOf(slotId).value;
    assert slot == TimeSlots[0] || slot == TimeSlots[1] || slot == TimeSlots[2];
    assert slot.maxSlots == 5 && slot.end - slot.start >= 3 * Hour;
    SpacingBound(occupancy, 4);
  }

  /** At most `n` services of thirty minutes take at most `n` half hours. */
  lemma SpacingBound(occupancy: int, n: int)
    requires 0 <= occupancy <= n
    ensures 0 <= occupancy * AverageServiceSeconds <= n * AverageServiceSeconds
  {
  }

  /** Rows joined with a time inside the shift window all count for the shift. */
  lemma JoinedInSlot(entries: seq<QueueEntry>, date: string, slot: TimeSlot, second: int)
    requires slot.start <= second <= slot.end
    ensures Filter(Joined(entries, DateTime(date, second)), InSlot(date, slot)) == Joined(entries, DateTime(date, second))
  {
    var added := Joined(entries, DateTime(date, second));
    assert forall k :: 0 <= k < |added| ==> InSlot(date, slot)(added[k]);
    FilterAll(added, InSlot(date, slot));
  }

  /** The hour the server gives a reserved shift lies inside the calendar's window for it. */
  lemma ServerShiftTimesInsideWindows(slotId: string)
    requires SlotOf(slotId).Some?
    ensures var slot := SlotOf(slotId).value;
            slot.start <= AppointmentCheckout.TimeForSlot(slotId) <= slot.end
  {
  }

  /** The appointment booked for the `k`-th selected service. */
  function Booking(id: Id, customerId: Id, serviceId: Id, time: DateTime): Appointment {
    Appointment(id, customerId, serviceId, time, Scheduled, "app", None, None, None)
  }

  function Bookings(customerId: Id, serviceIds: seq<Id>, time: DateTime, newId: int -> Id): (r: seq<Appointment>)
    ensures |r| == |serviceIds|
    ensures forall k :: 0 <= k < |r| ==> r[k] == Booking(newId(k), customerId, serviceIds[k], time)
  {
    seq(|serviceIds|, k requires 0 <= k < |serviceIds| => Booking(newId(k), customerId, serviceIds[k], time))
  }

  /** The queue rows: every booking at position occupancy + 1 of the date. */
  function QueueRows(n: nat, position: int, date: string, newId: int -> Id): (r: seq<QueueEntry>)
    ensures |r| == n
    ensures forall k :: 0 <= k < n ==> r[k] == QueueEntry(newId(k), position, date, true)
  {
    seq(n, k requires 0 <= k < n => QueueEntry(newId(k), position, date, true))
  }

  lemma BookingsStep(customerId: Id, serviceIds: seq<Id>, i: nat, time: DateTime, newId: int -> Id)
    requires i < |serviceIds|
    ensures Bookings(customerId, serviceIds[..i + 1], time, newId)
            == Bookings(customerId, serviceIds[..i], time, newId) + [Booking(newId(i), customerId, serviceIds[i], time)]
  {
  }

  lemma QueueRowsStep(i: nat, position: int, date: string, newId: int -> Id)
    ensures QueueRows(i + 1, position, date, newId) == QueueRows(i, position, date, newId) + [QueueEntry(newId(i), position, date, true)]
  {
  }

  /** New queue rows as the day's query returns them, joined with their appointment time. */
  function Joined(entries: seq<QueueEntry>, time: DateTime): (r: seq<QueueRow>)
    ensures |r| == |entries|
    ensures forall k :: 0 <= k < |r| ==> r[k] == QueueRow(entries[k], time)
  {
    seq(|entries|, k requires 0 <= k < |entries| => QueueRow(entries[k], time))
  }

  /** The booked rows lie inside the shift window, so once the queue query reloads, the
      occupancy of the shift has grown by exactly the number of bookings just made. */
  lemma {:induction false} BookingsFillTheShift(rows: seq<QueueRow>, date: string, slotId: string, occupancy: int,
                                                entries: seq<QueueEntry>)
    requires SlotOf(slotId).Some? && 0 <= occupancy < SlotOf(slotId).value.maxSlots
    ensures var time := DateTime(date, SlotTime(SlotOf(slotId).value, occupancy));
            Occupancy(Some(rows + Joined(entries, time)), Some(date), slotId)
              == Occupancy(Some(rows), Some(date), slotId) + |entries|
  {
    var slot := SlotOf(slotId).value;
    var second := SlotTime(slot, occupancy);
    ScheduledTimeInsideSlot(slotId, occupancy);
    JoinedInSlot(entries, date, slot, second);
    FilterAppend(rows, Joined(entries, DateTime(date, second)), InSlot(date, slot));
  }

  /** What the button does: nothing, a completed booking, a refusal before any insert, or an
      insert error after the services before it were booked. */
  datatype Outcome = Skipped | Booked | Refused(message: string) | InsertFailed(message: string)

  const InvalidSlotMessage := "Turno inválido"
  const FullSlotMessage := "Este turno está lotado. Escolha outro horário."

  /** The toast text for an error: its message, or the generic retry text when it has none. */
  function ErrorText(message: string): (t: string)
    ensures t != ""
    ensures message != "" ==> t == message
  {
    if message == "" then "Tente novamente." else message
  }

  /** The inserts of the booking, one service after the other: each appointment and then its
      queue row, stopping at the service `failAt` names. `booked` is how many were written. */
  method InsertBookings(db: Database, customerId: Id, serviceIds: seq<Id>, time: DateTime, position: int,
                        date: string, newId: int -> Id, failAt: Option<nat>)
    returns (booked: nat)
    modifies db`appointments, db`dailyQueue
    ensures booked == if failAt.Some? && failAt.value < |serviceIds| then failAt.value else |serviceIds|
    ensures db.appointments == old(db.appointments) + Bookings(customerId, serviceIds[..booked], time, newId)
    ensures db.dailyQueue == old(db.dailyQueue) + QueueRows(booked, position, date, newId)
  {
    booked := 0;
    while booked < |serviceIds|
      invariant 0 <= booked <= |serviceIds|
      invariant db.appointments == old(db.appointments) + Bookings(customerId, serviceIds[..booked], time, newId)
      invariant db.dailyQueue == old(db.dailyQueue) + QueueRows(booked, position, date, newId)
      invariant failAt.Some? ==> booked <= failAt.value
    {
      if failAt == Some(booked) {
        return;
      }
      BookingsStep(customerId, serviceIds, booked, time, newId);
      QueueRowsStep(booked, position, date, newId);
      db.appointments := db.appointments + [Booking(newId(booked), customerId, serviceIds[booked], time)];
      db.dailyQueue := db.dailyQueue + [QueueEntry(newId(booked), position, date, true)];
      booked := booked + 1;
    }
  }

  /** `handleSchedule`. `queueData` is the loaded queue query, `newId(k)` the id the store gives
      the `k`-th appointment, `failAt` the first service whose inserts fail, if one does, and
      `storeMessage` the store's error text; the inserts are taken one after the other. */
  method HandleSchedule(db: Database, date: Option<string>, slotId: Option<string>, profile: Option<Profile>,
                        selectedServices: seq<Id>, queueData: Option<seq<QueueRow>>, newId: int -> Id,
                        failAt: Option<nat>, storeMessage: string)
    returns (outcome: Outcome)
    modifies db`appointments, db`dailyQueue
    ensures date.None? || !Present(slotId) || profile.None? ==> outcome == Skipped
    ensures Present(slotId) && SlotOf(slotId.value).None? && date.Some? && profile.Some? ==>
              outcome == Refused(InvalidSlotMessage)
    ensures date.Some? && Present(slotId) && profile.Some? && SlotOf(slotId.value).Some?
              && Occupancy(queueData, date, slotId.value) >= SlotOf(slotId.value).value.maxSlots ==>
              outcome == Refused(FullSlotMessage)
    ensures outcome.Skipped? || outcome.Refused? ==>
              db.appointments == old(db.appointments) && db.dailyQueue == old(db.dailyQueue)
    ensures outcome.Booked? || outcome.InsertFailed? ==>
              && date.Some? && Present(slotId) && profile.Some? && SlotOf(slotId.value).Some?
              && var slot := SlotOf(slotId.value).value;
                 var occupancy := Occupancy(queueData, date, slotId.value);
                 var booked := if outcome.InsertFailed? && failAt.Some? then failAt.value else |selectedServices|;
                 && occupancy < slot.maxSlots
                 && booked <= |selectedServices|
                 && db.appointments == old(db.appointments)
                      + Bookings(profile.value.id, selectedServices[..booked], DateTime(date.value, SlotTime(slot, occupancy)), newId)
                 && db.dailyQueue == old(db.dailyQueue) + QueueRows(booked, occupancy + 1, date.value, newId)
    ensures outcome.InsertFailed? ==> failAt.Some? && failAt.value < |selectedServices| && outcome.message == ErrorText(storeMessage)
    ensures date.Some? && Present(slotId) && profile.Some? && SlotOf(slotId.value).Some?
              && Occupancy(queueData, date, slotId.value) < SlotOf(slotId.value).value.maxSlots ==>
              (outcome.Booked? <==> failAt.None? || failAt.value >= |selectedServices|)
              && (outcome.Booked? || outcome.InsertFailed?)
  {
    if date.None? || !Present(slotId) || profile.None? {
      return Skipped;
    }
    var slot := SlotOf(slotId.value);
    if slot.None? {
      return Refused(InvalidSlotMessage);
    }
    var occupancy := Occupancy(queueData, date, slotId.value);
    if occupancy >= slot.value.maxSlots {
      return Refused(FullSlotMessage);
    }
    var time := DateTime(date.value, SlotTime(slot.value, occupancy));
    var booked := InsertBookings(db, profile.value.id, selectedServices, time, occupancy + 1, date.value, newId, failAt);
    if booked < |selectedServices| {
      return InsertFailed(ErrorText(storeMessage));
    }
    outcome := Booked;
  }
}
