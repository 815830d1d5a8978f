/** The push-reminder table: registered devices, reminder records and the pending
    notification jobs of the scheduler. Times are seconds since the epoch, UTC. */
module FirebaseReminders {
  import opened Wrappers
  import opened Text
  import opened OrderedMaps

  /** Registrations expire thirty days after they are made. */
  const ThirtyDays: int := 30 * 24 * 60 * 60
  /** The shortest FCM token accepted. */
  const MinTokenLength: nat := 10
  const JobPrefix: string := "firebase_reminder_"

  datatype DeviceInfo = DeviceInfo(
    userId: string, fcmToken: string, deviceId: string, platform: string,
    appVersion: Option<string>, registeredAt: int, lastSeen: int, active: bool)

  datatype Registration = Registration(registrationId: string, expiresAt: int)

  /** A time as the caller supplied it: without a time zone, or with a UTC offset (in seconds). */
  datatype SuppliedTime = Naive(wall: int) | Aware(wall: int, offset: int)

  /** The UTC instant a supplied time denotes: a naive time is read as UTC. */
  function ToUtc(t: SuppliedTime): int {
    match t
    case Naive(w) => w
    case Aware(w, off) => w - off
  }

  /** A naive time and the same wall-clock time marked UTC are the same instant. */
  lemma NaiveIsUtc(w: int)
    ensures ToUtc(Naive(w)) == ToUtc(Aware(w, 0)) == w
  {
  }

  /** Two aware times that denote the same instant normalise to the same stored time,
      whatever offsets they were written in. */
  lemma SameInstantSameUtc(a: SuppliedTime, b: SuppliedTime)
    requires a.Aware? && b.Aware? && a.wall - a.offset == b.wall - b.offset
    ensures ToUtc(a) == ToUtc(b)
  {
  }

  datatype ReminderStatus = Scheduled | Sent | Failed | Cancelled

  datatype ReminderRecord = ReminderRecord(
    reminderId: string, userId: string, fcmToken: string, text: string,
    scheduledTime: int, metadata: map<string, string>, createdAt: int,
    status: ReminderStatus, sentAt: Option<int>, firebaseResponse: Option<string>,
    error: Option<string>, cancelledAt: Option<int>)

  /** A pending notification job: when it fires and which record it reports on. */
  datatype Job = Job(runAt: int, userId: string, reminderId: string)

  datatype ScheduleReceipt = ScheduleReceipt(reminderId: string, scheduledFor: int, notificationJobId: string)

  /** Why `schedule_reminder` raised. `SchedulerUnavailable` is the failure of `add_job`
      when no scheduler object exists (its construction raised at start-up): the record
      has already been stored by then. */
  datatype ScheduleError = FirebaseNotInitialized | NotInFuture(scheduled: int, current: int) | SchedulerUnavailable

  /** What the push transport did with a notification. */
  datatype Delivery = Delivered(response: string) | DeliveryFailed(error: string)

  function JobId(reminderId: string): string {
    JobPrefix + reminderId
  }

  /** Job ids determine the reminder id, so one reminder id has one job. */
  lemma JobIdInjective(a: string, b: string)
    ensures JobId(a) == JobId(b) ==> a == b
  {
    if JobId(a) == JobId(b) {
      assert a == JobId(a)[|JobPrefix|..];
      assert b == JobId(b)[|JobPrefix|..];
    }
  }

  /** The reminder id used: the caller's, or one made from the user and the clock when
      the caller gave none or an empty one. */
  function ChosenId(reminderId: Option<string>, userId: string, now: int): string {
    if reminderId.Some? && reminderId.value != "" then reminderId.value
    else "reminder_" + userId + "_" + IntToString(now)
  }

  function NewRecord(reminderId: string, userId: string, fcmToken: string, text: string,
                     scheduledTime: int, metadata: map<string, string>, now: int): ReminderRecord {
    ReminderRecord(reminderId, userId, fcmToken, text, scheduledTime, metadata, now,
                   Scheduled, None, None, None, None)
  }

  /** The record after the notification job ran with the given delivery outcome. */
  function AfterDelivery(r: ReminderRecord, delivery: Delivery, now: int): ReminderRecord {
    match delivery
    case Delivered(response) => r.(status := Sent, sentAt := Some(now), firebaseResponse := Some(response))
    case DeliveryFailed(e) => r.(status := Failed, error := Some(e))
  }

  function AfterCancel(r: ReminderRecord, now: int): ReminderRecord {
    r.(status := Cancelled, cancelledAt := Some(now))
  }

  /** `d.get(u, {})` for the per-user tables. */
  function Inner<V>(m: map<string, OrderedMap<V>>, userId: string): OrderedMap<V> {
    if userId in m then m[userId] else Empty()
  }

  ghost predicate InnerValid<V>(m: map<string, OrderedMap<V>>) {
    forall u :: u in m ==> m[u].Valid()
  }

  /** `m.setdefault(u, {})[k] = v`: only user `u`'s table changes, and only at `k`. */
  function Store<V>(m: map<string, OrderedMap<V>>, userId: string, k: string, v: V): (r: map<string, OrderedMap<V>>)
    requires InnerValid(m)
    ensures InnerValid(r)
    ensures r.Keys == m.Keys + {userId}
    ensures forall u :: u in m && u != userId ==> r[u] == m[u]
    ensures r[userId].entries == Inner(m, userId).entries[k := v]
    ensures r[userId].keys == if k in Inner(m, userId).entries then Inner(m, userId).keys else Inner(m, userId).keys + [k]
  {
    m[userId := Inner(m, userId).Put(k, v)]
  }

  predicate HasRecord(reminders: map<string, OrderedMap<ReminderRecord>>, userId: string, reminderId: string) {
    userId in reminders && reminderId in reminders[userId].entries
  }

  /** Each record sits under its own user and reminder id. */
  ghost predicate RecordsKeyed(reminders: map<string, OrderedMap<ReminderRecord>>) {
    forall u, id :: u in reminders && id in reminders[u].entries ==>
      reminders[u].entries[id].userId == u && reminders[u].entries[id].reminderId == id
  }

  /** Every pending job carries the id made from its reminder id and refers to a stored
      record that is still `Scheduled` for the job's run time. */
  ghost predicate JobsConsistent(reminders: map<string, OrderedMap<ReminderRecord>>, jobs: map<string, Job>) {
    forall j :: j in jobs ==>
      && j == JobId(jobs[j].reminderId)
      && HasRecord(reminders, jobs[j].userId, jobs[j].reminderId)
      && reminders[jobs[j].userId].entries[jobs[j].reminderId].status == Scheduled
      && reminders[jobs[j].userId].entries[jobs[j].reminderId].scheduledTime == jobs[j].runAt
  }

  ghost predicate TablesValid(devices: map<string, OrderedMap<DeviceInfo>>,
                              reminders: map<string, OrderedMap<ReminderRecord>>,
                              jobs: map<string, Job>, schedulerReady: bool) {
    && InnerValid(devices)
    && InnerValid(reminders)
    && RecordsKeyed(reminders)
    && JobsConsistent(reminders, jobs)
    && (!schedulerReady ==> jobs == map[])
  }

  lemma StoreKeepsKeyed(reminders: map<string, OrderedMap<ReminderRecord>>, userId: string, id: string, rec: ReminderRecord)
    requires InnerValid(reminders) && RecordsKeyed(reminders)
    requires rec.userId == userId && rec.reminderId == id
    ensures RecordsKeyed(Store(reminders, userId, id, rec))
  {
  }

  /** Dropping the job of reminder `id` leaves no job about `id` and keeps the rest consistent. */
  lemma DropJob(reminders: map<string, OrderedMap<ReminderRecord>>, jobs: map<string, Job>, id: string)
    requires JobsConsistent(reminders, jobs)
    ensures JobsConsistent(reminders, jobs - {JobId(id)})
    ensures forall j :: j in jobs - {JobId(id)} ==> jobs[j].reminderId != id
  {
    forall j | j in jobs - {JobId(id)} ensures jobs[j].reminderId != id {
      JobIdInjective(jobs[j].reminderId, id);
    }
  }

  /** Rewriting a record no job is about keeps the job table consistent. */
  lemma StoreKeepsJobs(reminders: map<string, OrderedMap<ReminderRecord>>, jobs: map<string, Job>,
                       userId: string, id: string, rec: ReminderRecord)
    requires InnerValid(reminders) && JobsConsistent(reminders, jobs)
    requires forall j :: j in jobs ==> jobs[j].reminderId != id
    ensures JobsConsistent(Store(reminders, userId, id, rec), jobs)
  {
    var after := Store(reminders, userId, id, rec);
    forall j | j in jobs
      ensures HasRecord(after, jobs[j].userId, jobs[j].reminderId)
      ensures after[jobs[j].userId].entries[jobs[j].reminderId] == reminders[jobs[j].userId].entries[jobs[j].reminderId]
    {
      var u := jobs[j].userId;
      if u == userId {
        assert after[u].entries == reminders[u].entries[id := rec];
      }
    }
  }

  lemma AddJobKeepsJobs(reminders: map<string, OrderedMap<ReminderRecord>>, jobs: map<string, Job>,
                        userId: string, id: string, at: int)
    requires JobsConsistent(reminders, jobs)
    requires HasRecord(reminders, userId, id)
    requires reminders[userId].entries[id].status == Scheduled && reminders[userId].entries[id].scheduledTime == at
    ensures JobsConsistent(reminders, jobs[JobId(id) := Job(at, userId, id)])
  {
  }

  /** Upserting a `Scheduled` record and replacing the job of its id keeps the tables valid;
      so does upserting it when the scheduler is down and there are no jobs. */
  lemma ScheduleKeepsValid(devices: map<string, OrderedMap<DeviceInfo>>,
                           reminders: map<string, OrderedMap<ReminderRecord>>,
                           jobs: map<string, Job>, schedulerReady: bool, rec: ReminderRecord)
    requires TablesValid(devices, reminders, jobs, schedulerReady)
    requires rec.status == Scheduled
    ensures TablesValid(devices, Store(reminders, rec.userId, rec.reminderId, rec),
                        if schedulerReady then jobs[JobId(rec.reminderId) := Job(rec.scheduledTime, rec.userId, rec.reminderId)]
                        else jobs, schedulerReady)
  {
    var (u, id) := (rec.userId, rec.reminderId);
    var after := Store(reminders, u, id, rec);
    StoreKeepsKeyed(reminders, u, id, rec);
    DropJob(reminders, jobs, id);
    var others := jobs - {JobId(id)};
    StoreKeepsJobs(reminders, others, u, id, rec);
    if schedulerReady {
      AddJobKeepsJobs(after, others, u, id, rec.scheduledTime);
      assert others[JobId(id) := Job(rec.scheduledTime, u, id)] == jobs[JobId(id) := Job(rec.scheduledTime, u, id)];
    }
  }

  class RemindersService {
    var devices: map<string, OrderedMap<DeviceInfo>>
    var reminders: map<string, OrderedMap<ReminderRecord>>
    /** The scheduler's job table, keyed by job id. */
    var jobs: map<string, Job>
    /** Whether the Firebase app was initialised at start-up. */
    const firebaseReady: bool
    /** Whether a scheduler object exists: its construction did not raise at start-up. */
    const schedulerReady: bool

    ghost predicate Valid()
      reads this
    {
      TablesValid(devices, reminders, jobs, schedulerReady)
    }

    constructor (firebaseReady: bool, schedulerReady: bool)
      ensures Valid()
      ensures devices == map[] && reminders == map[] && jobs == map[]
      ensures this.firebaseReady == firebaseReady && this.schedulerReady == schedulerReady
    {
      devices, reminders, jobs := map[], map[], map[];
      this.firebaseReady, this.schedulerReady := firebaseReady, schedulerReady;
    }

    /** `register_device`: a token shorter than ten characters (the empty one included) is
        refused and nothing is stored; otherwise exactly `devices[user][device]` is set. */
    method RegisterDevice(userId: string, fcmToken: string, deviceId: string, platform: string,
                          appVersion: Option<string>, now: int) returns (r: Result<Registration, string>)
      requires Valid()
      modifies this
      ensures Valid()
      ensures reminders == old(reminders) && jobs == old(jobs)
      ensures |fcmToken| < MinTokenLength ==> r == Err("Invalid FCM token provided") && devices == old(devices)
      ensures |fcmToken| >= MinTokenLength ==>
        && r == Ok(Registration(userId + "_" + deviceId, now + ThirtyDays))
        && devices == Store(old(devices), userId, deviceId,
                            DeviceInfo(userId, fcmToken, deviceId, platform, appVersion, now, now, true))
    {
      if |fcmToken| < MinTokenLength {
        return Err("Invalid FCM token provided");
      }
      devices := Store(devices, userId, deviceId, DeviceInfo(userId, fcmToken, deviceId, platform, appVersion, now, now, true));
      r := Ok(Registration(userId + "_" + deviceId, now + ThirtyDays));
    }

    /** `schedule_reminder`: the time is normalised to UTC and must be strictly after `now`;
        the record is then upserted as `Scheduled` and the job with the same id replaced. */
    method ScheduleReminder(userId: string, fcmToken: string, reminderText: string, scheduledTime: SuppliedTime,
                            reminderId: Option<string>, metadata: Option<map<string, string>>, now: int)
      returns (r: Result<ScheduleReceipt, ScheduleError>)
      requires Valid()
      modifies this
      ensures Valid()
      ensures devices == old(devices)
      ensures !firebaseReady ==> r == Err(FirebaseNotInitialized) && reminders == old(reminders) && jobs == old(jobs)
      ensures firebaseReady && ToUtc(scheduledTime) <= now ==>
        r == Err(NotInFuture(ToUtc(scheduledTime), now)) && reminders == old(reminders) && jobs == old(jobs)
      ensures firebaseReady && ToUtc(scheduledTime) > now ==>
        var id := ChosenId(reminderId, userId, now);
        var at := ToUtc(scheduledTime);
        && reminders == Store(old(reminders), userId, id,
                              NewRecord(id, userId, fcmToken, reminderText, at, metadata.GetOr(map[]), now))
        && (schedulerReady ==>
              jobs == old(jobs)[JobId(id) := Job(at, userId, id)] && r == Ok(ScheduleReceipt(id, at, JobId(id))))
        && (!schedulerReady ==> jobs == old(jobs) && r == Err(SchedulerUnavailable))
    {
      if !firebaseReady {
        return Err(FirebaseNotInitialized);
      }
      var id := ChosenId(reminderId, userId, now);
      var at := ToUtc(scheduledTime);
      if at <= now {
        return Err(NotInFuture(at, now));
      }
      var record := NewRecord(id, userId, fcmToken, reminderText, at, metadata.GetOr(map[]), now);
      ScheduleKeepsValid(devices, reminders, jobs, schedulerReady, record);
      reminders := Store(reminders, userId, id, record);
      if !schedulerReady {
        return Err(SchedulerUnavailable);
      }
      jobs := jobs[JobId(id) := Job(at, userId, id)];
      r := Ok(ScheduleReceipt(id, at, JobId(id)));
    }

    /** The timer of job `jobId` elapsing at `now` (`_send_scheduled_notification`). A job that
        is absent or not yet due does nothing. A due job leaves the table; unless Firebase is
        uninitialised, its record becomes `Sent` or `Failed` by the delivery outcome. */
    method Fire(jobId: string, now: int, delivery: Delivery)
      requires Valid()
      modifies this
      ensures Valid()
      ensures devices == old(devices)
      ensures jobId !in old(jobs) || old(jobs)[jobId].runAt > now ==>
        reminders == old(reminders) && jobs == old(jobs)
      ensures jobId in old(jobs) && old(jobs)[jobId].runAt <= now ==>
        var job := old(jobs)[jobId];
        && jobs == old(jobs) - {jobId}
        && reminders == (
             if !firebaseReady || !HasRecord(old(reminders), job.userId, job.reminderId) then old(reminders)
             else Store(old(reminders), job.userId, job.reminderId,
                        AfterDelivery(old(reminders)[job.userId].entries[job.reminderId], delivery, now)))
    {
      if jobId !in jobs || jobs[jobId].runAt > now {
        return;
      }
      var job := jobs[jobId];
      DropJob(reminders, jobs, job.reminderId);
      jobs := jobs - {jobId};
      if firebaseReady && HasRecord(reminders, job.userId, job.reminderId) {
        var record := AfterDelivery(reminders[job.userId].entries[job.reminderId], delivery, now);
        StoreKeepsKeyed(reminders, job.userId, job.reminderId, record);
        StoreKeepsJobs(reminders, jobs, job.userId, job.reminderId, record);
        reminders := Store(reminders, job.userId, job.reminderId, record);
      }
    }

    /** `cancel_reminder`: never fails. The job with the reminder's id is removed whoever
        owns it, and the user's record, if any, becomes `Cancelled` whatever its status was. */
    method CancelReminder(userId: string, reminderId: string, now: int) returns (cancelledAt: int)
      requires Valid()
      modifies this
      ensures Valid()
      ensures cancelledAt == now
      ensures devices == old(devices)
      ensures jobs == old(jobs) - {JobId(reminderId)}
      ensures reminders == (
        if HasRecord(old(reminders), userId, reminderId)
        then Store(old(reminders), userId, reminderId, AfterCancel(old(reminders)[userId].entries[reminderId], now))
        else old(reminders))
    {
      DropJob(reminders, jobs, reminderId);
      jobs := jobs - {JobId(reminderId)};
      if HasRecord(reminders, userId, reminderId) {
        var record := AfterCancel(reminders[userId].entries[reminderId], now);
        StoreKeepsKeyed(reminders, userId, reminderId, record);
        StoreKeepsJobs(reminders, jobs, userId, reminderId, record);
        reminders := Store(reminders, userId, reminderId, record);
      }
      cancelledAt := now;
    }

    /** `get_user_devices`: the user's devices in registration order, `[]` for an unknown user. */
    function GetUserDevices(userId: string): (r: seq<DeviceInfo>)
      requires Valid()
      reads this
      ensures userId !in devices ==> r == []
      ensures userId in devices ==>
        (|r| == |devices[userId].keys| &&
         forall i :: 0 <= i < |r| ==> r[i] == devices[userId].entries[devices[userId].keys[i]])
    {
      Inner(devices, userId).Values()
    }

    /** `get_user_reminders`: the user's records in first-scheduled order, `[]` for an unknown
        user; every record listed belongs to that user. */
    function GetUserReminders(userId: string): (r: seq<ReminderRecord>)
      requires Valid()
      reads this
      ensures userId !in reminders ==> r == []
      ensures userId in reminders ==>
        (|r| == |reminders[userId].keys| &&
         forall i :: 0 <= i < |r| ==> r[i] == reminders[userId].entries[reminders[userId].keys[i]])
      ensures forall i :: 0 <= i < |r| ==> r[i].userId == userId
    {
      Inner(reminders, userId).Values()
    }
  }

  /** Storing under the same key twice, starting from no records, lists that key once. */
  lemma StoreTwiceOneKey<V>(m1: map<string, OrderedMap<V>>, m2: map<string, OrderedMap<V>>,
                            userId: string, k: string, a: V, b: V)
    requires m1 == Store(map[], userId, k, a) && m2 == Store(m1, userId, k, b)
    ensures m2[userId].keys == [k]
  {
    assert m1[userId].keys == [k];
    assert k in Inner(m1, userId).entries;
  }

  /** Scheduling the same reminder id twice leaves one record, with the second time, and
      one pending job for it, firing at the second time. */
  method RescheduleReplaces(userId: string, token: string, text: string, id: string,
                            first: SuppliedTime, second: SuppliedTime, now: int)
    returns (stored: ReminderRecord, pending: map<string, Job>)
    requires id != "" && ToUtc(first) > now && ToUtc(second) > now
    ensures stored.status == Scheduled && stored.scheduledTime == ToUtc(second)
    ensures pending == map[JobId(id) := Job(ToUtc(second), userId, id)]
  {
    var service := new RemindersService(true, true);
    var r1 := service.ScheduleReminder(userId, token, text, first, Some(id), None, now);
    var r2 := service.ScheduleReminder(userId, token, text, second, Some(id), None, now);
    stored := service.reminders[userId].entries[id];
    pending := service.jobs;
  }

  /** Scheduling the same reminder id twice lists the user's reminders under that one id. */
  method RescheduleKeepsOneRecord(userId: string, token: string, text: string, id: string,
                                  first: SuppliedTime, second: SuppliedTime, now: int)
    returns (ids: seq<string>)
    requires id != "" && ToUtc(first) > now && ToUtc(second) > now
    ensures ids == [id]
  {
    var service := new RemindersService(true, true);
    var md: Option<map<string, string>> := None;
    var r1 := service.ScheduleReminder(userId, token, text, first, Some(id), md, now);
    ghost var m1 := service.reminders;
    var r2 := service.ScheduleReminder(userId, token, text, second, Some(id), md, now);
    StoreTwiceOneKey(m1, service.reminders, userId, ChosenId(Some(id), userId, now),
                     NewRecord(ChosenId(Some(id), userId, now), userId, token, text, ToUtc(first), md.GetOr(map[]), now),
                     NewRecord(ChosenId(Some(id), userId, now), userId, token, text, ToUtc(second), md.GetOr(map[]), now));
    ids := service.reminders[userId].keys;
  }

  /** A reminder already `Sent` becomes `Cancelled` when cancelled afterwards: cancel does
      not look at the current status. */
  method CancelOverwritesSent(userId: string, token: string, text: string, id: string, at: int, now: int)
    returns (afterFire: ReminderStatus, afterCancel: ReminderStatus)
    requires id != "" && at > now
    ensures afterFire == Sent && afterCancel == Cancelled
  {
    var service := new RemindersService(true, true);
    var r := service.ScheduleReminder(userId, token, text, Naive(at), Some(id), None, now);
    service.Fire(JobId(id), at, Delivered("projects/app/messages/1"));
    afterFire := service.reminders[userId].entries[id].status;
    var t := service.CancelReminder(userId, id, at + 1);
    afterCancel := service.reminders[userId].entries[id].status;
  }

  /** A time that is not strictly in the future is refused and no record is created. */
  method PastTimeRejected(userId: string, token: string, text: string, at: SuppliedTime, now: int)
    returns (r: Result<ScheduleReceipt, ScheduleError>, stored: seq<ReminderRecord>)
    requires ToUtc(at) <= now
    ensures r == Err(NotInFuture(ToUtc(at), now)) && stored == []
  {
    var service := new RemindersService(true, true);
    r := service.ScheduleReminder(userId, token, text, at, None, None, now);
    stored := service.GetUserReminders(userId);
  }

  /** Job ids are not scoped by user: when two users hold reminders with the same id,
      cancelling one user's reminder removes the only pending job, which belongs to the
      other user, whose record then stays `Scheduled` with nothing left to fire it. */
  method CancelCrossesUsers(alice: string, bob: string, token: string, id: string, at: int, now: int)
    returns (bobStatus: ReminderStatus, bobJobPending: bool)
    requires alice != bob && id != "" && at > now
    ensures bobStatus == Scheduled && !bobJobPending
  {
    var service := new RemindersService(true, true);
    var ra := service.ScheduleReminder(alice, token, "a", Naive(at), Some(id), None, now);
    var rb := service.ScheduleReminder(bob, token, "b", Naive(at), Some(id), None, now);
    var t := service.CancelReminder(alice, id, now);
    bobStatus := service.reminders[bob].entries[id].status;
    bobJobPending := JobId(id) in service.jobs;
  }

  /** Cancelling twice, or cancelling an id that was never scheduled, succeeds each time
      and the second cancel changes nothing. */
  method CancelIsIdempotent(userId: string, id: string, now: int)
    returns (first: int, second: int, unchangedTables: bool)
    ensures first == now && second == now && unchangedTables
  {
    var service := new RemindersService(true, true);
    first := service.CancelReminder(userId, id, now);
    var reminders1, jobs1 := service.reminders, service.jobs;
    second := service.CancelReminder(userId, id, now);
    unchangedTables := service.reminders == reminders1 && service.jobs == jobs1;
  }
}
