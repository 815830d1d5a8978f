/** The alarm service: parsing a spoken clock time into the next UTC instant, the alarm
    store and the scheduler's alarm jobs. Times are minutes since the epoch, UTC. */
module Alarms {
  import opened Wrappers
  import opened Text
  import opened Seqs
  import opened Schemas

  const MinutesPerDay: int := 24 * 60
  /** `get_user_alarms` lists at most this many alarms. */
  const MaxListed: nat := 100

  const BadTimeMessage: string := "I couldn't understand that time format. Please try again."
  const SetFailedMessage: string := "Failed to set alarm. Please try again."
  const NoActiveMessage: string := "You don't have any active alarms."
  const DeletedMessage: string := "Alarm deleted successfully."
  const DeleteFailedMessage: string := "Failed to delete alarm."

  /** An hour and minute as the date parser reads them from the user's words. */
  datatype ClockTime = ClockTime(hour: int, minute: int)

  /** Whether `datetime(y, m, d, hour, minute)` accepts the fields. */
  predicate ValidClock(c: ClockTime) {
    0 <= c.hour < 24 && 0 <= c.minute < 60
  }

  /** The abstract time libraries: the date parser applied to the normalised text (`None`
      where it raises) and the UTC offset in minutes of a time-zone name (`None` for an
      unknown name). */
  datatype TimeLib = TimeLib(parseClock: string -> Option<ClockTime>, zoneOffset: string -> Option<int>)

  /** Minute of the local day of UTC instant `t` in a zone `offset` minutes ahead of UTC. */
  function LocalMinuteOfDay(t: int, offset: int): int {
    (t + offset) % MinutesPerDay
  }

  /** The core of `_parse_alarm_time`: today's `hour:minute` in the user's zone, one day later
      when that is not after `now`, converted back to UTC. */
  function AlarmInstant(clock: Option<ClockTime>, offset: Option<int>, now: int): (r: Option<int>)
    ensures r.Some? <==> clock.Some? && offset.Some? && ValidClock(clock.value)
    ensures r.Some? ==> now < r.value <= now + MinutesPerDay
    ensures r.Some? ==> LocalMinuteOfDay(r.value, offset.value) == clock.value.hour * 60 + clock.value.minute
  {
    if clock.None? || offset.None? || !ValidClock(clock.value) then None
    else
      var localNow := now + offset.value;
      var wanted := clock.value.hour * 60 + clock.value.minute;
      var today := (localNow / MinutesPerDay) * MinutesPerDay + wanted;
      var local := if today <= localNow then today + MinutesPerDay else today;
      DayStartShift(localNow / MinutesPerDay, wanted);
      DayStartShift(localNow / MinutesPerDay + 1, wanted);
      Some(local - offset.value)
  }

  lemma DayStartShift(day: int, wanted: int)
    requires 0 <= wanted < MinutesPerDay
    ensures (day * MinutesPerDay + wanted) % MinutesPerDay == wanted
  {
  }

  /** The offset of the zone a preference value names; a value that is not a string names
      no zone, as the zone lookup raises on it. */
  function ZoneOffset(lib: TimeLib, timezone: Value): Option<int> {
    if timezone.VStr? then lib.zoneOffset(timezone.s) else None
  }

  /** `_parse_alarm_time(time, timezone)`: the text is stripped and upper-cased before parsing. */
  function ParseAlarmTime(lib: TimeLib, time: string, timezone: Value, now: int): Option<int> {
    AlarmInstant(lib.parseClock(Upper(Strip(time))), ZoneOffset(lib, timezone), now)
  }

  /** The parsed alarm is the first instant after `now` showing the requested time on the
      user's clock: every later instant showing it comes no earlier. */
  lemma {:induction false} AlarmIsNextOccurrence(clock: ClockTime, offset: int, now: int, t: int)
    requires ValidClock(clock)
    requires now < t && LocalMinuteOfDay(t, offset) == clock.hour * 60 + clock.minute
    ensures AlarmInstant(Some(clock), Some(offset), now).Some?
    ensures AlarmInstant(Some(clock), Some(offset), now).value <= t
  {
    var r := AlarmInstant(Some(clock), Some(offset), now).value;
    var a, b := (t + offset) / MinutesPerDay, (r + offset) / MinutesPerDay;
    assert t + offset == a * MinutesPerDay + LocalMinuteOfDay(t, offset);
    assert r + offset == b * MinutesPerDay + LocalMinuteOfDay(r, offset);
    assert r - t == (b - a) * MinutesPerDay;
    assert r > t ==> b - a >= 1;
  }

  /** `%I`: the hour on a twelve-hour clock. */
  function Hour12(hour: int): (h: int)
    requires 0 <= hour < 24
    ensures 1 <= h <= 12 && h % 12 == hour % 12
  {
    if hour % 12 == 0 then 12 else hour % 12
  }

  /** `strftime('%I:%M %p')` of UTC instant `t`: "hh:mm AM" or "hh:mm PM", where hh is the
      twelve-hour hour and mm the minute of `t`. */
  function Clock12(t: int): (s: string)
    ensures |s| == 8 && s[2] == ':' && s[5] == ' '
    ensures IsDigit(s[0]) && IsDigit(s[1]) && IsDigit(s[3]) && IsDigit(s[4])
    ensures DigitValue(s[0]) * 10 + DigitValue(s[1]) == Hour12(t % MinutesPerDay / 60)
    ensures DigitValue(s[3]) * 10 + DigitValue(s[4]) == t % 60
    ensures s[6..] == (if t % MinutesPerDay < 12 * 60 then "AM" else "PM")
  {
    var md := t % MinutesPerDay;
    assert md % 60 == t % 60 by {
      assert t == (t / MinutesPerDay) * MinutesPerDay + md;
      assert (t / MinutesPerDay) * MinutesPerDay == ((t / MinutesPerDay) * 24) * 60;
    }
    Pad2(Hour12(md / 60)) + ":" + Pad2(md % 60) + " " + (if md / 60 < 12 then "AM" else "PM")
  }

  /** The wall-clock label depends only on the time of day. */
  lemma Clock12Daily(t: int)
    ensures Clock12(t + MinutesPerDay) == Clock12(t)
  {
    assert (t + MinutesPerDay) % MinutesPerDay == t % MinutesPerDay;
  }

  /** The sort key of `get_user_alarms`. */
  function AlarmTimeOf(a: AlarmDoc): int {
    a.alarmTime
  }

  function AlarmId(index: nat): string {
    NatToString(index)
  }

  function AlarmJobId(alarmId: string): string {
    "alarm_" + alarmId
  }

  /** A stored alarm document. `createdAt` is the store's insertion timestamp. */
  datatype AlarmDoc = AlarmDoc(
    id: string, userId: string, alarmTime: int, repeat: bool, alarmLabel: Option<string>, active: bool, createdAt: int)

  /** A pending alarm job: when it fires, and the `[alarm_id, user_id]` it is called with. */
  datatype AlarmJob = AlarmJob(runAt: int, alarmId: string, userId: string)

  predicate ActiveOf(a: AlarmDoc, userId: string) {
    a.userId == userId && a.active
  }

  /** `find_one({user_id, active: True}, sort=[("created_at", -1)])`: the user's active alarm
      with the greatest `createdAt`; among equal stamps, the one stored first. */
  function MostRecentActive(alarms: seq<AlarmDoc>, userId: string): (r: Option<nat>)
    ensures r.Some? ==> r.value < |alarms| && ActiveOf(alarms[r.value], userId)
    ensures r.None? <==> forall i :: 0 <= i < |alarms| ==> !ActiveOf(alarms[i], userId)
  {
    if alarms == [] then None
    else
      var prev := MostRecentActive(alarms[..|alarms| - 1], userId);
      var last := alarms[|alarms| - 1];
      assert forall i :: 0 <= i < |alarms| - 1 ==> alarms[..|alarms| - 1][i] == alarms[i];
      if ActiveOf(last, userId) && (prev.None? || alarms[prev.value].createdAt < last.createdAt)
      then Some(|alarms| - 1)
      else prev
  }

  /** The selection is the newest active alarm of the user, the first stored among ties,
      and there is none exactly when the user has no active alarm. */
  lemma {:induction false} MostRecentActiveIsNewest(alarms: seq<AlarmDoc>, userId: string)
    ensures MostRecentActive(alarms, userId).None? <==>
      forall i :: 0 <= i < |alarms| ==> !ActiveOf(alarms[i], userId)
    ensures MostRecentActive(alarms, userId).Some? ==>
      var k := MostRecentActive(alarms, userId).value;
      && (forall i :: 0 <= i < |alarms| && ActiveOf(alarms[i], userId) ==> alarms[i].createdAt <= alarms[k].createdAt)
      && (forall i :: 0 <= i < k && ActiveOf(alarms[i], userId) ==> alarms[i].createdAt < alarms[k].createdAt)
    decreases |alarms|
  {
    if alarms != [] {
      var init := alarms[..|alarms| - 1];
      MostRecentActiveIsNewest(init, userId);
      forall i | 0 <= i < |init| ensures init[i] == alarms[i] { }
    }
  }

  /** The user's active alarms, in store order. */
  function ActiveAlarms(alarms: seq<AlarmDoc>, userId: string): (r: seq<AlarmDoc>)
    ensures forall a :: a in r <==> a in alarms && ActiveOf(a, userId)
    ensures multiset(r) <= multiset(alarms)
  {
    Filter(alarms, (a: AlarmDoc) => ActiveOf(a, userId))
  }

  /** Every pending job is named after its alarm and belongs to a stored, active alarm of the
      same user, due at the job's run time. */
  ghost predicate JobsOfActiveAlarms(alarms: seq<AlarmDoc>, jobs: map<string, AlarmJob>) {
    forall j :: j in jobs ==>
      && j == AlarmJobId(jobs[j].alarmId)
      && exists k :: 0 <= k < |alarms| && alarms[k].id == jobs[j].alarmId && alarms[k].active
                     && alarms[k].userId == jobs[j].userId && alarms[k].alarmTime == jobs[j].runAt
  }

  lemma AppendKeepsJobs(alarms: seq<AlarmDoc>, jobs: map<string, AlarmJob>, doc: AlarmDoc)
    requires JobsOfActiveAlarms(alarms, jobs)
    ensures JobsOfActiveAlarms(alarms + [doc], jobs)
  {
    forall j | j in jobs
      ensures exists k :: 0 <= k < |alarms + [doc]| && (alarms + [doc])[k].id == jobs[j].alarmId
                          && (alarms + [doc])[k].active && (alarms + [doc])[k].userId == jobs[j].userId
                          && (alarms + [doc])[k].alarmTime == jobs[j].runAt
    {
      var k :| 0 <= k < |alarms| && alarms[k].id == jobs[j].alarmId && alarms[k].active
               && alarms[k].userId == jobs[j].userId && alarms[k].alarmTime == jobs[j].runAt;
      assert (alarms + [doc])[k] == alarms[k];
    }
  }

  /** The alarm store and the scheduler's alarm jobs together. */
  datatype AlarmTables = AlarmTables(alarms: seq<AlarmDoc>, jobs: map<string, AlarmJob>)

  /** The outcome of `set_alarm`: the tables afterwards and the result dictionary. */
  function SetAlarmEffect(t: AlarmTables, storeUp: bool, schedulerUp: bool, lib: TimeLib, userId: string,
                          time: string, timezone: Value, repeat: bool, alarmLabel: Option<string>,
                          now: int, stamp: int): (AlarmTables, ActionResult)
  {
    var parsed := ParseAlarmTime(lib, time, timezone, now);
    if parsed.None? then (t, Reply(Error, BadTimeMessage))
    else if !storeUp then (t, Reply(Error, SetFailedMessage))
    else
      var at := parsed.value;
      var id := AlarmId(|t.alarms|);
      var jobs := if schedulerUp then t.jobs[AlarmJobId(id) := AlarmJob(at, id, userId)] else t.jobs;
      (AlarmTables(t.alarms + [AlarmDoc(id, userId, at, repeat, alarmLabel, true, stamp)], jobs),
       ActionResult(Success, Some("Alarm set for " + Clock12(at)), AlarmSet(id, at)))
  }

  /** An unusable time or zone is refused with the time-format message before the store is
      touched, whether or not the store answers, and a store failure changes nothing; a set alarm is appended, active, due within a day of `now` at the
      requested local time, its job `alarm_<id>` is in place when the scheduler works, and
      the message names the alarm's UTC clock time. */
  lemma SetAlarmEffectCases(t: AlarmTables, storeUp: bool, schedulerUp: bool, lib: TimeLib, userId: string,
                            time: string, timezone: Value, repeat: bool, alarmLabel: Option<string>,
                            now: int, stamp: int)
    ensures var (after, r) := SetAlarmEffect(t, storeUp, schedulerUp, lib, userId, time, timezone, repeat, alarmLabel, now, stamp);
      var clock := lib.parseClock(Upper(Strip(time)));
      var offset := ZoneOffset(lib, timezone);
      && (r.status == Success <==> storeUp && clock.Some? && ValidClock(clock.value) && offset.Some?)
      && (r.status != Success ==> after == t && r.payload == NoPayload)
      && (!(clock.Some? && ValidClock(clock.value) && offset.Some?) ==> r == Reply(Error, BadTimeMessage))
      && (clock.Some? && ValidClock(clock.value) && offset.Some? && !storeUp ==> r == Reply(Error, SetFailedMessage))
      && (r.status == Success ==>
            var at := r.payload.alarmTime;
            && r.payload == AlarmSet(AlarmId(|t.alarms|), at)
            && after.alarms == t.alarms + [AlarmDoc(AlarmId(|t.alarms|), userId, at, repeat, alarmLabel, true, stamp)]
            && now < at <= now + MinutesPerDay
            && LocalMinuteOfDay(at, offset.value) == clock.value.hour * 60 + clock.value.minute
            && r.message == Some("Alarm set for " + Clock12(at))
            && (schedulerUp ==> after.jobs[AlarmJobId(r.payload.alarmId)] == AlarmJob(at, r.payload.alarmId, userId))
            && (!schedulerUp ==> after.jobs == t.jobs))
  {
  }

  /** The outcome of `delete_recent_alarm`. */
  function DeleteEffect(t: AlarmTables, storeUp: bool, userId: string): (AlarmTables, ActionResult) {
    if !storeUp then (t, Reply(Error, DeleteFailedMessage))
    else match MostRecentActive(t.alarms, userId)
      case None => (t, Reply(NotFound, NoActiveMessage))
      case Some(k) =>
        (AlarmTables(t.alarms[k := t.alarms[k].(active := false)], t.jobs - {AlarmJobId(t.alarms[k].id)}),
         Reply(Success, DeletedMessage))
  }

  /** A deletion reports `not_found` exactly when the user has no active alarm, and then
      changes nothing; otherwise it deactivates one alarm of the user, the newest, changes
      no other field and no other alarm, and drops its job, present or not. */
  lemma DeleteEffectCases(t: AlarmTables, userId: string)
    ensures var (after, r) := DeleteEffect(t, true, userId);
      && (r.status == NotFound <==> forall i :: 0 <= i < |t.alarms| ==> !ActiveOf(t.alarms[i], userId))
      && (r.status == NotFound ==> after == t && r == Reply(NotFound, NoActiveMessage))
      && (r.status != NotFound ==>
            r == Reply(Success, DeletedMessage) && |after.alarms| == |t.alarms| &&
            exists k :: 0 <= k < |t.alarms| && ActiveOf(t.alarms[k], userId)
              && (forall i :: 0 <= i < |t.alarms| && ActiveOf(t.alarms[i], userId) ==> t.alarms[i].createdAt <= t.alarms[k].createdAt)
              && after.alarms[k] == t.alarms[k].(active := false)
              && (forall i :: 0 <= i < |t.alarms| && i != k ==> after.alarms[i] == t.alarms[i])
              && after.jobs == t.jobs - {AlarmJobId(t.alarms[k].id)})
    ensures DeleteEffect(t, false, userId) == (t, Reply(Error, DeleteFailedMessage))
  {
    MostRecentActiveIsNewest(t.alarms, userId);
  }

  class AlarmService {
    /** The alarm collection in insertion order; the i-th document has id `AlarmId(i)`. */
    var alarms: seq<AlarmDoc>
    /** The scheduler's job table, keyed by job id. */
    var jobs: map<string, AlarmJob>
    /** Whether the alarm store answers; when it does not, every store call raises. */
    const storeUp: bool
    /** Whether `add_job` succeeds; its failure is logged and ignored. */
    const schedulerUp: bool

    ghost predicate Valid()
      reads this
    {
      && (forall i :: 0 <= i < |alarms| ==> alarms[i].id == AlarmId(i))
      && JobsOfActiveAlarms(alarms, jobs)
    }

    function Tables(): AlarmTables
      reads this
    {
      AlarmTables(alarms, jobs)
    }

    constructor (storeUp: bool, schedulerUp: bool)
      ensures Valid() && alarms == [] && jobs == map[]
      ensures this.storeUp == storeUp && this.schedulerUp == schedulerUp
    {
      alarms, jobs := [], map[];
      this.storeUp, this.schedulerUp := storeUp, schedulerUp;
    }

    /** `set_alarm`, keeping every pending job tied to an active alarm. */
    method SetAlarm(lib: TimeLib, userId: string, time: string, timezone: Value, repeat: bool,
                    alarmLabel: Option<string>, now: int, stamp: int) returns (r: ActionResult)
      requires Valid()
      modifies this
      ensures Valid()
      ensures (Tables(), r) ==
        SetAlarmEffect(old(Tables()), storeUp, schedulerUp, lib, userId, time, timezone, repeat, alarmLabel, now, stamp)
    {
      var parsed := ParseAlarmTime(lib, time, timezone, now);
      if parsed.None? {
        return Reply(Error, BadTimeMessage);
      }
      if !storeUp {
        return Reply(Error, SetFailedMessage);
      }
      var at := parsed.value;
      var id := AlarmId(|alarms|);
      var doc := AlarmDoc(id, userId, at, repeat, alarmLabel, true, stamp);
      AppendKeepsJobs(alarms, jobs, doc);
      alarms := alarms + [doc];
      assert alarms[|alarms| - 1] == doc;
      ScheduleAlarm(id, userId, at);
      r := ActionResult(Success, Some("Alarm set for " + Clock12(at)), AlarmSet(id, at));
    }

    /** `_schedule_alarm`: puts job `alarm_<id>` in place of any job of that id; a scheduler
        failure leaves the table as it was and is not reported. */
    method ScheduleAlarm(alarmId: string, userId: string, at: int)
      requires JobsOfActiveAlarms(alarms, jobs)
      requires exists k :: 0 <= k < |alarms| && alarms[k].id == alarmId && alarms[k].active
                           && alarms[k].userId == userId && alarms[k].alarmTime == at
      modifies this
      ensures alarms == old(alarms)
      ensures JobsOfActiveAlarms(alarms, jobs)
      ensures jobs == (if schedulerUp then old(jobs)[AlarmJobId(alarmId) := AlarmJob(at, alarmId, userId)] else old(jobs))
    {
      if schedulerUp {
        jobs := jobs[AlarmJobId(alarmId) := AlarmJob(at, alarmId, userId)];
      }
    }

    /** `delete_recent_alarm`, keeping every pending job tied to an active alarm. */
    method DeleteRecentAlarm(userId: string) returns (r: ActionResult)
      requires Valid()
      modifies this
      ensures Valid()
      ensures (Tables(), r) == DeleteEffect(old(Tables()), storeUp, userId)
    {
      if !storeUp {
        return Reply(Error, DeleteFailedMessage);
      }
      var found := MostRecentActive(alarms, userId);
      if found.None? {
        return Reply(NotFound, NoActiveMessage);
      }
      var k := found.value;
      var gone := alarms[k].id;
      var alarms' := alarms[k := alarms[k].(active := false)];
      var jobs' := jobs - {AlarmJobId(gone)};
      forall j | j in jobs'
        ensures exists i :: 0 <= i < |alarms'| && alarms'[i].id == jobs'[j].alarmId && alarms'[i].active
                            && alarms'[i].userId == jobs'[j].userId && alarms'[i].alarmTime == jobs'[j].runAt
      {
        var i :| 0 <= i < |alarms| && alarms[i].id == jobs[j].alarmId && alarms[i].active
                 && alarms[i].userId == jobs[j].userId && alarms[i].alarmTime == jobs[j].runAt;
        assert i != k;
        assert alarms'[i] == alarms[i];
      }
      alarms, jobs := alarms', jobs';
      r := Reply(Success, DeletedMessage);
    }

    /** `get_user_alarms`: the first 100 of the user's active alarms by alarm time (store order
        among equal times); a store failure propagates. */
    function GetUserAlarms(userId: string): (r: Result<seq<AlarmDoc>, string>)
      reads this
      ensures !storeUp <==> r.Err?
      ensures r.Ok? ==> ListedFacts(alarms, userId, r.value)
    {
      if !storeUp then Err("alarm store unavailable")
      else
        ListedAlarmsFacts(alarms, userId);
        Ok(ListedAlarms(alarms, userId))
    }
  }

  /** `.find({user_id, active: True}).sort("alarm_time", 1).to_list(length=100)`. */
  function ListedAlarms(alarms: seq<AlarmDoc>, userId: string): seq<AlarmDoc> {
    Take(SortBy(ActiveAlarms(alarms, userId), AlarmTimeOf), MaxListed)
  }

  /** `listed` is the first 100 of the user's active alarms by alarm time: as many as there
      are up to 100, ascending, each a stored active alarm of the user, all of them when
      there are at most 100, and none left out earlier than one listed. */
  ghost predicate ListedFacts(alarms: seq<AlarmDoc>, userId: string, listed: seq<AlarmDoc>) {
    var active := ActiveAlarms(alarms, userId);
    && |listed| == (if |active| <= MaxListed then |active| else MaxListed)
    && SortedBy(listed, AlarmTimeOf)
    && (forall a :: a in listed ==> a in alarms && ActiveOf(a, userId))
    && multiset(listed) <= multiset(active)
    && (|active| <= MaxListed ==> multiset(listed) == multiset(active))
    && (forall x, y :: x in multiset(active) - multiset(listed) && y in listed ==> AlarmTimeOf(y) <= AlarmTimeOf(x))
  }

  lemma ListedAlarmsFacts(alarms: seq<AlarmDoc>, userId: string)
    ensures ListedFacts(alarms, userId, ListedAlarms(alarms, userId))
  {
    var active := ActiveAlarms(alarms, userId);
    var listed := ListedAlarms(alarms, userId);
    TakeSortByFacts(active, AlarmTimeOf, MaxListed);
    assert multiset(listed) <= multiset(active);
    SubMultisetMembers(listed, active);
    assert forall x, y :: x in multiset(active) - multiset(listed) && y in listed ==> AlarmTimeOf(y) <= AlarmTimeOf(x);
  }
}
