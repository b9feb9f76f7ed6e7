/** Automatic log clearing: the `AUTO_CLEAR_LOGS` / `AUTO_CLEAR_INTERVAL`
    settings, the timer (app.py) or task (main.py) that clears the log
    buffer, the route that toggles them, and the reports of the interval in
    minutes. The interval is stored in seconds throughout. */
module AutoClear {
  import opened Python
  import opened Lifecycle
  import opened Logs

  /** `AUTO_CLEAR_INTERVAL // 60` (the divisor is positive, so Dafny's `/`
      is Python's floor division here). */
  function Minutes(seconds: int): (m: int)
    ensures m * 60 <= seconds < m * 60 + 60
  {
    seconds / 60
  }

  lemma MinutesRoundTrip(m: int)
    ensures Minutes(m * 60) == m
  {
    assert m * 60 / 60 == m;
  }

  // ---------------------------------------------------------------------
  // app.py: a `threading.Timer` per scheduled clear
  // ---------------------------------------------------------------------

  /** A timer's lifecycle. */
  datatype TimerState = Pending | Cancelled | Fired

  /** A `threading.Timer(AUTO_CLEAR_INTERVAL, clear_logs_task)`. */
  datatype Timer = Timer(delay: int, state: TimerState)

  /** app.py's globals: `AUTO_CLEAR_LOGS` holds whatever JSON value the
      last toggle sent, `AUTO_CLEAR_INTERVAL` counts seconds; `timers` is
      every timer ever created, and `current` the one `log_clear_timer`
      holds. The log buffer itself is a `LogBuffer`. */
  datatype AppState = AppState(enabled: Json, interval: int, timers: seq<Timer>, current: Option<nat>)

  /** The values at import time. */
  const AppInitial: AppState := AppState(JBool(true), 5 * 60, [], None)

  /** `log_clear_timer.cancel()` when it holds a timer: a pending one will
      not fire; one that fired already is unaffected. */
  function CancelCurrent(s: AppState): (r: seq<Timer>)
    ensures |r| == |s.timers|
  {
    if s.current.Some? && s.current.value < |s.timers| && s.timers[s.current.value].state == Pending
    then s.timers[s.current.value := Timer(s.timers[s.current.value].delay, Cancelled)]
    else s.timers
  }

  /** `schedule_log_clearing`: cancel the held timer, then start a new one
      with the current interval when auto-clear is truthy. */
  function AppSchedule(s: AppState): AppState {
    var cancelled := CancelCurrent(s);
    if Truthy(s.enabled) then s.(timers := cancelled + [Timer(s.interval, Pending)], current := Some(|s.timers|))
    else s.(timers := cancelled)
  }

  /** `interval in data and isinstance(interval, int) and interval >= 1`. */
  predicate AcceptedInterval(data: map<string, Json>) {
    "interval" in data && IsPyInt(data["interval"]) && PyIntValue(data["interval"]) >= 1
  }

  /** The route's answer: the stored auto-clear value and the interval in
      minutes. */
  datatype AppReply = AppReply(enabled: Json, minutes: int)

  /** `POST /api/toggle-auto-clear` over the request's JSON object. */
  function AppToggle(s: AppState, data: map<string, Json>): (AppState, AppReply) {
    var afterEnabled :=
      if "enabled" in data then
        var e := s.(enabled := data["enabled"]);
        if Truthy(e.enabled) then AppSchedule(e) else e.(timers := CancelCurrent(e))
      else s;
    var afterInterval :=
      if AcceptedInterval(data) then
        var i := afterEnabled.(interval := PyIntValue(data["interval"]) * 60);
        if Truthy(i.enabled) then AppSchedule(i) else i
      else afterEnabled;
    (afterInterval, AppReply(afterInterval.enabled, Minutes(afterInterval.interval)))
  }

  /** The `logs_cleared` message of `clear_logs_task`. */
  function AppClearedMessage(n: nat): string {
    "Logs limpos automaticamente. " + NatToStr(n) + " entradas removidas."
  }

  /** Timer `i` fires `clear_logs_task` with `count` entries in the log
      buffer: when auto-clear is truthy the buffer is cleared, the removal
      announced, and the next clear scheduled. */
  function AppFire(s: AppState, i: nat, count: nat): (AppState, Option<string>)
    requires i < |s.timers| && s.timers[i].state == Pending
  {
    var fired := s.(timers := s.timers[i := Timer(s.timers[i].delay, Fired)]);
    if Truthy(s.enabled) then (AppSchedule(fired), Some(AppClearedMessage(count)))
    else (fired, None)
  }

  /** The two auto-clear fields of `GET /api/status`: the interval is
      reported in seconds, unconverted. */
  function AppStatus(s: AppState): (Json, int) {
    (s.enabled, s.interval)
  }

  /** What app.py keeps true: `log_clear_timer` indexes a created timer,
      the only timer that can still fire is the held one, it uses the
      current interval and exists only while auto-clear is truthy; the
      interval is a whole, positive number of minutes. */
  predicate AppInv(s: AppState) {
    && AppHeldOnly(s)
    && (forall i :: 0 <= i < |s.timers| && s.timers[i].state == Pending ==>
          s.timers[i].delay == s.interval && Truthy(s.enabled))
  }

  /** The part of the invariant that holds mid-route too: only the held
      timer can be pending, and the interval is whole minutes. */
  predicate AppHeldOnly(s: AppState) {
    && (s.current.Some? ==> s.current.value < |s.timers|)
    && (forall i :: 0 <= i < |s.timers| && s.timers[i].state == Pending ==> s.current == Some(i))
    && s.interval >= 60 && s.interval % 60 == 0
  }

  /** A timer is pending. */
  predicate AppArmed(s: AppState) {
    s.current.Some? && s.current.value < |s.timers| && s.timers[s.current.value].state == Pending
  }

  /** The `__main__` block schedules the first clear. */
  lemma AppStartupInv()
    ensures AppInv(AppSchedule(AppInitial))
    ensures AppArmed(AppSchedule(AppInitial))
  {
  }

  lemma CancelCurrentNonePending(s: AppState)
    requires AppInv(s)
    ensures forall i :: 0 <= i < |CancelCurrent(s)| ==> CancelCurrent(s)[i].state != Pending
  {
    var r := CancelCurrent(s);
    forall i | 0 <= i < |r|
      ensures r[i].state != Pending
    {
      if s.timers[i].state == Pending {
        assert s.current == Some(i);
      }
    }
  }

  /** Scheduling keeps the invariant, leaving exactly the new timer pending
      when auto-clear is truthy and none otherwise. */
  lemma AppScheduleInv(s: AppState)
    requires AppHeldOnly(s)
    ensures var r := AppSchedule(s); AppInv(r) && (AppArmed(r) <==> Truthy(s.enabled))
  {
    var r := AppSchedule(s);
    var c := CancelCurrent(s);
    forall i | 0 <= i < |c|
      ensures c[i].state != Pending
    {
      if s.timers[i].state == Pending {
        assert s.current == Some(i);
      }
    }
    if Truthy(s.enabled) {
      assert r.timers == c + [Timer(s.interval, Pending)];
      forall i | 0 <= i < |r.timers|
        ensures r.timers[i].state == Pending ==> i == |c|
      {
        if i < |c| {
          assert r.timers[i] == c[i];
        }
      }
    }
  }

  /** A toggle keeps the invariant. */
  lemma AppToggleInv(s: AppState, data: map<string, Json>)
    requires AppInv(s)
    ensures AppInv(AppToggle(s, data).0)
  {
    var afterEnabled :=
      if "enabled" in data then
        var e := s.(enabled := data["enabled"]);
        if Truthy(e.enabled) then AppSchedule(e) else e.(timers := CancelCurrent(e))
      else s;
    if "enabled" in data {
      var e := s.(enabled := data["enabled"]);
      if Truthy(e.enabled) {
        AppScheduleInv(e);
      } else {
        CancelCurrentNonePending(s);
      }
    }
    assert AppInv(afterEnabled);
    if AcceptedInterval(data) {
      var m := PyIntValue(data["interval"]);
      var i := afterEnabled.(interval := m * 60);
      assert i.interval % 60 == 0 by {
        assert m * 60 % 60 == 0;
      }
      if Truthy(i.enabled) {
        AppScheduleInv(i);
      } else {
        assert forall k :: 0 <= k < |i.timers| ==> i.timers[k].state != Pending;
      }
    }
  }

  /** A timer firing keeps the invariant. */
  lemma AppFireInv(s: AppState, i: nat, count: nat)
    requires AppInv(s) && i < |s.timers| && s.timers[i].state == Pending
    ensures AppInv(AppFire(s, i, count).0)
  {
    var fired := s.(timers := s.timers[i := Timer(s.timers[i].delay, Fired)]);
    forall k | 0 <= k < |fired.timers| && fired.timers[k].state == Pending
      ensures fired.current == Some(k)
    {
      assert s.timers[k].state == Pending;
    }
    AppScheduleInv(fired);
  }

  /** Hence at most one clear is ever pending. */
  lemma AppOnePending(s: AppState, i: nat, j: nat)
    requires AppInv(s)
    requires i < |s.timers| && j < |s.timers| && s.timers[i].state == Pending && s.timers[j].state == Pending
    ensures i == j
  {
  }

  /** The interval part of the toggle: accepted only as an `int` (a `bool`
      included) of at least 1, stored times 60 and reported back in
      minutes; anything else leaves it and reports the old value. */
  lemma AppToggleInterval(s: AppState, data: map<string, Json>)
    ensures var (r, reply) := AppToggle(s, data);
      && (AcceptedInterval(data) ==>
            r.interval == PyIntValue(data["interval"]) * 60 && reply.minutes == PyIntValue(data["interval"]))
      && (!AcceptedInterval(data) ==> r.interval == s.interval && reply.minutes == Minutes(s.interval))
  {
    if AcceptedInterval(data) {
      MinutesRoundTrip(PyIntValue(data["interval"]));
    }
  }

  /** The auto-clear flag is stored as sent, whatever its JSON type, and
      reported back unchanged. */
  lemma AppToggleEnabled(s: AppState, data: map<string, Json>)
    ensures var (r, reply) := AppToggle(s, data);
      && r.enabled == (if "enabled" in data then data["enabled"] else s.enabled)
      && reply.enabled == r.enabled
  {
  }

  /** `{"interval": true}` is an `int` of at least 1: one minute. */
  lemma AppToggleTrueInterval(s: AppState)
    ensures var (r, reply) := AppToggle(s, map["interval" := JBool(true)]);
      r.interval == 60 && reply.minutes == 1
  {
    AppToggleInterval(s, map["interval" := JBool(true)]);
  }

  /** `{"enabled": "false"}` is a non-empty string, hence truthy: it turns
      auto-clear on and arms a timer. */
  lemma AppToggleStringFalseEnables(s: AppState)
    requires AppInv(s)
    ensures var r := AppToggle(s, map["enabled" := JStr("false")]).0;
      Truthy(r.enabled) && AppArmed(r)
  {
    var data := map["enabled" := JStr("false")];
    assert !AcceptedInterval(data);
    AppScheduleInv(s.(enabled := JStr("false")));
  }

  /** After a toggle a timer is pending exactly when auto-clear is truthy. */
  lemma AppToggleArms(s: AppState, data: map<string, Json>)
    requires AppInv(s) && AppArmed(s) == Truthy(s.enabled)
    ensures var r := AppToggle(s, data).0; AppArmed(r) <==> Truthy(r.enabled)
  {
    var afterEnabled :=
      if "enabled" in data then
        var e := s.(enabled := data["enabled"]);
        if Truthy(e.enabled) then AppSchedule(e) else e.(timers := CancelCurrent(e))
      else s;
    if "enabled" in data {
      var e := s.(enabled := data["enabled"]);
      if Truthy(e.enabled) {
        AppScheduleInv(e);
      } else {
        CancelCurrentNonePending(s);
      }
    }
    AppToggleInv(s, data);
    assert AppInv(afterEnabled) && (AppArmed(afterEnabled) <==> Truthy(afterEnabled.enabled));
    if AcceptedInterval(data) {
      var m := PyIntValue(data["interval"]);
      var i := afterEnabled.(interval := m * 60);
      assert i.interval % 60 == 0 by {
        assert m * 60 % 60 == 0;
      }
      if Truthy(i.enabled) {
        AppScheduleInv(i);
      }
    }
  }

  /** Status and toggle disagree on units: after setting `m` minutes the
      toggle reports `m`, the status route `60 * m`. */
  lemma AppStatusInSeconds(s: AppState, m: int)
    requires m >= 1
    ensures var (r, reply) := AppToggle(s, map["interval" := JInt(m)]);
      reply.minutes == m && AppStatus(r).1 == 60 * m
  {
    AppToggleInterval(s, map["interval" := JInt(m)]);
  }

  /** A fire from a reachable state always finds auto-clear truthy: it
      announces how many entries went, and re-arms with the current
      interval. */
  lemma AppFireClears(s: AppState, i: nat, count: nat)
    requires AppInv(s) && i < |s.timers| && s.timers[i].state == Pending
    ensures var (r, msg) := AppFire(s, i, count);
      msg == Some(AppClearedMessage(count)) && AppArmed(r)
      && r.timers[r.current.value].delay == s.interval
  {
    var fired := s.(timers := s.timers[i := Timer(s.timers[i].delay, Fired)]);
    forall k | 0 <= k < |fired.timers| && fired.timers[k].state == Pending
      ensures fired.current == Some(k)
    {
      assert s.timers[k].state == Pending;
    }
    AppScheduleInv(fired);
  }

  /** app.py's auto-clear globals, updated in place by the route, the
      startup code and the timers. */
  class AppAutoClear {
    var enabled: Json
    var interval: int
    /** Every timer created so far (what the running timer threads see). */
    var timers: seq<Timer>
    var current: Option<nat>

    function State(): AppState
      reads this
    {
      AppState(enabled, interval, timers, current)
    }

    constructor ()
      ensures State() == AppInitial
    {
      enabled := JBool(true);
      interval := 5 * 60;
      timers := [];
      current := None;
    }

    method CancelHeld()
      modifies this
      ensures State() == old(State()).(timers := CancelCurrent(old(State())))
    {
      if current.Some? && current.value < |timers| && timers[current.value].state == Pending {
        timers := timers[current.value := Timer(timers[current.value].delay, Cancelled)];
      }
    }

    /** `schedule_log_clearing` */
    method Schedule()
      modifies this
      ensures State() == AppSchedule(old(State()))
    {
      CancelHeld();
      if Truthy(enabled) {
        current := Some(|timers|);
        timers := timers + [Timer(interval, Pending)];
      }
    }

    /** `POST /api/toggle-auto-clear` */
    method Toggle(data: map<string, Json>) returns (reply: AppReply)
      modifies this
      ensures (State(), reply) == AppToggle(old(State()), data)
    {
      if "enabled" in data {
        enabled := data["enabled"];
        if Truthy(enabled) {
          Schedule();
        } else {
          CancelHeld();
        }
      }
      if "interval" in data && IsPyInt(data["interval"]) && PyIntValue(data["interval"]) >= 1 {
        interval := PyIntValue(data["interval"]) * 60;
        if Truthy(enabled) {
          Schedule();
        }
      }
      reply := AppReply(enabled, interval / 60);
    }

    /** Timer `i` runs `clear_logs_task` on the log buffer: the clear's own
        logger line lands in the emptied buffer. */
    method Fire(i: nat, buffer: LogBuffer) returns (announced: Option<string>)
      requires i < |timers| && timers[i].state == Pending && buffer.Valid()
      modifies this, buffer
      ensures buffer.Valid()
      ensures (State(), announced) == AppFire(old(State()), i, old(|buffer.entries|))
      ensures announced.Some? ==> buffer.entries == [announced.value]
      ensures announced.None? ==> buffer.entries == old(buffer.entries)
    {
      timers := timers[i := Timer(timers[i].delay, Fired)];
      if Truthy(enabled) {
        var message := AppClearedMessage(|buffer.entries|);
        var _ := buffer.ClearAndAnnounce(message);
        announced := Some(message);
        Schedule();
      } else {
        announced := None;
      }
    }
  }

  // ---------------------------------------------------------------------
  // main.py: one asyncio task loops sleeping and clearing
  // ---------------------------------------------------------------------

  /** main.py's globals: `AUTO_CLEAR_LOGS`, `AUTO_CLEAR_INTERVAL` in
      seconds, whether each clearing task ever created is still running,
      and the one `log_clear_task` holds. What a task does when it wakes is
      `LogBuffer.AutoClearIfNonEmpty`. */
  datatype MainState = MainState(enabled: bool, interval: int, tasks: seq<bool>, current: Option<nat>)

  /** The values at import time, before the startup event. */
  const MainInitial: MainState := MainState(true, 15 * 60, [], None)

  /** `if log_clear_task and not log_clear_task.done(): log_clear_task.cancel()` */
  function CancelTask(s: MainState): (r: MainState)
    ensures |r.tasks| == |s.tasks|
  {
    if s.current.Some? && s.current.value < |s.tasks| then s.(tasks := s.tasks[s.current.value := false])
    else s
  }

  /** `log_clear_task = asyncio.create_task(schedule_log_clearing_async())` */
  function CreateTask(s: MainState): MainState {
    s.(tasks := s.tasks + [true], current := Some(|s.tasks|))
  }

  /** The startup event starts the task when auto-clear is on. */
  function MainStartup(s: MainState): MainState {
    if s.enabled then CreateTask(s) else s
  }

  /** The body of `toggle_auto_clear_api`, after validation. */
  datatype Settings = Settings(enabled: Option<bool>, interval: Option<int>)

  /** A successful answer, an `HTTPException`, or the validation error
      (422) the settings model raises before the body runs. */
  datatype MainReply = Success(message: string) | HttpFailure(status: int, detail: string) | Unprocessable

  const NoSettings: string := "Nenhuma configuração fornecida (enabled ou interval)"

  function EnabledMessage(on: bool): string {
    "Limpeza automática " + (if on then "ativada" else "desativada") + "."
  }

  function IntervalMessage(m: int): string {
    "Intervalo de limpeza definido para " + IntToStr(m) + " minutos."
  }

  /** `" ".join(response_message)` */
  function JoinSpace(parts: seq<string>): string
    decreases |parts|
  {
    if parts == [] then "" else if |parts| == 1 then parts[0] else parts[0] + " " + JoinSpace(parts[1..])
  }

  /** The toggle's `enabled` field: store it, cancel the held task, and
      start a new one when auto-clear is now on. */
  function ApplyEnabled(s: MainState, enabled: Option<bool>): MainState {
    if enabled.Some? then
      var e := CancelTask(s.(enabled := enabled.value));
      if e.enabled then CreateTask(e) else e
    else s
  }

  /** The toggle's `interval` field: store it in seconds and restart the
      task when auto-clear is on. */
  function ApplyInterval(s: MainState, interval: Option<int>): MainState {
    if interval.Some? then
      var i := s.(interval := interval.value * 60);
      if i.enabled then CreateTask(CancelTask(i)) else i
    else s
  }

  /** `POST /api/toggle-auto-clear` */
  function MainToggle(s: MainState, settings: Settings): (MainState, MainReply) {
    if settings.interval.Some? && !(1 <= settings.interval.value <= 60) then (s, Unprocessable)
    else
      var afterEnabled := ApplyEnabled(s, settings.enabled);
      var afterInterval := ApplyInterval(afterEnabled, settings.interval);
      var messages :=
        (if settings.enabled.Some? then [EnabledMessage(settings.enabled.value)] else [])
        + (if settings.interval.Some? then [IntervalMessage(settings.interval.value)] else []);
      if messages == [] then (afterInterval, HttpFailure(400, NoSettings))
      else (afterInterval, Success(JoinSpace(messages)))
  }

  /** `get_status`'s auto-clear fields: the interval in minutes. */
  function MainStatus(s: MainState): (bool, int) {
    (s.enabled, Minutes(s.interval))
  }

  /** What main.py keeps true once started: only the held task runs, it
      runs exactly when auto-clear is on, and the interval is a whole number
      of minutes from 1 to 60. */
  predicate MainInv(s: MainState) {
    && (s.current.Some? ==> s.current.value < |s.tasks|)
    && (forall i :: 0 <= i < |s.tasks| && s.tasks[i] ==> s.current == Some(i))
    && (s.enabled <==> s.current.Some? && s.tasks[s.current.value])
    && 60 <= s.interval <= 3600 && s.interval % 60 == 0
  }

  lemma MainStartupInv()
    ensures MainInv(MainStartup(MainInitial))
  {
  }

  lemma CancelCreateInv(s: MainState)
    requires s.current.Some? ==> s.current.value < |s.tasks|
    requires forall i :: 0 <= i < |s.tasks| && s.tasks[i] ==> s.current == Some(i)
    ensures var c := CancelTask(s);
      (forall i :: 0 <= i < |c.tasks| ==> !c.tasks[i])
      && var n := CreateTask(c);
         n.current == Some(|s.tasks|) && n.tasks[|s.tasks|]
         && forall i :: 0 <= i < |n.tasks| && n.tasks[i] ==> n.current == Some(i)
  {
    var c := CancelTask(s);
    forall i | 0 <= i < |c.tasks|
      ensures !c.tasks[i]
    {
      if s.tasks[i] {
        assert s.current == Some(i);
      }
    }
    var n := CreateTask(c);
    forall i | 0 <= i < |n.tasks|
      ensures n.tasks[i] ==> i == |c.tasks|
    {
      if i < |c.tasks| {
        assert n.tasks[i] == c.tasks[i];
      }
    }
  }

  lemma ApplyEnabledInv(s: MainState, enabled: Option<bool>)
    requires MainInv(s)
    ensures MainInv(ApplyEnabled(s, enabled))
  {
    if enabled.Some? {
      CancelCreateInv(s.(enabled := enabled.value));
    }
  }

  lemma ApplyIntervalInv(s: MainState, interval: Option<int>)
    requires MainInv(s) && (interval.Some? ==> 1 <= interval.value <= 60)
    ensures MainInv(ApplyInterval(s, interval))
  {
    if interval.Some? {
      var m := interval.value;
      var i := s.(interval := m * 60);
      assert i.interval % 60 == 0 by {
        assert m * 60 % 60 == 0;
      }
      if i.enabled {
        CancelCreateInv(i);
      }
    }
  }

  /** A toggle keeps the invariant. */
  lemma MainToggleInv(s: MainState, settings: Settings)
    requires MainInv(s)
    ensures MainInv(MainToggle(s, settings).0)
  {
    if !(settings.interval.Some? && !(1 <= settings.interval.value <= 60)) {
      ApplyEnabledInv(s, settings.enabled);
      ApplyIntervalInv(ApplyEnabled(s, settings.enabled), settings.interval);
    }
  }

  /** The toggle's outcomes: an out-of-range interval is refused before
      anything changes; with neither field the answer is 400 and nothing
      changes; otherwise a set interval is stored in seconds and the status
      route reports it back in minutes. */
  lemma MainToggleOutcomes(s: MainState, settings: Settings)
    ensures var (r, reply) := MainToggle(s, settings);
      && (settings.interval.Some? && !(1 <= settings.interval.value <= 60) ==> r == s && reply == Unprocessable)
      && (settings == Settings(None, None) ==> r == s && reply == HttpFailure(400, NoSettings))
      && (settings.interval.Some? && 1 <= settings.interval.value <= 60 ==>
            reply.Success? && r.interval == settings.interval.value * 60
            && MainStatus(r).1 == settings.interval.value)
      && (settings.enabled.Some? && !(settings.interval.Some? && !(1 <= settings.interval.value <= 60)) ==>
            reply.Success? && r.enabled == settings.enabled.value)
      && (settings.enabled.None? ==> r.enabled == s.enabled)
  {
    if settings.interval.Some? {
      MinutesRoundTrip(settings.interval.value);
    }
  }

  /** The reply names each setting given, in order. */
  lemma MainToggleMessage(s: MainState, on: bool, m: int)
    requires 1 <= m <= 60
    ensures MainToggle(s, Settings(Some(on), Some(m))).1
            == Success(EnabledMessage(on) + " " + IntervalMessage(m))
  {
    var parts := [EnabledMessage(on)] + [IntervalMessage(m)];
    assert parts[1..] == [IntervalMessage(m)];
    assert JoinSpace(parts) == EnabledMessage(on) + " " + IntervalMessage(m);
  }

  /** Once started, the status route's minutes times 60 are the stored
      interval. */
  lemma MainStatusRoundTrip(s: MainState)
    requires MainInv(s)
    ensures 1 <= MainStatus(s).1 <= 60 && MainStatus(s).1 * 60 == s.interval
  {
  }

  /** main.py's auto-clear globals, updated in place by the startup event,
      and the route. */
  class MainAutoClear {
    var enabled: bool
    var interval: int
    var tasks: seq<bool>
    var current: Option<nat>

    function State(): MainState
      reads this
    {
      MainState(enabled, interval, tasks, current)
    }

    constructor ()
      ensures State() == MainInitial
    {
      enabled := true;
      interval := 15 * 60;
      tasks := [];
      current := None;
    }

    method CancelHeld()
      modifies this
      ensures State() == CancelTask(old(State()))
    {
      if current.Some? && current.value < |tasks| {
        tasks := tasks[current.value := false];
      }
    }

    method StartTask()
      modifies this
      ensures State() == CreateTask(old(State()))
    {
      current := Some(|tasks|);
      tasks := tasks + [true];
    }

    /** The startup event. */
    method Startup()
      modifies this
      ensures State() == MainStartup(old(State()))
    {
      if enabled {
        StartTask();
      }
    }

    /** `POST /api/toggle-auto-clear` */
    method Toggle(settings: Settings) returns (reply: MainReply)
      modifies this
      ensures (State(), reply) == MainToggle(old(State()), settings)
    {
      if settings.interval.Some? && !(1 <= settings.interval.value <= 60) {
        return Unprocessable;
      }
      var messages: seq<string> := [];
      if settings.enabled.Some? {
        enabled := settings.enabled.value;
        messages := messages + [EnabledMessage(enabled)];
        CancelHeld();
        if enabled {
          StartTask();
        }
      }
      if settings.interval.Some? {
        interval := settings.interval.value * 60;
        messages := messages + [IntervalMessage(settings.interval.value)];
        if enabled {
          CancelHeld();
          StartTask();
        }
      }
      if messages == [] {
        return HttpFailure(400, NoSettings);
      }
      reply := Success(JoinSpace(messages));
    }
  }

  // ---------------------------------------------------------------------
  // templates/main.py: the status sent when a Socket.IO client connects
  // ---------------------------------------------------------------------

  /** The `status_update` sent to a connecting client. */
  datatype ConnectStatus = ConnectStatus(connected: bool, userInfo: UserInfo, currentSession: Option<string>,
                                         autoClear: bool, minutes: int)

  function ConnectSnapshot(connected: bool, userInfo: UserInfo, currentSession: Option<string>,
                           enabled: bool, interval: int): (r: ConnectStatus)
    ensures r.connected == connected && r.userInfo == userInfo && r.currentSession == currentSession
    ensures r.autoClear == enabled
    ensures r.minutes * 60 <= interval < r.minutes * 60 + 60
  {
    ConnectStatus(connected, userInfo, currentSession, enabled, Minutes(interval))
  }

  /** With the module's initial interval a client is told 5 minutes. */
  lemma ConnectSnapshotInitial(connected: bool, userInfo: UserInfo, currentSession: Option<string>)
    ensures ConnectSnapshot(connected, userInfo, currentSession, true, 5 * 60).minutes == 5
  {
  }
}
