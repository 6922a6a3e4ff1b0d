/**
 * Local notifications (utils/notifications.ts): the "currently viewing" flag,
 * the 24-hour event reminder and its bookkeeping in the device key/value store,
 * and the routing of a tapped notification.
 */
module Notifications {
  import opened Wrappers
  import opened Text

  const REMINDER_KEY_PREFIX := "event_reminder_"
  /** 24 * 60 * 60 * 1000 milliseconds. */
  const DAY_MS := 86_400_000
  const REMINDER_BODY := "Zostało 24 godziny do rozpoczęcia wydarzenia"

  /** The store key a reminder for `eventId` is kept under. */
  function ReminderKey(eventId: string): (k: string)
    ensures StartsWith(k, REMINDER_KEY_PREFIX) && k[|REMINDER_KEY_PREFIX|..] == eventId
  {
    REMINDER_KEY_PREFIX + eventId
  }

  /** `Math.ceil(a / b)` for a positive divisor, computed exactly on integers. */
  function CeilDiv(a: int, b: int): (q: int)
    requires b > 0
    ensures (q - 1) * b < a <= q * b
  {
    -((-a) / b)
  }

  /**
   * The delay in seconds `scheduleEventReminder` asks for, or `None` when it
   * returns early. The source reads the clock twice: `nowAtGuard` for the
   * "too late" test and `nowAtDelay` for the delay.
   */
  function ReminderDelay(eventMs: int, nowAtGuard: int, nowAtDelay: int): (r: Option<int>)
    ensures eventMs - DAY_MS <= nowAtGuard ==> r == None
    // past the first guard, only a non-positive ceiling stops the reminder
    ensures eventMs - DAY_MS > nowAtGuard ==> (r.Some? <==> CeilDiv(eventMs - DAY_MS - nowAtDelay, 1000) > 0)
    ensures r.Some? ==> r.value >= 1
    ensures r.Some? ==> (r.value - 1) * 1000 < eventMs - DAY_MS - nowAtDelay <= r.value * 1000
  {
    var remindAt := eventMs - DAY_MS;
    if remindAt <= nowAtGuard then None
    else
      var seconds := CeilDiv(remindAt - nowAtDelay, 1000);
      if seconds <= 0 then None else Some(seconds)
  }

  /** With a single clock reading the `seconds <= 0` guard never fires: a reminder still ahead is always scheduled. */
  lemma SingleReadingAlwaysSchedules(eventMs: int, now: int)
    requires eventMs - DAY_MS > now
    ensures ReminderDelay(eventMs, now, now).Some?
  {
  }

  /** With two readings a millisecond apart the second guard is what stops a zero delay. */
  lemma SecondGuardReachable()
    ensures ReminderDelay(DAY_MS + 1000, 999, 1000) == None
  {
    assert CeilDiv(0, 1000) == 0;
  }

  /** A pending OS notification created by `scheduleEventReminder`. */
  datatype Reminder = Reminder(title: string, body: string, eventId: string, seconds: int)

  /** Where tapping a notification navigates. */
  datatype Route = GroupChatRoute(eventId: string)

  /** The tap handler: a notification carrying a non-empty `eventId` opens that event's chat. */
  function TapRoute(eventIdData: Option<string>): (r: Option<Route>)
    ensures r.Some? <==> eventIdData.Some? && eventIdData.value != ""
    ensures r.Some? ==> r.value.eventId == eventIdData.value
  {
    if eventIdData.Some? && eventIdData.value != "" then Some(GroupChatRoute(eventIdData.value)) else None
  }

  /** Keys of `storage` that hold reminder ids. */
  function ReminderKeys(storage: map<string, string>): set<string> {
    set k | k in storage && StartsWith(k, REMINDER_KEY_PREFIX)
  }

  /** The non-empty ids stored under the keys in `keys`. */
  function IdsUnder(storage: map<string, string>, keys: set<string>): set<string> {
    set k | k in keys && k in storage && storage[k] != "" :: storage[k]
  }

  /**
   * The module-level state of utils/notifications.ts together with the two
   * stores it talks to: the device key/value store and the OS's list of
   * pending notifications, keyed by notification id.
   */
  class NotificationCenter {
    const isExpoGo: bool
    var currentViewingEventId: Option<string>
    var storage: map<string, string>
    var scheduled: map<string, Reminder>

    constructor(isExpoGo: bool, storage: map<string, string>, scheduled: map<string, Reminder>)
      ensures this.isExpoGo == isExpoGo && currentViewingEventId == None
      ensures this.storage == storage && this.scheduled == scheduled
    {
      this.isExpoGo := isExpoGo;
      currentViewingEventId := None;
      this.storage := storage;
      this.scheduled := scheduled;
    }

    method SetCurrentViewingEvent(eventId: Option<string>)
      modifies this`currentViewingEventId
      ensures currentViewingEventId == eventId
    {
      currentViewingEventId := eventId;
    }

    method GetCurrentViewingEvent() returns (r: Option<string>)
      ensures r == currentViewingEventId
    {
      r := currentViewingEventId;
    }

    /**
     * `scheduleEventReminder`: `newId` is the id the OS assigns, `scheduleOk`
     * and `storeOk` say whether the OS call and the store write succeeded.
     */
    method ScheduleEventReminder(eventId: string, title: string, eventMs: int,
                                 nowAtGuard: int, nowAtDelay: int,
                                 newId: string, scheduleOk: bool, storeOk: bool)
      returns (r: Option<string>)
      modifies this`storage, this`scheduled
      ensures var delay := ReminderDelay(eventMs, nowAtGuard, nowAtDelay);
        if isExpoGo || delay.None? || !scheduleOk then
          r == None && storage == old(storage) && scheduled == old(scheduled)
        else
          && scheduled == old(scheduled)[newId := Reminder("Przypomnienie: " + title, REMINDER_BODY, eventId, delay.value)]
          && storage == (if storeOk then old(storage)[ReminderKey(eventId) := newId] else old(storage))
          && r == (if storeOk then Some(newId) else None)
    {
      if isExpoGo {
        return None;
      }
      var delay := ReminderDelay(eventMs, nowAtGuard, nowAtDelay);
      if delay.None? || !scheduleOk {
        return None;
      }
      scheduled := scheduled[newId := Reminder("Przypomnienie: " + title, REMINDER_BODY, eventId, delay.value)];
      if !storeOk {
        return None;
      }
      storage := storage[ReminderKey(eventId) := newId];
      r := Some(newId);
    }

    /** `cancelEventReminder`: cancels and forgets the reminder stored for `eventId`, if any. */
    method CancelEventReminder(eventId: string)
      modifies this`storage, this`scheduled
      ensures var key := ReminderKey(eventId);
        if isExpoGo || key !in old(storage) || old(storage)[key] == "" then
          storage == old(storage) && scheduled == old(scheduled)
        else
          storage == old(storage) - {key} && scheduled == old(scheduled) - {old(storage)[key]}
    {
      if isExpoGo {
        return;
      }
      var key := ReminderKey(eventId);
      var id := if key in storage then storage[key] else "";
      if id != "" {
        scheduled := scheduled - {id};
        storage := storage - {key};
      }
    }

    /** `cancelAllRemindersForUser`: cancels every stored reminder id, then drops exactly the reminder keys. */
    method CancelAllRemindersForUser()
      modifies this`storage, this`scheduled
      ensures isExpoGo ==> storage == old(storage) && scheduled == old(scheduled)
      ensures !isExpoGo ==> storage == old(storage) - ReminderKeys(old(storage))
      ensures !isExpoGo ==> scheduled == old(scheduled) - IdsUnder(old(storage), ReminderKeys(old(storage)))
    {
      if isExpoGo {
        return;
      }
      var reminderKeys := ReminderKeys(storage);
      var todo := reminderKeys;
      while todo != {}
        invariant todo <= reminderKeys
        invariant storage == old(storage)
        invariant scheduled == old(scheduled) - IdsUnder(storage, reminderKeys - todo)
        decreases todo
      {
        var k :| k in todo;
        var id := storage[k];
        if id != "" {
          scheduled := scheduled - {id};
        }
        assert IdsUnder(storage, reminderKeys - (todo - {k})) ==
          IdsUnder(storage, reminderKeys - todo) + (if id != "" then {id} else {});
        todo := todo - {k};
      }
      storage := storage - reminderKeys;
    }
  }

  /** Whatever was last passed to the setter is what the getter returns. */
  method ViewingFlagRoundTrip(center: NotificationCenter, eventId: Option<string>) returns (r: Option<string>)
    modifies center
    ensures r == eventId
  {
    center.SetCurrentViewingEvent(eventId);
    r := center.GetCurrentViewingEvent();
  }
}
