/**
 * The typing-presence controller of the group chat (app/GroupChat.tsx,
 * `setTyping` and `scheduleTyping`) as a state machine over explicit
 * timer deadlines. The screen class in GroupChat runs its methods against
 * these transition functions.
 */
module TypingPresence {
  import opened Wrappers
  import opened Timers

  /** Period of the presence heartbeat and the inactivity delay, in milliseconds. */
  const HEARTBEAT_MS := 1500
  const INACTIVITY_MS := 3000

  datatype AuthUser = AuthUser(uid: string, displayName: Option<string>)

  /** One document of the event's `typing` collection, keyed by the writer's uid. */
  datatype PresenceRecord = PresenceRecord(uid: string, nick: string, lastSeen: int)

  /** What the screen works under: the route's event id ("" when missing), the signed-in user, the members' nicks. */
  datatype Session = Session(eventId: string, user: Option<AuthUser>, membersById: map<string, string>)

  /** `eventId && user`: only then does anything get written. */
  predicate Active(ses: Session) {
    ses.eventId != "" && ses.user.Some?
  }

  /** `membersById[user.uid] || (user.displayName ?? 'Ty')`. */
  function OwnNick(ses: Session): string
    requires ses.user.Some?
  {
    var uid := ses.user.value.uid;
    if uid in ses.membersById && ses.membersById[uid] != "" then ses.membersById[uid]
    else ses.user.value.displayName.GetOr("Ty")
  }

  /**
   * `setTyping(typing)`: upserts or deletes the user's own record; `ok` says
   * whether the write went through (a failure is swallowed and changes nothing).
   */
  function SetTyping(ses: Session, presence: map<string, PresenceRecord>, typing: bool, now: int, ok: bool)
    : (p: map<string, PresenceRecord>)
    // the user's record is the only one ever touched
    ensures forall k :: k in presence && (!Active(ses) || k != ses.user.value.uid) ==> k in p && p[k] == presence[k]
    ensures forall k :: k in p && (!Active(ses) || k != ses.user.value.uid) ==> k in presence
    ensures Active(ses) && ok && typing ==> ses.user.value.uid in p && p[ses.user.value.uid] == PresenceRecord(ses.user.value.uid, OwnNick(ses), now)
    ensures Active(ses) && ok && !typing ==> ses.user.value.uid !in p
    ensures !ok ==> p == presence
  {
    if !Active(ses) || !ok then presence
    else
      var uid := ses.user.value.uid;
      if typing then presence[uid := PresenceRecord(uid, OwnNick(ses), now)] else presence - {uid}
  }

  /**
   * The controller's refs plus the runtime's bookkeeping of live timers:
   * how many `setInterval` and `setTimeout` handles have not been cleared or run.
   */
  datatype Controller = Controller(typingActive: bool, heartbeat: Timer, inactivity: Timer,
                                   liveIntervals: nat, liveTimeouts: nat)

  /** The two reachable shapes: idle with nothing pending, or typing with exactly one heartbeat and one timeout. */
  predicate WellFormed(c: Controller) {
    && c.heartbeat.Armed? == c.typingActive
    && c.inactivity.Armed? == c.typingActive
    && c.liveIntervals == (if c.typingActive then 1 else 0)
    && c.liveTimeouts == (if c.typingActive then 1 else 0)
  }

  const Idle := Controller(false, Disarmed, Disarmed, 0, 0)

  datatype State = State(ctl: Controller, presence: map<string, PresenceRecord>)

  /** `scheduleTyping()` at `now`; `ok` is the fate of the presence write it may start. */
  function Edit(ses: Session, st: State, now: int, ok: bool): (r: State)
    ensures WellFormed(st.ctl) ==> WellFormed(r.ctl)
    ensures !Active(ses) ==> r == st
    // every edit replaces the pending inactivity timer by one due INACTIVITY_MS later
    ensures Active(ses) ==> r.ctl.typingActive && r.ctl.inactivity == Armed(now + INACTIVITY_MS)
    // the first edit while idle writes presence once and starts one heartbeat
    ensures Active(ses) && !st.ctl.typingActive ==>
              && r.presence == SetTyping(ses, st.presence, true, now, ok)
              && r.ctl.heartbeat == Armed(now + HEARTBEAT_MS)
              && r.ctl.liveIntervals == st.ctl.liveIntervals + 1
    // further edits while typing write nothing and start no heartbeat
    ensures Active(ses) && st.ctl.typingActive ==>
              r.presence == st.presence && r.ctl.heartbeat == st.ctl.heartbeat
              && r.ctl.liveIntervals == st.ctl.liveIntervals
  {
    if !Active(ses) then st
    else
      var started :=
        if !st.ctl.typingActive then
          State(st.ctl.(typingActive := true, heartbeat := Armed(now + HEARTBEAT_MS),
                        liveIntervals := st.ctl.liveIntervals + 1),
                SetTyping(ses, st.presence, true, now, ok))
        else st;
      var cleared := if started.ctl.inactivity.Armed? then started.ctl.liveTimeouts - 1 else started.ctl.liveTimeouts;
      started.(ctl := started.ctl.(inactivity := Armed(now + INACTIVITY_MS), liveTimeouts := cleared + 1))
  }

  /** One run of the heartbeat interval at `now`: the record is refreshed, nothing else changes. */
  function HeartbeatFire(ses: Session, st: State, now: int, ok: bool): (r: State)
    requires st.ctl.heartbeat.Armed? && st.ctl.heartbeat.due <= now
    ensures WellFormed(st.ctl) ==> WellFormed(r.ctl)
    ensures r.ctl == st.ctl.(heartbeat := Armed(st.ctl.heartbeat.due + HEARTBEAT_MS))
    ensures r.presence == SetTyping(ses, st.presence, true, now, ok)
  {
    State(st.ctl.(heartbeat := Armed(st.ctl.heartbeat.due + HEARTBEAT_MS)), SetTyping(ses, st.presence, true, now, ok))
  }

  /** The inactivity timeout running at `now`: heartbeat stopped, typing off, record deleted, handle nulled. */
  function InactivityFire(ses: Session, st: State, now: int, ok: bool): (r: State)
    requires st.ctl.inactivity.Armed? && st.ctl.inactivity.due <= now && st.ctl.liveTimeouts > 0
    ensures WellFormed(st.ctl) ==> r.ctl == Idle
    ensures r.presence == SetTyping(ses, st.presence, false, now, ok)
  {
    var intervals := if st.ctl.heartbeat.Armed? && st.ctl.liveIntervals > 0 then st.ctl.liveIntervals - 1 else st.ctl.liveIntervals;
    State(Controller(false, Disarmed, Disarmed, intervals, st.ctl.liveTimeouts - 1),
          SetTyping(ses, st.presence, false, now, ok))
  }

  /** What can happen next: a keystroke, or one of the two timers running. */
  datatype Event = EditAt(time: int, ok: bool) | HeartbeatAt(time: int, ok: bool) | InactivityAt(time: int, ok: bool)

  /** A timer can run only while pending and once due. */
  predicate Enabled(c: Controller, e: Event) {
    match e
    case EditAt(_, _) => true
    case HeartbeatAt(t, _) => c.heartbeat.Armed? && c.heartbeat.due <= t
    case InactivityAt(t, _) => c.inactivity.Armed? && c.inactivity.due <= t && c.liveTimeouts > 0
  }

  function Step(ses: Session, st: State, e: Event): State
    requires Enabled(st.ctl, e)
  {
    match e
    case EditAt(t, ok) => Edit(ses, st, t, ok)
    case HeartbeatAt(t, ok) => HeartbeatFire(ses, st, t, ok)
    case InactivityAt(t, ok) => InactivityFire(ses, st, t, ok)
  }

  /** Every event of `evs` is possible when it happens. */
  predicate Feasible(ses: Session, st: State, evs: seq<Event>)
    decreases |evs|
  {
    evs == [] || (Enabled(st.ctl, evs[0]) && Feasible(ses, Step(ses, st, evs[0]), evs[1..]))
  }

  function Run(ses: Session, st: State, evs: seq<Event>): State
    requires Feasible(ses, st, evs)
    decreases |evs|
  {
    if evs == [] then st else Run(ses, Step(ses, st, evs[0]), evs[1..])
  }

  /** Every event comes less than INACTIVITY_MS after the latest keystroke before it. */
  predicate EditsKeepComing(lastEdit: int, evs: seq<Event>)
    decreases |evs|
  {
    evs == [] ||
    (evs[0].time < lastEdit + INACTIVITY_MS &&
     EditsKeepComing(if evs[0].EditAt? then evs[0].time else lastEdit, evs[1..]))
  }

  /**
   * While keystrokes keep coming less than INACTIVITY_MS apart the inactivity
   * timeout never runs: the controller stays in the typing state and an
   * existing presence record is never deleted.
   */
  lemma {:induction false} NoExpiryWhileTyping(ses: Session, st: State, lastEdit: int, evs: seq<Event>)
    requires Active(ses) && WellFormed(st.ctl) && st.ctl.typingActive
    requires st.ctl.inactivity == Armed(lastEdit + INACTIVITY_MS)
    requires Feasible(ses, st, evs) && EditsKeepComing(lastEdit, evs)
    ensures forall i :: 0 <= i < |evs| ==> !evs[i].InactivityAt?
    ensures WellFormed(Run(ses, st, evs).ctl) && Run(ses, st, evs).ctl.typingActive
    ensures ses.user.value.uid in st.presence ==> ses.user.value.uid in Run(ses, st, evs).presence
    decreases |evs|
  {
    if evs != [] {
      var e := evs[0];
      assert !e.InactivityAt?;
      var next := Step(ses, st, e);
      var last' := if e.EditAt? then e.time else lastEdit;
      NoExpiryWhileTyping(ses, next, last', evs[1..]);
      forall i | 0 <= i < |evs| ensures !evs[i].InactivityAt? {
        if i > 0 { assert evs[i] == evs[1..][i - 1]; }
      }
    }
  }

  /** Once the timeout is due it can run, and running it deletes the record and returns to idle. */
  lemma ExpiryAfterQuietGap(ses: Session, st: State, lastEdit: int, now: int)
    requires Active(ses) && WellFormed(st.ctl) && st.ctl.typingActive
    requires st.ctl.inactivity == Armed(lastEdit + INACTIVITY_MS) && now >= lastEdit + INACTIVITY_MS
    ensures Enabled(st.ctl, InactivityAt(now, true))
    ensures var r := Step(ses, st, InactivityAt(now, true));
            r.ctl == Idle && ses.user.value.uid !in r.presence
  {
  }

  /** After the timeout has run no timer is pending, so only a new keystroke can touch presence again: deletion happens once. */
  lemma IdleHasNoTimerEvents(ses: Session, st: State, e: Event)
    requires WellFormed(st.ctl) && !st.ctl.typingActive && !e.EditAt?
    ensures !Enabled(st.ctl, e)
  {
  }

  /**
   * Sending a message deletes the record but leaves the heartbeat running
   * (as written), so the next heartbeat writes the record again.
   */
  lemma HeartbeatRecreatesAfterSend(ses: Session, st: State, sendTime: int, now: int)
    requires Active(ses) && WellFormed(st.ctl) && st.ctl.typingActive
    requires now >= st.ctl.heartbeat.due
    ensures var afterSend := st.(presence := SetTyping(ses, st.presence, false, sendTime, true));
            && ses.user.value.uid !in afterSend.presence
            && Enabled(afterSend.ctl, HeartbeatAt(now, true))
            && ses.user.value.uid in Step(ses, afterSend, HeartbeatAt(now, true)).presence
  {
  }

  /** The whole machine never leaves its two well-formed shapes. */
  lemma {:induction false} RunWellFormed(ses: Session, st: State, evs: seq<Event>)
    requires WellFormed(st.ctl) && Feasible(ses, st, evs)
    ensures WellFormed(Run(ses, st, evs).ctl)
    ensures Run(ses, st, evs).ctl.liveIntervals <= 1
    decreases |evs|
  {
    if evs != [] {
      RunWellFormed(ses, Step(ses, st, evs[0]), evs[1..]);
    }
  }
}
