/**
 * The group chat screen (app/GroupChat.tsx): its state, the backend
 * documents it writes, and its handlers. Each handler is stated against the
 * transition functions of TypingPresence and TypingFeed, where the
 * properties of the presence controller and of the feed are proved.
 */
module GroupChat {
  import opened Wrappers
  import opened Timers
  import opened Text
  import opened Alerts
  import opened Lists
  import FirebaseErrors
  import TypingPresence
  import TypingFeed

  /** The event as the screen keeps it. */
  datatype EventData = EventData(id: string, title: string, participants: seq<string>, userId: string)

  /** The event document's fields as read; a missing participant list is None. */
  datatype EventFields = EventFields(title: string, participants: Option<seq<string>>, userId: string)

  /** How reading the event document ends. */
  datatype LoadOutcome = EventFound(fields: EventFields) | EventMissing | LoadThrew(error: FirebaseErrors.Thrown)

  /** A message document `sendMessage` adds (the server fills in its timestamp). */
  datatype Outgoing = Outgoing(userId: string, text: string)

  /** `!messageText.trim() || !user || !eventId`: the guard that makes `sendMessage` do nothing. */
  predicate SendRefused(messageText: string, user: Option<TypingPresence.AuthUser>, eventId: string) {
    Trim(messageText) == "" || user.None? || eventId == ""
  }

  /** A message that gets past the guard is stored trimmed and non-empty. */
  lemma SentTextIsTrimmed(messageText: string, user: Option<TypingPresence.AuthUser>, eventId: string)
    requires !SendRefused(messageText, user, eventId)
    ensures var t := Trim(messageText); t != "" && IsTrimmed(t) && |t| <= |messageText|
  {
  }

  class ChatScreen {
    /** The route's `eventId` ("" when missing) and the signed-in user. */
    const eventId: string
    const user: Option<TypingPresence.AuthUser>
    /** The nick field of every existing user document ("" when empty). */
    const profiles: map<string, string>

    /** The event's `typing` collection, keyed by uid. */
    var presence: map<string, TypingPresence.PresenceRecord>
    /** Message documents this screen has added, in order. */
    var sent: seq<Outgoing>
    /** The stored event's `participants` and the user's stored `joinedEvents`. */
    var participants: seq<string>
    var joinedEvents: seq<string>

    var event: Option<EventData>
    var members: seq<TypingFeed.Member>
    var membersById: map<string, string>
    /** The load's local nick cache, which the message listener closes over. */
    var nickMap: map<string, string>
    /** Whether the message listener has been attached. */
    var subscribed: bool
    var loading: bool
    var messages: seq<TypingFeed.Message>
    var messageText: string
    var typingUsers: seq<TypingFeed.Member>
    var bubble: TypingFeed.Bubble
    var window: TypingFeed.Window
    /** `typingActiveRef`, `heartbeatRef`, `inactivityTimeoutRef` and the handles they hold. */
    var ctl: TypingPresence.Controller
    var alerts: seq<Alert>
    var navigatedBack: bool

    function Ses(): TypingPresence.Session
      reads this`membersById
    {
      TypingPresence.Session(eventId, user, membersById)
    }

    function Presence(): TypingPresence.State
      reads this`ctl, this`presence
    {
      TypingPresence.State(ctl, presence)
    }

    /** The presence controller is idle with nothing pending, or typing with one heartbeat and one timeout. */
    predicate Valid()
      reads this`ctl
    {
      TypingPresence.WellFormed(ctl)
    }

    constructor(eventId: string, user: Option<TypingPresence.AuthUser>, profiles: map<string, string>,
                presence: map<string, TypingPresence.PresenceRecord>, participants: seq<string>, joinedEvents: seq<string>)
      ensures Valid()
      ensures this.eventId == eventId && this.user == user && this.profiles == profiles
      ensures this.presence == presence && this.participants == participants && this.joinedEvents == joinedEvents
      ensures sent == [] && event == None && members == [] && membersById == map[] && nickMap == map[]
      ensures !subscribed && loading && messages == [] && messageText == "" && typingUsers == []
      ensures bubble == TypingFeed.Bubble([], false, Disarmed) && window == TypingFeed.Window(None, 0)
      ensures ctl == TypingPresence.Idle && alerts == [] && !navigatedBack
    {
      this.eventId := eventId;
      this.user := user;
      this.profiles := profiles;
      this.presence := presence;
      this.participants := participants;
      this.joinedEvents := joinedEvents;
      sent := [];
      event := None;
      members, membersById, nickMap := [], map[], map[];
      subscribed := false;
      loading := true;
      messages, messageText, typingUsers := [], "", [];
      bubble := TypingFeed.Bubble([], false, Disarmed);
      window := TypingFeed.Window(None, 0);
      ctl := TypingPresence.Idle;
      alerts := [];
      navigatedBack := false;
    }

    /**
     * The loading effect: the event, then each participant's nick, then the
     * message listener; a failure to read the event alerts and stops loading.
     */
    method Load(outcome: LoadOutcome)
      modifies this`event, this`members, this`membersById, this`nickMap, this`subscribed, this`loading, this`alerts
      ensures eventId == "" || user.None? ==>
                event == old(event) && members == old(members) && membersById == old(membersById)
                && nickMap == old(nickMap) && subscribed == old(subscribed) && loading == old(loading) && alerts == old(alerts)
      ensures eventId != "" && user.Some? ==>
                match outcome
                case LoadThrew(e) =>
                  && !loading && alerts == old(alerts) + [Alert("Błąd ładowania czatu", FirebaseErrors.FirebaseErrorMessage(e))]
                  && event == old(event) && members == old(members) && membersById == old(membersById)
                  && nickMap == old(nickMap) && subscribed == old(subscribed)
                case EventMissing =>
                  && subscribed && nickMap == map[] && event == old(event) && members == old(members)
                  && membersById == old(membersById) && loading == old(loading) && alerts == old(alerts)
                case EventFound(f) =>
                  var ps := f.participants.GetOr([]);
                  && subscribed && loading == old(loading) && alerts == old(alerts)
                  && event == Some(EventData(eventId, f.title, ps, f.userId))
                  && |members| == |ps|
                  && (forall i :: 0 <= i < |ps| ==> members[i] == TypingFeed.Member(ps[i], TypingFeed.MemberNick(profiles, ps[i])))
                  && membersById == TypingFeed.MembersById(members)
                  && (forall k :: k in nickMap <==> k in ps)
                  && (forall k :: k in nickMap ==> nickMap[k] == TypingFeed.MemberNick(profiles, k))
                  // the two caches the message listener consults agree
                  && (forall k :: k in membersById <==> k in nickMap)
                  && (forall k :: k in nickMap ==> membersById[k] == nickMap[k])
    {
      if eventId == "" || user.None? {
        return;
      }
      match outcome {
        case LoadThrew(e) =>
          alerts := alerts + [Alert("Błąd ładowania czatu", FirebaseErrors.FirebaseErrorMessage(e))];
          loading := false;
        case EventMissing =>
          nickMap := map[];
          subscribed := true;
        case EventFound(f) =>
          var ps := f.participants.GetOr([]);
          event := Some(EventData(eventId, f.title, ps, f.userId));
          var details, cache := TypingFeed.LoadMembers(ps, profiles);
          members := details;
          membersById := TypingFeed.BuildMembersById(members);
          nickMap := cache;
          TypingFeed.LoadedCachesAgree(ps, profiles, members, nickMap);
          subscribed := true;
      }
    }

    /**
     * The message listener: the list is rebuilt from the snapshot, loading
     * ends, then the suppression effect and the display effect run, in that order.
     */
    method OnMessagesSnapshot(docs: seq<TypingFeed.MessageDoc>, now: int)
      requires subscribed
      modifies this`messages, this`loading, this`window, this`bubble
      ensures |messages| == |docs|
      ensures forall i :: 0 <= i < |docs| ==> messages[i] == TypingFeed.ProjectMessage(docs[i], nickMap, membersById, profiles)
      ensures !loading
      ensures window == TypingFeed.SuppressionStep(old(window), messages, now)
      ensures bubble == TypingFeed.DisplayStep(old(bubble), typingUsers, window.suppressUntil, now)
    {
      messages := TypingFeed.BuildMessages(docs, nickMap, membersById, profiles);
      loading := false;
      if |messages| > 0 {
        var last := messages[|messages| - 1];
        if window.lastMessageId != Some(last.id) {
          window := TypingFeed.Window(Some(last.id), now + TypingFeed.SUPPRESS_MS);
        }
      }
      ShowTypers(now);
    }

    /** The typing listener: the typers are recomputed, then the display effect runs. */
    method OnTypingSnapshot(docs: seq<TypingFeed.TypingDoc>, now: int)
      requires eventId != "" && user.Some?
      modifies this`typingUsers, this`bubble
      ensures typingUsers == TypingFeed.TypingPeers(docs, user.value.uid, now)
      ensures bubble == TypingFeed.DisplayStep(old(bubble), typingUsers, window.suppressUntil, now)
    {
      typingUsers := TypingFeed.CollectTypingPeers(docs, user.value.uid, now);
      ShowTypers(now);
    }

    /** The display effect: its previous tidy timeout is cancelled, then names are shown or the fade starts. */
    method ShowTypers(now: int)
      modifies this`bubble
      ensures bubble == TypingFeed.DisplayStep(old(bubble), typingUsers, window.suppressUntil, now)
    {
      bubble := bubble.(tidy := Disarmed);
      var suppressed := now < window.suppressUntil;
      var rawNames := TypingFeed.Nicks(typingUsers);
      var names := if suppressed then [] else rawNames;
      if |names| > 0 {
        bubble := bubble.(displayNames := names, active := true);
      } else {
        bubble := bubble.(active := false, tidy := Armed(now + TypingFeed.TIDY_MS));
      }
    }

    /** The tidy timeout running: the displayed names are dropped. */
    method TidyFire(now: int)
      requires bubble.tidy.Armed? && bubble.tidy.due <= now
      modifies this`bubble
      ensures bubble == TypingFeed.TidyFire(old(bubble))
    {
      bubble := bubble.(displayNames := [], tidy := Disarmed);
    }

    /** The input's `onChangeText`: the text is kept, then `scheduleTyping` runs. */
    method EditText(text: string, now: int, writeOk: bool)
      requires Valid()
      modifies this`messageText, this`ctl, this`presence
      ensures Valid()
      ensures messageText == text
      ensures Presence() == TypingPresence.Edit(Ses(), old(Presence()), now, writeOk)
    {
      messageText := text;
      ScheduleTyping(now, writeOk);
    }

    /** `scheduleTyping`; `writeOk` is the fate of the presence write it may start. */
    method ScheduleTyping(now: int, writeOk: bool)
      requires Valid()
      modifies this`ctl, this`presence
      ensures Valid()
      ensures Presence() == TypingPresence.Edit(Ses(), old(Presence()), now, writeOk)
    {
      if eventId == "" || user.None? {
        return;
      }
      if !ctl.typingActive {
        presence := TypingPresence.SetTyping(Ses(), presence, true, now, writeOk);
        ctl := ctl.(typingActive := true);
        ctl := ctl.(heartbeat := Armed(now + TypingPresence.HEARTBEAT_MS), liveIntervals := ctl.liveIntervals + 1);
      }
      if ctl.inactivity.Armed? {
        ctl := ctl.(inactivity := Disarmed, liveTimeouts := ctl.liveTimeouts - 1);
      }
      ctl := ctl.(inactivity := Armed(now + TypingPresence.INACTIVITY_MS), liveTimeouts := ctl.liveTimeouts + 1);
    }

    /** One run of the heartbeat interval: the presence record is written again. */
    method HeartbeatFire(now: int, writeOk: bool)
      requires Valid() && ctl.heartbeat.Armed? && ctl.heartbeat.due <= now
      modifies this`ctl, this`presence
      ensures Valid()
      ensures Presence() == TypingPresence.HeartbeatFire(Ses(), old(Presence()), now, writeOk)
    {
      presence := TypingPresence.SetTyping(Ses(), presence, true, now, writeOk);
      ctl := ctl.(heartbeat := Armed(ctl.heartbeat.due + TypingPresence.HEARTBEAT_MS));
    }

    /** The inactivity timeout running: heartbeat cleared, typing off, record deleted, handle nulled. */
    method InactivityFire(now: int, deleteOk: bool)
      requires Valid() && ctl.inactivity.Armed? && ctl.inactivity.due <= now
      modifies this`ctl, this`presence
      ensures Valid() && ctl == TypingPresence.Idle
      ensures Presence() == TypingPresence.InactivityFire(Ses(), old(Presence()), now, deleteOk)
    {
      if ctl.heartbeat.Armed? {
        ctl := ctl.(heartbeat := Disarmed, liveIntervals := ctl.liveIntervals - 1);
      }
      ctl := ctl.(typingActive := false);
      presence := TypingPresence.SetTyping(Ses(), presence, false, now, deleteOk);
      ctl := ctl.(inactivity := Disarmed, liveTimeouts := ctl.liveTimeouts - 1);
    }

    /**
     * `sendMessage`: past the guard, the trimmed text is added; only once
     * that succeeds is the input cleared and the presence record deleted.
     * The typing flag and both timers are left as they are.
     */
    method SendMessage(outcome: FirebaseErrors.WriteOutcome, deleteOk: bool)
      modifies this`sent, this`messageText, this`presence, this`alerts
      ensures ctl == old(ctl)
      ensures if SendRefused(old(messageText), user, eventId) then
                unchanged(this`sent, this`messageText, this`presence, this`alerts)
              else match outcome
                case WriteOk =>
                  && sent == old(sent) + [Outgoing(user.value.uid, Trim(old(messageText)))]
                  && messageText == ""
                  // a deletion ignores the clock, so any instant will do
                  && presence == TypingPresence.SetTyping(Ses(), old(presence), false, 0, deleteOk)
                  && alerts == old(alerts)
                case WriteThrew(e) =>
                  && unchanged(this`sent, this`messageText, this`presence)
                  && alerts == old(alerts) + [Alert("Błąd wysyłania wiadomości", FirebaseErrors.FirebaseErrorMessage(e))]
    {
      if Trim(messageText) == "" || user.None? || eventId == "" {
        return;
      }
      match outcome {
        case WriteOk =>
          sent := sent + [Outgoing(user.value.uid, Trim(messageText))];
          messageText := "";
          presence := TypingPresence.SetTyping(Ses(), presence, false, 0, deleteOk);
        case WriteThrew(e) =>
          alerts := alerts + [Alert("Błąd wysyłania wiadomości", FirebaseErrors.FirebaseErrorMessage(e))];
      }
    }

    /**
     * `leaveGroup`: a confirmation is shown; on "Opuść" the user leaves the
     * event's participants, then the event leaves the user's joined events,
     * then the presence record is deleted and the screen goes back. A failed
     * write alerts and skips the steps after it (an earlier write stays done).
     */
    method LeaveGroup(confirmed: bool, eventWrite: FirebaseErrors.WriteOutcome, userWrite: FirebaseErrors.WriteOutcome, deleteOk: bool)
      modifies this`participants, this`joinedEvents, this`presence, this`alerts, this`navigatedBack
      ensures ctl == old(ctl)
      ensures user.None? || event.None? ==>
                participants == old(participants) && joinedEvents == old(joinedEvents) && presence == old(presence)
                && alerts == old(alerts) && navigatedBack == old(navigatedBack)
      ensures user.Some? && event.Some? ==>
                var ask := Alert("Opuść grupę", "Czy na pewno chcesz opuścić tę grupę?");
                var uid := user.value.uid;
                if !confirmed then
                  && participants == old(participants) && joinedEvents == old(joinedEvents) && presence == old(presence)
                  && alerts == old(alerts) + [ask] && navigatedBack == old(navigatedBack)
                else match eventWrite
                  case WriteThrew(e) =>
                    && participants == old(participants) && joinedEvents == old(joinedEvents) && presence == old(presence)
                    && alerts == old(alerts) + [ask, Alert("Błąd opuszczania grupy", FirebaseErrors.FirebaseErrorMessage(e))]
                    && navigatedBack == old(navigatedBack)
                  case WriteOk =>
                    && participants == RemoveAll(old(participants), uid)
                    && match userWrite
                       case WriteThrew(e) =>
                         && joinedEvents == old(joinedEvents) && presence == old(presence)
                         && alerts == old(alerts) + [ask, Alert("Błąd opuszczania grupy", FirebaseErrors.FirebaseErrorMessage(e))]
                         && navigatedBack == old(navigatedBack)
                       case WriteOk =>
                         && joinedEvents == RemoveAll(old(joinedEvents), event.value.id)
                         && presence == TypingPresence.SetTyping(Ses(), old(presence), false, 0, deleteOk)
                         && alerts == old(alerts) + [ask] && navigatedBack
    {
      if user.None? || event.None? {
        return;
      }
      alerts := alerts + [Alert("Opuść grupę", "Czy na pewno chcesz opuścić tę grupę?")];
      if !confirmed {
        return;
      }
      match eventWrite {
        case WriteThrew(e) =>
          alerts := alerts + [Alert("Błąd opuszczania grupy", FirebaseErrors.FirebaseErrorMessage(e))];
          return;
        case WriteOk =>
          participants := RemoveAll(participants, user.value.uid);
      }
      match userWrite {
        case WriteThrew(e) =>
          alerts := alerts + [Alert("Błąd opuszczania grupy", FirebaseErrors.FirebaseErrorMessage(e))];
          return;
        case WriteOk =>
          joinedEvents := RemoveAll(joinedEvents, event.value.id);
      }
      presence := TypingPresence.SetTyping(Ses(), presence, false, 0, deleteOk);
      navigatedBack := true;
    }

    /** The rows the list renders, and how each is drawn. */
    function Rows(): (r: seq<TypingFeed.Row>)
      reads this`messages, this`bubble
      ensures |r| == |messages| + (if bubble.displayNames == [] then 0 else 1)
    {
      var data := TypingFeed.RenderData(messages, bubble.displayNames);
      var me := if user.Some? then Some(user.value.uid) else None;
      var b := bubble;
      seq(|data|, i requires 0 <= i < |data| => TypingFeed.RenderRow(data[i], me, b))
    }
  }
}
