/**
 * What the group chat shows (app/GroupChat.tsx): the peers seen typing, the
 * suppression window after a new message, the fading typing bubble, the
 * message list with its resolved author nicks, and the rows handed to the list.
 */
module TypingFeed {
  import opened Wrappers
  import opened Timers
  import opened Text

  /** The nick shown for anyone whose nick is missing. */
  const DEFAULT_NICK := "Użytkownik"
  /** A typing record older than this is stale, in milliseconds. */
  const STALE_MS := 6000
  /** How long a newly arrived message hides the typing bubble. */
  const SUPPRESS_MS := 3000
  /** How long the bubble stays mounted while it fades out. */
  const TIDY_MS := 360
  /** The id of the synthetic row that renders the bubble. */
  const TYPING_ROW_ID := "__typing__"

  datatype Member = Member(uid: string, nick: string)

  /** A document of the typing collection as read; "" and 0 stand for a missing field. */
  datatype TypingDoc = TypingDoc(uid: string, nick: string, lastSeen: int)

  /** `data.uid && data.lastSeen && now - data.lastSeen <= 6000` and not the current user. */
  predicate IsFreshPeer(d: TypingDoc, me: string, now: int) {
    d.uid != "" && d.lastSeen != 0 && now - d.lastSeen <= STALE_MS && d.uid != me
  }

  function PeerOf(d: TypingDoc): (m: Member)
    ensures m.uid == d.uid
    ensures m.nick == (if d.nick == "" then DEFAULT_NICK else d.nick)
  {
    Member(d.uid, if d.nick != "" then d.nick else DEFAULT_NICK)
  }

  /** The peers a typing snapshot shows, in snapshot order. */
  function TypingPeers(docs: seq<TypingDoc>, me: string, now: int): (r: seq<Member>)
    ensures |r| <= |docs|
    ensures forall m :: m in r ==> m.uid != "" && m.uid != me && m.nick != ""
    decreases |docs|
  {
    if docs == [] then []
    else (if IsFreshPeer(docs[0], me, now) then [PeerOf(docs[0])] else []) + TypingPeers(docs[1..], me, now)
  }

  /** Filtering distributes over concatenation, so snapshot order is kept. */
  lemma {:induction false} TypingPeersAppend(a: seq<TypingDoc>, b: seq<TypingDoc>, me: string, now: int)
    ensures TypingPeers(a + b, me, now) == TypingPeers(a, me, now) + TypingPeers(b, me, now)
    decreases |a|
  {
    if a == [] {
      assert a + b == b;
    } else {
      assert (a + b)[0] == a[0] && (a + b)[1..] == a[1..] + b;
      TypingPeersAppend(a[1..], b, me, now);
    }
  }

  /** A peer shows as typing exactly when one of its records passes the filter. */
  lemma {:induction false} TypingPeersMembership(docs: seq<TypingDoc>, me: string, now: int, m: Member)
    ensures m in TypingPeers(docs, me, now) <==> exists i :: 0 <= i < |docs| && IsFreshPeer(docs[i], me, now) && PeerOf(docs[i]) == m
    decreases |docs|
  {
    if docs != [] {
      TypingPeersMembership(docs[1..], me, now, m);
      if exists i :: 0 <= i < |docs[1..]| && IsFreshPeer(docs[1..][i], me, now) && PeerOf(docs[1..][i]) == m {
        var i :| 0 <= i < |docs[1..]| && IsFreshPeer(docs[1..][i], me, now) && PeerOf(docs[1..][i]) == m;
        assert docs[i + 1] == docs[1..][i];
      }
      if exists i :: 0 <= i < |docs| && IsFreshPeer(docs[i], me, now) && PeerOf(docs[i]) == m {
        var i :| 0 <= i < |docs| && IsFreshPeer(docs[i], me, now) && PeerOf(docs[i]) == m;
        if i > 0 { assert docs[1..][i - 1] == docs[i]; }
      }
    }
  }

  /** The staleness bound is inclusive: a record exactly STALE_MS old still shows, one millisecond more does not. */
  lemma StalenessBoundary(uid: string, nick: string, lastSeen: int, me: string)
    requires uid != "" && uid != me && lastSeen != 0
    ensures TypingPeers([TypingDoc(uid, nick, lastSeen)], me, lastSeen + STALE_MS) == [PeerOf(TypingDoc(uid, nick, lastSeen))]
    ensures TypingPeers([TypingDoc(uid, nick, lastSeen)], me, lastSeen + STALE_MS + 1) == []
  {
  }

  /** The typing snapshot listener's loop. */
  method CollectTypingPeers(docs: seq<TypingDoc>, me: string, now: int) returns (list: seq<Member>)
    ensures list == TypingPeers(docs, me, now)
  {
    list := [];
    var i := 0;
    while i < |docs|
      invariant 0 <= i <= |docs|
      invariant list == TypingPeers(docs[..i], me, now)
    {
      var d := docs[i];
      assert docs[..i + 1] == docs[..i] + [d];
      TypingPeersAppend(docs[..i], [d], me, now);
      if d.uid != "" && d.lastSeen != 0 && now - d.lastSeen <= STALE_MS {
        if d.uid != me {
          list := list + [Member(d.uid, if d.nick != "" then d.nick else DEFAULT_NICK)];
        }
      }
      i := i + 1;
    }
    assert docs[..i] == docs;
  }

  /** The bubble's caption. */
  function TypingLabel(names: seq<string>): (r: string)
    ensures |names| == 1 ==> r == names[0] + " pisze"
    ensures |names| >= 2 ==> r == names[0] + ", " + names[1] + " i inni piszą"
    ensures names == [] ==> r == " i inni piszą"
  {
    if |names| == 1 then names[0] + " pisze"
    else
      var shown := names[..if |names| < 2 then |names| else 2];
      assert |names| >= 2 ==> shown[0] == names[0] && shown[1..] == [names[1]] && Join(shown[1..], ", ") == names[1];
      Join(shown, ", ") + " i inni piszą"
  }

  /** Names past the second never reach the caption. */
  lemma LabelIgnoresRest(names: seq<string>, more: seq<string>)
    requires |names| >= 2
    ensures TypingLabel(names + more) == TypingLabel(names)
  {
    assert (names + more)[0] == names[0] && (names + more)[1] == names[1];
  }

  /** A message timestamp, when the server has filled it in. */
  datatype Stamp = Stamp(seconds: int, nanoseconds: int)

  datatype Message = Message(id: string, userId: string, userNick: string, text: string, timestamp: Option<Stamp>)

  /** `lastMessageIdRef` and `suppressTypingUntilRef`. */
  datatype Window = Window(lastMessageId: Option<string>, suppressUntil: int)

  /** The suppression effect, run whenever the message list changes. */
  function SuppressionStep(w: Window, messages: seq<Message>, now: int): (r: Window)
    ensures messages == [] || w.lastMessageId == Some(messages[|messages| - 1].id) ==> r == w
    ensures messages != [] && w.lastMessageId != Some(messages[|messages| - 1].id) ==>
              r.lastMessageId == Some(messages[|messages| - 1].id) && r.suppressUntil == now + SUPPRESS_MS
  {
    if messages == [] then w
    else
      var last := messages[|messages| - 1];
      if w.lastMessageId == Some(last.id) then w else Window(Some(last.id), now + SUPPRESS_MS)
  }

  /** A second run on the same list changes nothing, whenever it happens. */
  lemma SuppressionIdempotent(w: Window, messages: seq<Message>, now: int, later: int)
    ensures SuppressionStep(SuppressionStep(w, messages, now), messages, later) == SuppressionStep(w, messages, now)
  {
  }

  /** The names the display effect works with: none while suppressed (a strict test), else every typer's nick. */
  function ShownNames(typingUsers: seq<Member>, suppressUntil: int, now: int): (r: seq<string>)
    ensures now < suppressUntil ==> r == []
    ensures now >= suppressUntil ==> |r| == |typingUsers| && forall i :: 0 <= i < |r| ==> r[i] == typingUsers[i].nick
  {
    if now < suppressUntil then [] else Nicks(typingUsers)
  }

  function Nicks(ms: seq<Member>): (r: seq<string>)
    ensures |r| == |ms| && forall i :: 0 <= i < |r| ==> r[i] == ms[i].nick
  {
    if ms == [] then [] else [ms[0].nick] + Nicks(ms[1..])
  }

  /** `displayTypingNames`, `bubbleActive` and the effect's pending tidy timeout. */
  datatype Bubble = Bubble(displayNames: seq<string>, active: bool, tidy: Timer)

  /**
   * The display effect: its previous run's tidy timeout is cancelled first;
   * names to show are shown at once, no names start the fade (the bubble is
   * deactivated and the names are kept until the tidy timeout runs).
   */
  function DisplayStep(b: Bubble, typingUsers: seq<Member>, suppressUntil: int, now: int): (r: Bubble)
    ensures var names := ShownNames(typingUsers, suppressUntil, now);
            && (r.active <==> names != [])
            && (names != [] ==> r.displayNames == names && r.tidy == Disarmed)
            && (names == [] ==> r.displayNames == b.displayNames && r.tidy == Armed(now + TIDY_MS))
  {
    var names := ShownNames(typingUsers, suppressUntil, now);
    if |names| > 0 then Bubble(names, true, Disarmed) else Bubble(b.displayNames, false, Armed(now + TIDY_MS))
  }

  /** The tidy timeout running: the names are dropped. */
  function TidyFire(b: Bubble): (r: Bubble)
    requires b.tidy.Armed?
    ensures r.displayNames == [] && r.active == b.active && r.tidy == Disarmed
  {
    Bubble([], b.active, Disarmed)
  }

  /**
   * A message arriving at `t0` hides the bubble for the next SUPPRESS_MS
   * milliseconds whoever is typing: it is deactivated, keeps its previous
   * names while it fades and holds a tidy timeout due TIDY_MS later. From
   * `t0 + SUPPRESS_MS` on, typers show again.
   */
  lemma SuppressionWindow(w: Window, b: Bubble, messages: seq<Message>, typingUsers: seq<Member>, t0: int, now: int)
    requires messages != [] && w.lastMessageId != Some(messages[|messages| - 1].id)
    requires t0 <= now
    ensures var w' := SuppressionStep(w, messages, t0);
            var r := DisplayStep(b, typingUsers, w'.suppressUntil, now);
            && (now < t0 + SUPPRESS_MS ==> !r.active && r.displayNames == b.displayNames && r.tidy == Armed(now + TIDY_MS))
            && (now >= t0 + SUPPRESS_MS && typingUsers != [] ==> r.active && |r.displayNames| == |typingUsers|)
  {
  }

  /** The list's data: the messages, plus the bubble's synthetic row while names are displayed. */
  function RenderData(messages: seq<Message>, displayNames: seq<string>): (r: seq<Message>)
    ensures |r| == |messages| + (if displayNames == [] then 0 else 1)
    ensures r[..|messages|] == messages
    ensures displayNames != [] ==> r[|messages|].id == TYPING_ROW_ID
  {
    if |displayNames| == 0 then messages
    else messages + [Message(TYPING_ROW_ID, TYPING_ROW_ID, "", "", None)]
  }

  /** How `renderItem` draws a row: the bubble, or a message with its author shown only for others' messages. */
  datatype Row = BubbleRow(names: seq<string>, active: bool) | MessageRow(own: bool, author: Option<string>, text: string)

  function RenderRow(item: Message, me: Option<string>, b: Bubble): (r: Row)
    ensures r.BubbleRow? <==> item.id == TYPING_ROW_ID
    ensures r.MessageRow? ==> (r.own <==> me == Some(item.userId)) && (r.author.Some? <==> !r.own)
  {
    if item.id == TYPING_ROW_ID then BubbleRow(b.displayNames, b.active)
    else
      var own := me.Some? && item.userId == me.value;
      MessageRow(own, if own then None else Some(item.userNick), item.text)
  }

  /** When no real message uses the reserved id, the bubble appears exactly once, last, and only while names are displayed. */
  lemma BubbleRowOnce(messages: seq<Message>, b: Bubble, me: Option<string>)
    requires forall i :: 0 <= i < |messages| ==> messages[i].id != TYPING_ROW_ID
    ensures var rows := RenderData(messages, b.displayNames);
            forall i :: 0 <= i < |rows| ==> (RenderRow(rows[i], me, b).BubbleRow? <==> i == |messages|)
  {
    var rows := RenderData(messages, b.displayNames);
    forall i | 0 <= i < |rows|
      ensures RenderRow(rows[i], me, b).BubbleRow? <==> i == |messages|
    {
      if i < |messages| {
        assert rows[i] == rows[..|messages|][i];
      }
    }
  }

  /** `m[k] || …`: a present, non-empty entry. */
  predicate Has(m: map<string, string>, k: string) {
    k in m && m[k] != ""
  }

  /** `nickMap[uid] || membersByIdRef.current[uid] || 'Użytkownik'`. */
  function CachedNick(nickMap: map<string, string>, membersById: map<string, string>, uid: string): (r: string)
    ensures r != ""
    ensures Has(nickMap, uid) ==> r == nickMap[uid]
    ensures !Has(nickMap, uid) && Has(membersById, uid) ==> r == membersById[uid]
    ensures !Has(nickMap, uid) && !Has(membersById, uid) ==> r == DEFAULT_NICK
  {
    if Has(nickMap, uid) then nickMap[uid] else if Has(membersById, uid) then membersById[uid] else DEFAULT_NICK
  }

  /**
   * The author's nick: the cached one, unless that is the default, in which
   * case the author's profile (`profiles`, the nick field of existing user
   * documents) is read; a missing document keeps the default.
   */
  function ResolveNick(nickMap: map<string, string>, membersById: map<string, string>,
                       profiles: map<string, string>, uid: string): (r: string)
    ensures r != ""
    ensures CachedNick(nickMap, membersById, uid) != DEFAULT_NICK ==> r == CachedNick(nickMap, membersById, uid)
    ensures CachedNick(nickMap, membersById, uid) == DEFAULT_NICK ==>
              r == (if uid in profiles then (if profiles[uid] != "" then profiles[uid] else DEFAULT_NICK) else DEFAULT_NICK)
  {
    var cached := CachedNick(nickMap, membersById, uid);
    if cached != DEFAULT_NICK then cached
    else if uid in profiles then (if profiles[uid] != "" then profiles[uid] else DEFAULT_NICK)
    else cached
  }

  /** Profiles are consulted only for a default nick: otherwise any two profile stores give the same nick. */
  lemma ProfileOnlyForDefault(nickMap: map<string, string>, membersById: map<string, string>,
                              p1: map<string, string>, p2: map<string, string>, uid: string)
    requires CachedNick(nickMap, membersById, uid) != DEFAULT_NICK
    ensures ResolveNick(nickMap, membersById, p1, uid) == ResolveNick(nickMap, membersById, p2, uid)
  {
  }

  /** A message document as the snapshot delivers it. */
  datatype MessageDoc = MessageDoc(id: string, userId: string, text: string, timestamp: Option<Stamp>)

  /** The message built from `d`: every field copied, the nick resolved. */
  function ProjectMessage(d: MessageDoc, nickMap: map<string, string>, membersById: map<string, string>,
                          profiles: map<string, string>): (m: Message)
    ensures m.id == d.id && m.userId == d.userId && m.text == d.text && m.timestamp == d.timestamp
    ensures m.userNick == ResolveNick(nickMap, membersById, profiles, d.userId)
  {
    Message(d.id, d.userId, ResolveNick(nickMap, membersById, profiles, d.userId), d.text, d.timestamp)
  }

  /** The message snapshot listener's loop: the whole list rebuilt, in snapshot order. */
  method BuildMessages(docs: seq<MessageDoc>, nickMap: map<string, string>, membersById: map<string, string>,
                       profiles: map<string, string>) returns (list: seq<Message>)
    ensures |list| == |docs|
    ensures forall i :: 0 <= i < |docs| ==> list[i] == ProjectMessage(docs[i], nickMap, membersById, profiles)
  {
    list := [];
    for i := 0 to |docs|
      invariant |list| == i
      invariant forall j :: 0 <= j < i ==> list[j] == ProjectMessage(docs[j], nickMap, membersById, profiles)
    {
      var data := docs[i];
      var userNick := if Has(nickMap, data.userId) then nickMap[data.userId]
                      else if Has(membersById, data.userId) then membersById[data.userId]
                      else DEFAULT_NICK;
      if userNick == "" || userNick == DEFAULT_NICK {
        if data.userId in profiles {
          userNick := if profiles[data.userId] != "" then profiles[data.userId] else DEFAULT_NICK;
        }
      }
      list := list + [Message(data.id, data.userId, userNick, data.text, data.timestamp)];
    }
  }

  /** A participant's nick as the initial load reads it from their user document. */
  function MemberNick(profiles: map<string, string>, uid: string): (r: string)
    ensures r != ""
    ensures Has(profiles, uid) ==> r == profiles[uid]
    ensures !Has(profiles, uid) ==> r == DEFAULT_NICK
  {
    if uid in profiles && profiles[uid] != "" then profiles[uid] else DEFAULT_NICK
  }

  /** The initial load's loop over the participants: one member each, in order, and the same nick in `nickMap`. */
  method LoadMembers(participants: seq<string>, profiles: map<string, string>)
    returns (members: seq<Member>, nickMap: map<string, string>)
    ensures |members| == |participants|
    ensures forall i :: 0 <= i < |participants| ==> members[i] == Member(participants[i], MemberNick(profiles, participants[i]))
    ensures forall k :: k in nickMap <==> k in participants
    ensures forall k :: k in nickMap ==> nickMap[k] == MemberNick(profiles, k)
  {
    members, nickMap := [], map[];
    for i := 0 to |participants|
      invariant |members| == i
      invariant forall j :: 0 <= j < i ==> members[j] == Member(participants[j], MemberNick(profiles, participants[j]))
      invariant forall k :: k in nickMap <==> k in participants[..i]
      invariant forall k :: k in nickMap ==> nickMap[k] == MemberNick(profiles, k)
    {
      var participantId := participants[i];
      var nick := if participantId in profiles then (if profiles[participantId] != "" then profiles[participantId] else DEFAULT_NICK)
                  else DEFAULT_NICK;
      members := members + [Member(participantId, nick)];
      nickMap := nickMap[participantId := nick];
      assert participants[..i + 1] == participants[..i] + [participantId];
    }
    assert participants[..|participants|] == participants;
  }

  /** `membersById`: each member's nick under its uid, a later member overwriting an earlier one. */
  function MembersById(members: seq<Member>): (m: map<string, string>)
    ensures forall k :: k in m <==> exists i :: 0 <= i < |members| && members[i].uid == k
    decreases |members|
  {
    if members == [] then map[]
    else
      var rest := MembersById(members[..|members| - 1]);
      var last := members[|members| - 1];
      assert forall k :: k in rest ==> exists i :: 0 <= i < |members| && members[i].uid == k by {
        forall k | k in rest ensures exists i :: 0 <= i < |members| && members[i].uid == k {
          var i :| 0 <= i < |members| - 1 && members[..|members| - 1][i].uid == k;
          assert members[i].uid == k;
        }
      }
      rest[last.uid := last.nick]
  }

  /** The `forEach` that fills `membersById`. */
  method BuildMembersById(members: seq<Member>) returns (m: map<string, string>)
    ensures m == MembersById(members)
  {
    m := map[];
    var i := 0;
    while i < |members|
      invariant 0 <= i <= |members|
      invariant m == MembersById(members[..i])
    {
      assert members[..i + 1][..i] == members[..i];
      m := m[members[i].uid := members[i].nick];
      i := i + 1;
    }
    assert members[..i] == members;
  }

  /** Under `MembersById`, the last member with a given uid wins. */
  lemma {:induction false} MembersByIdLastWins(members: seq<Member>, i: nat)
    requires i < |members|
    requires forall j :: i < j < |members| ==> members[j].uid != members[i].uid
    ensures members[i].uid in MembersById(members) && MembersById(members)[members[i].uid] == members[i].nick
    decreases |members|
  {
    if i < |members| - 1 {
      var init := members[..|members| - 1];
      assert init[i] == members[i];
      MembersByIdLastWins(init, i);
    }
  }

  /** When every member carries the nick its profile gives, so does every entry of `MembersById`. */
  lemma {:induction false} MembersByIdFromProfiles(members: seq<Member>, profiles: map<string, string>)
    requires forall i :: 0 <= i < |members| ==> members[i].nick == MemberNick(profiles, members[i].uid)
    ensures forall k :: k in MembersById(members) ==> MembersById(members)[k] == MemberNick(profiles, k)
    decreases |members|
  {
    if members != [] {
      var init := members[..|members| - 1];
      assert forall i :: 0 <= i < |init| ==> init[i] == members[i];
      MembersByIdFromProfiles(init, profiles);
    }
  }

  /** After the initial load the two nick caches agree on every participant. */
  lemma LoadedCachesAgree(participants: seq<string>, profiles: map<string, string>,
                          members: seq<Member>, nickMap: map<string, string>)
    requires |members| == |participants|
    requires forall i :: 0 <= i < |participants| ==> members[i] == Member(participants[i], MemberNick(profiles, participants[i]))
    requires forall k :: k in nickMap <==> k in participants
    requires forall k :: k in nickMap ==> nickMap[k] == MemberNick(profiles, k)
    ensures forall k :: k in MembersById(members) <==> k in nickMap
    ensures forall k :: k in nickMap ==> MembersById(members)[k] == nickMap[k]
  {
    assert forall i :: 0 <= i < |members| ==> members[i].uid == participants[i];
    MembersByIdFromProfiles(members, profiles);
    var m := MembersById(members);
    assert forall k :: k in nickMap ==> k in m by {
      forall k | k in nickMap ensures k in m {
        var i :| 0 <= i < |participants| && participants[i] == k;
        assert members[i].uid == k;
      }
    }
    assert forall k :: k in m ==> k in nickMap by {
      forall k | k in m ensures k in nickMap {
        var i :| 0 <= i < |members| && members[i].uid == k;
        assert participants[i] == k;
      }
    }
  }
}
