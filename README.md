# NearUp core, modelled in Dafny

NearUp is a React Native app on Firebase. Users create local events, join
them and talk in a group chat per event. This project models the parts of the
app that hold its logic, and proves properties of that model:

- **The group chat screen** (`app/GroupChat.tsx`). It covers:
  - the typing-presence controller. `setTyping` upserts or deletes the user's
    record in the event's `typing` collection. `scheduleTyping` drives a
    1500 ms heartbeat interval and a 3000 ms inactivity timeout.
  - the typing snapshot filter, which drops stale, anonymous and own records.
  - the three-second suppression window after a new message.
  - the display effect that shows the typing bubble and fades it out after 360 ms.
  - the message feed and its nick resolution (the load-time cache, then
    `membersById`, then the author's user document).
  - the `membersById` map.
  - the list data with its synthetic `__typing__` row, and how `renderItem`
    draws each row.
  - `sendMessage` and `leaveGroup`.
- **Firebase error texts** (`utils/firebaseErrors.ts`): a thrown error becomes
  the Polish message shown in alerts.
- **Event categories** (`types/eventCategory.ts`) and the pill selector
  (`components/CategorySelector.tsx`).
- **Local notifications** (`utils/notifications.ts`):
  - the "currently viewing" flag;
  - the 24-hour reminder and the device key/value store entries that track it;
  - cancelling one reminder or all of them;
  - where a tapped notification leads.
- **The create-event form** (`app/CreateEvent.tsx`): reverse geocoding of a map
  tap, address search, validation and the write of the event document.
- **The profile screen** (`app/UserProfile.tsx`): loading the profile, editing
  the favourite categories as comma-separated text, and saving.

## How the model is built

- Pure code becomes datatypes, functions and lemmas. Components that change
  state become classes: `GroupChat.ChatScreen`,
  `Notifications.NotificationCenter`, `CreateEvent.CreateEventForm` and
  `UserProfile.ProfileScreen`. Their methods `modify` the fields the component
  updates.
- The group chat's typing and display handlers are stated against pure
  transition functions, and the lemmas about those functions carry the
  properties. For example, `ChatScreen.ScheduleTyping` ends in
  `TypingPresence.Edit` of the old state, and `ChatScreen.ShowTypers` ends in
  `TypingFeed.DisplayStep`. The other methods state their new state directly,
  per outcome: every field they change, and the alert they add.
- Timers are explicit deadlines (`Timers.Timer`). A timer callback is a
  method that may only run once its timer is armed and due.
- Three handlers, whose state between their awaits is visible, are split
  into a method before the await and one after it. They are the map press
  (`BeginMapPress`/`FinishMapPress`), the address search
  (`BeginAddressSearch`/`FinishAddressSearch`) and the profile save
  (`BeginSave`/`FinishSave`). Every other handler runs as one method across
  its awaits. That covers `Load`, `SendMessage`, `LeaveGroup`,
  `HandleSubmit`, `FetchProfile` and the reminder methods. The outcome of each
  awaited call is a parameter, for example `FirebaseErrors.WriteOutcome` for
  a Firestore write.
- Every clock reading (`Date.now()`), and every answer from Firestore, Expo
  Location, AsyncStorage or the OS notification scheduler, is also a
  parameter.
- JavaScript's `null`/`undefined` is `Option`. A missing string field is "",
  following JavaScript's falsiness. `trim`, `split`, `join`, `includes` and
  `startsWith` are defined in `Text` as ECMAScript defines them.

## Model

| member | source | states |
|---|---|---|
| Text.Trim | app/GroupChat.tsx:427 | `trim` gives a trimmed result made of characters of its input. The result is empty exactly when the input is all whitespace. |
| Text.TrimUnique | app/CreateEvent.tsx:62 | `trim` keeps exactly the stretch from the first non-blank character to the last one. |
| Text.TrimOfTrimmed | app/UserProfile.tsx:104 | Trimming an already trimmed string changes nothing. |
| Text.TrimLeadingBlank | app/UserProfile.tsx:104 | A leading blank does not change the result of `trim`. |
| Text.Split | app/UserProfile.tsx:104 | `split` on one character gives one more piece than there are separators. No piece contains the separator. |
| Text.ContainsAt | utils/firebaseErrors.ts:34 | `includes` holds as soon as the substring occurs at some offset. |
| Lists.RemoveAll | components/CategorySelector.tsx:12 | `filter(s => s !== x)` (also Firestore's `arrayRemove`) removes every `x`, keeps every other entry, and shortens the list exactly when `x` was there. |
| Lists.RemoveAllAppend | components/CategorySelector.tsx:12 | Removal distributes over concatenation, so the entries kept stay in their order. |
| Lists.RemoveAllDistinct | components/CategorySelector.tsx:12 | Removal keeps a list without duplicates free of duplicates. |
| FirebaseErrors.CodeOf | utils/firebaseErrors.ts:2 | The code used is `code` when truthy, else `status` when truthy, else "". |
| FirebaseErrors.FirebaseErrorMessage | utils/firebaseErrors.ts:1-38 | The text is never empty. A known string code gives its table text whatever the message says. Otherwise a network failure in the message gives the network text, a non-empty message under 150 characters is shown verbatim, and anything else gives the generic text. |
| FirebaseErrors.CodeSwitch | utils/firebaseErrors.ts:5-31 | The switch recognises exactly the codes of the table `KnownCodes`, and gives each its own text. |
| FirebaseErrors.Fallback | utils/firebaseErrors.ts:34-37 | Without a recognised code: a network failure gives the network text, a non-empty message under 150 characters is shown as is, and anything else gives the generic text. The result is never empty. |
| FirebaseErrors.StatusOnlyWithoutCode | utils/firebaseErrors.ts:2 | `status` makes no difference when `code` is truthy. |
| FirebaseErrors.NetworkErrorRecognised | utils/firebaseErrors.ts:34 | With no code, any message that contains `network-request-failed` gives the network text. |
| EventCategories.EventCategoryOptions | types/eventCategory.ts:10-13 | There is one option per category, in order, and each is labelled with its own value. |
| EventCategories.CategoriesWellFormed | types/eventCategory.ts:1-8 | `EVENT_CATEGORIES` has six distinct entries that are exactly the members of the `EventCategory` union. |
| CategorySelector.Toggle | components/CategorySelector.tsx:11-14 | Toggling flips membership of the pressed category and of no other. An absent category is appended at the end; a present one is removed. |
| CategorySelector.ToggleTwice | components/CategorySelector.tsx:11-14 | Pressing an unselected category twice restores the selection. |
| CategorySelector.ToggleDistinct | components/CategorySelector.tsx:11-14 | A selection without duplicates stays without duplicates. |
| CategorySelector.Pills | components/CategorySelector.tsx:20-27 | One pill per category in list order, each highlighted exactly when its category is selected. |
| CategorySelector.ToggleOnText | components/CategorySelector.tsx:11-14 | Given a string where an array belongs, `toggle` throws exactly when the string contains the category. Otherwise it emits the string's characters followed by the category. |
| Notifications.ReminderKey | utils/notifications.ts:7 | A reminder key is the prefix `event_reminder_` followed by the event id. |
| Notifications.CeilDiv | utils/notifications.ts:99 | `Math.ceil(a / b)` is the least `q` with `a <= q * b`. |
| Notifications.ReminderDelay | utils/notifications.ts:96-100 | No reminder is scheduled when the time 24 hours before the event has passed. Past that guard, a reminder is scheduled exactly when the ceiling of the remaining seconds is positive. A scheduled delay is at least one second and is that ceiling. |
| Notifications.SingleReadingAlwaysSchedules | utils/notifications.ts:97-100 | With one clock reading, a reminder still ahead is always scheduled, so the second guard cannot fire. |
| Notifications.SecondGuardReachable | utils/notifications.ts:97-100 | With two readings a millisecond apart, only the second guard stops a zero delay. |
| Notifications.TapRoute | utils/notifications.ts:24-33 | A tap opens the group chat of the notification's `eventId` exactly when that id is present and non-empty. |
| Notifications.NotificationCenter.constructor | utils/notifications.ts:10-13 | The viewing flag starts as null and the two stores start as given. |
| Notifications.NotificationCenter.SetCurrentViewingEvent | utils/notifications.ts:15-17 | The flag takes the given value. |
| Notifications.NotificationCenter.GetCurrentViewingEvent | utils/notifications.ts:19-21 | Returns the flag and changes nothing. |
| Notifications.NotificationCenter.ScheduleEventReminder | utils/notifications.ts:89-117 | Does nothing under Expo Go, when it is too late, or when scheduling fails. Otherwise it schedules the titled 24-hour reminder. When the store write succeeds it records the id under the event's key and returns the id. |
| Notifications.NotificationCenter.CancelEventReminder | utils/notifications.ts:119-134 | When an id is stored for the event, it cancels that notification and removes the key. Otherwise nothing changes. |
| Notifications.NotificationCenter.CancelAllRemindersForUser | utils/notifications.ts:136-152 | Cancels every non-empty stored reminder id, removes exactly the prefixed keys, and leaves every other key and notification alone. |
| Notifications.ViewingFlagRoundTrip | utils/notifications.ts:13-21 | The getter returns what the setter was last given. |
| UserProfile.FormatCategories | app/UserProfile.tsx:104 | The edit field shows nothing for no categories, a single category as itself, and entries separated by a comma and a blank. |
| UserProfile.TrimAll | app/UserProfile.tsx:104 | Each piece is trimmed, in place. |
| UserProfile.ParseCategories | app/UserProfile.tsx:104 | Typing text into the field stores one more entry than there are commas. Every entry is trimmed and contains no comma. |
| UserProfile.ParseFormat | app/UserProfile.tsx:104 | Formatting a non-empty list of trimmed, comma-free categories and parsing it back gives the list. |
| UserProfile.FormatCommaCount | app/UserProfile.tsx:104 | A formatted list of trimmed, comma-free entries holds exactly one comma between neighbours. |
| UserProfile.EmptyListDoesNotRoundTrip | app/UserProfile.tsx:104 | The empty list formats to "", which parses to one empty category. |
| UserProfile.ReadOnlyCategories | app/UserProfile.tsx:106 | The line is never empty: the joined categories when the join is non-empty, else "Brak". |
| UserProfile.IsOwnProfile | app/UserProfile.tsx:29 | The profile is one's own exactly when a user is signed in and their uid is the route's `userId`. |
| UserProfile.VisibleControls | app/UserProfile.tsx:86-114 | Logout and save/edit show exactly on one's own profile. The photo button shows exactly on one's own profile in edit mode. |
| UserProfile.OthersSeeNoOwnerControls | app/UserProfile.tsx:86-114 | A signed-out viewer, or another user, sees none of the owner's controls, in edit mode or not. |
| UserProfile.InitialEdit | app/UserProfile.tsx:12 | Edit mode starts on exactly when the `edit` parameter is the string "true". |
| UserProfile.Apply | app/UserProfile.tsx:53-58 | The update replaces the four written fields and keeps the rest of the document. |
| UserProfile.ProfileScreen.constructor | app/UserProfile.tsx:9-18 | The screen starts loading, with empty fields, and in the edit mode the route asks for. |
| UserProfile.ProfileScreen.FetchProfile | app/UserProfile.tsx:31-48 | An existing document is copied, with "" and [] for absent fields. A missing one leaves the fields alone. Loading ends either way. |
| UserProfile.ProfileScreen.EditCategories | app/UserProfile.tsx:104 | The stored list is the parse of the typed text and is never empty. |
| UserProfile.ProfileScreen.BeginSave | app/UserProfile.tsx:50-58 | Saving starts and the four current field values are sent. |
| UserProfile.ProfileScreen.FinishSave | app/UserProfile.tsx:52-64 | On success the document is updated, edit mode ends and the success alert is shown. On failure only the error alert is added. `saving` ends either way. |
| CreateEvent.FormatAddress | app/CreateEvent.tsx:62 | The address built from a geocoding hit is trimmed and always keeps the template's comma, so it is never empty. |
| CreateEvent.CityBeforeDistrict | app/CreateEvent.tsx:62 | The district matters only when the city is missing. |
| CreateEvent.EmptyPlaceAddress | app/CreateEvent.tsx:62 | A hit with every part missing gives the address ",". |
| CreateEvent.RequiredMissing | app/CreateEvent.tsx:103 | A form that passes the check has every text filled in and every choice made. An empty text field always fails it. |
| CreateEvent.CategoryAfterPressAsWritten | app/CreateEvent.tsx:154-156 | As written, a pill press never chooses a category. It keeps the old one or empties it, and on an empty category every press gives "". |
| CreateEvent.AsWrittenCategoryStaysEmpty | app/CreateEvent.tsx:154-156 | As written, no sequence of pill presses ever sets the category. |
| CreateEvent.AsWrittenSportPressIgnored | app/CreateEvent.tsx:154-156 | As written, pressing "Sport" on a fresh form leaves the category empty, so submitting is refused. |
| CreateEvent.CategoryAfterPress | app/CreateEvent.tsx:154-156 | With the corrected adapter, pressing the chosen category clears it and pressing another chooses that one. |
| CreateEvent.CorrectedPressEnablesSubmit | app/CreateEvent.tsx:103 | With the corrected adapter, one press makes an otherwise filled form pass validation. |
| CreateEvent.CreateEventForm.constructor | app/CreateEvent.tsx:42-51 | Every field starts empty or unset. |
| CreateEvent.CreateEventForm.UseDevicePosition | app/CreateEvent.tsx:29-39 | With permission granted, the device position becomes the location. |
| CreateEvent.CreateEventForm.BeginMapPress | app/CreateEvent.tsx:55-58 | The tapped point becomes the location at once, and geocoding starts. |
| CreateEvent.CreateEventForm.FinishMapPress | app/CreateEvent.tsx:59-73 | A hit fills both address fields with the formatted address. No hit or a failure shows its fixed text and clears the input. Geocoding ends on every path. |
| CreateEvent.CreateEventForm.BeginAddressSearch | app/CreateEvent.tsx:77-79 | A search starts exactly when the trimmed input is non-empty. It remembers the input it started with. |
| CreateEvent.CreateEventForm.FinishAddressSearch | app/CreateEvent.tsx:80-99 | A match sets the location. Its reverse hit sets both address fields; no reverse hit keeps the searched text as the address. No match and a failure each add their alert and leave the address alone. Geocoding ends on every path. |
| CreateEvent.CreateEventForm.PressCategory | app/CreateEvent.tsx:154-156 | A press as written leaves the category empty or as it was. It never becomes the pressed category. |
| CreateEvent.CreateEventForm.PressCategoryCorrected | app/CreateEvent.tsx:154-156 | With the corrected adapter, a press selects the pressed category, or clears it when it was already chosen. |
| CreateEvent.CreateEventForm.HandleSubmit | app/CreateEvent.tsx:102-132 | A missing field only alerts. Without a user nothing happens. A successful write adds exactly the filled-in document with the user's uid, alerts success and navigates home. A failed write alerts with the error text and adds nothing. |
| TypingPresence.SetTyping | app/GroupChat.tsx:269-282 | Only the user's own record is ever touched. Typing upserts it with the user's nick and the time; not typing deletes it. A failed write, or a missing event or user, changes nothing. |
| TypingPresence.Edit | app/GroupChat.tsx:284-313 | A keystroke replaces the pending inactivity timeout by one due 3000 ms later. The first keystroke while idle writes presence once and starts one heartbeat, while later ones write nothing. The two well-formed controller shapes are preserved. |
| TypingPresence.HeartbeatFire | app/GroupChat.tsx:293-295 | The heartbeat rewrites the record and is next due 1500 ms later. |
| TypingPresence.InactivityFire | app/GroupChat.tsx:303-312 | The timeout clears the heartbeat, turns typing off, deletes the record and returns the controller to idle with nothing pending. |
| TypingPresence.NoExpiryWhileTyping | app/GroupChat.tsx:298-312 | While keystrokes come less than 3000 ms apart, the inactivity timeout never runs, the controller stays typing and the record is never deleted. |
| TypingPresence.ExpiryAfterQuietGap | app/GroupChat.tsx:303-312 | 3000 ms after the last keystroke the timeout can run, and running it deletes the record and goes idle. |
| TypingPresence.IdleHasNoTimerEvents | app/GroupChat.tsx:305-311 | Once idle no timer is pending, so the record is deleted once and nothing rewrites it before the next keystroke. |
| TypingPresence.HeartbeatRecreatesAfterSend | app/GroupChat.tsx:435-441 | Sending deletes the record but leaves the heartbeat running, so the next heartbeat writes the record again. |
| TypingPresence.RunWellFormed | app/GroupChat.tsx:284-313 | Over any run of keystrokes and timers the controller stays idle-with-nothing or typing with exactly one heartbeat and one timeout. No second interval ever leaks. |
| TypingFeed.PeerOf | app/GroupChat.tsx:259 | A typer keeps its uid, and its nick falls back to "Użytkownik". |
| TypingFeed.TypingPeers | app/GroupChat.tsx:251-263 | No more typers than records. None is anonymous or the current user, and none has an empty nick. |
| TypingFeed.TypingPeersAppend | app/GroupChat.tsx:254 | The filter distributes over concatenation, so snapshot order is kept. |
| TypingFeed.TypingPeersMembership | app/GroupChat.tsx:257-260 | Someone shows as typing exactly when one of the records passes the filter. |
| TypingFeed.StalenessBoundary | app/GroupChat.tsx:257 | A record exactly 6000 ms old still shows, and one a millisecond older does not. |
| TypingFeed.CollectTypingPeers | app/GroupChat.tsx:251-263 | The listener's loop computes exactly the filtered typers. |
| TypingFeed.TypingLabel | app/GroupChat.tsx:100 | One name gives "X pisze". Two or more give the first two names and "i inni piszą". |
| TypingFeed.LabelIgnoresRest | app/GroupChat.tsx:100 | Names after the second never reach the caption. |
| TypingFeed.SuppressionStep | app/GroupChat.tsx:335-343 | A new last message id opens a window that ends 3000 ms later. An empty list or the same last id changes nothing. |
| TypingFeed.SuppressionIdempotent | app/GroupChat.tsx:339 | A second run on the same list changes nothing, whenever it runs. |
| TypingFeed.ShownNames | app/GroupChat.tsx:369-373 | No names before the window ends (a strict test). Afterwards every typer's nick, in order. |
| TypingFeed.Nicks | app/GroupChat.tsx:372 | The nicks of the typers, pointwise. |
| TypingFeed.DisplayStep | app/GroupChat.tsx:365-411 | The bubble is active exactly when there are names. Those names are shown at once with no pending tidy-up. No names keep the old ones while the fade runs, with a tidy-up due 360 ms later. |
| TypingFeed.TidyFire | app/GroupChat.tsx:392-394 | The tidy-up drops the names and nothing else. |
| TypingFeed.SuppressionWindow | app/GroupChat.tsx:334-411 | For 3000 ms after a new message the bubble is inactive whoever types, and keeps its previous names until a tidy-up due 360 ms later. After that, typers show again. |
| TypingFeed.RenderData | app/GroupChat.tsx:540-548 | The list is the messages, unchanged, plus one `__typing__` row exactly while names are displayed. |
| TypingFeed.RenderRow | app/GroupChat.tsx:559-579 | The bubble is drawn exactly for the `__typing__` row. A message is own exactly when it is the current user's, and the author is shown exactly on others' messages. |
| TypingFeed.BubbleRowOnce | app/GroupChat.tsx:540-566 | When no message uses the reserved id, the bubble row appears once, last, and only while names are displayed. |
| TypingFeed.CachedNick | app/GroupChat.tsx:195 | The nick is the load cache's entry, else the `membersById` entry, else "Użytkownik". It is never empty. |
| TypingFeed.ResolveNick | app/GroupChat.tsx:195-203 | The author's profile is read only when the cached nick is the default. A missing profile keeps the default. |
| TypingFeed.ProfileOnlyForDefault | app/GroupChat.tsx:197 | With a non-default cached nick, the profile store makes no difference. |
| TypingFeed.ProjectMessage | app/GroupChat.tsx:205-211 | A message copies its document's fields and carries the resolved nick. |
| TypingFeed.BuildMessages | app/GroupChat.tsx:190-213 | The snapshot loop rebuilds the whole list in snapshot order, one projected message per document. |
| TypingFeed.MemberNick | app/GroupChat.tsx:178 | A participant's nick is the profile's nick, else "Użytkownik". |
| TypingFeed.LoadMembers | app/GroupChat.tsx:174-181 | One member per participant, in order. The local cache has exactly the participants as keys, with the same nicks. |
| TypingFeed.MembersById | app/GroupChat.tsx:144-151 | Its keys are exactly the members' uids. |
| TypingFeed.BuildMembersById | app/GroupChat.tsx:146-148 | The `forEach` builds exactly `MembersById`. |
| TypingFeed.MembersByIdLastWins | app/GroupChat.tsx:147 | For a repeated uid, the last member's nick wins. |
| TypingFeed.MembersByIdFromProfiles | app/GroupChat.tsx:144-181 | Members loaded from profiles give a map whose every entry is the profile nick. |
| TypingFeed.LoadedCachesAgree | app/GroupChat.tsx:163-195 | After loading, the local cache and `membersById` have the same keys and the same nicks. |
| GroupChat.SentTextIsTrimmed | app/GroupChat.tsx:427-432 | A message that passes the guard is stored non-empty, trimmed and no longer than typed. |
| GroupChat.ChatScreen.constructor | app/GroupChat.tsx:115-142 | The screen starts loading, with empty lists, no window, an idle controller and a well-formed state. |
| GroupChat.ChatScreen.Load | app/GroupChat.tsx:153-224 | No event or no user does nothing. A failed read alerts and stops loading. A found event is stored with its participants, one member each, and both nick caches in agreement. Found or missing, the message listener is attached. |
| GroupChat.ChatScreen.OnMessagesSnapshot | app/GroupChat.tsx:190-217 | The list is rebuilt, loading ends, and the suppression step then the display step follow from the new list. |
| GroupChat.ChatScreen.OnTypingSnapshot | app/GroupChat.tsx:248-264 | Typers are the filtered peers, and the display step follows. |
| GroupChat.ChatScreen.ShowTypers | app/GroupChat.tsx:365-411 | The bubble ends as `DisplayStep` of the old bubble. |
| GroupChat.ChatScreen.TidyFire | app/GroupChat.tsx:392-394 | The due tidy-up clears the names. |
| GroupChat.ChatScreen.EditText | app/GroupChat.tsx:588-591 | The text is kept, and presence and the controller end as `Edit` of the old state. |
| GroupChat.ChatScreen.ScheduleTyping | app/GroupChat.tsx:284-313 | Presence and the controller end as `Edit` of the old state, and the state stays well-formed. |
| GroupChat.ChatScreen.HeartbeatFire | app/GroupChat.tsx:293-295 | The due heartbeat ends as `HeartbeatFire` of the old state. |
| GroupChat.ChatScreen.InactivityFire | app/GroupChat.tsx:303-312 | The due timeout returns the controller to idle and deletes the record. |
| GroupChat.ChatScreen.SendMessage | app/GroupChat.tsx:426-446 | A blank text, or a missing user or event, does nothing. A successful send adds the trimmed text under the user's uid, clears the input and deletes the record. A failed send only alerts with the error text. The typing flag and timers are untouched. |
| GroupChat.ChatScreen.LeaveGroup | app/GroupChat.tsx:448-474 | It always asks first. On confirmation the user leaves the participants, then the event leaves the joined events, then the record is deleted and the screen goes back. A failed write alerts and skips the later steps. |
| GroupChat.ChatScreen.Rows | app/GroupChat.tsx:538-579 | One drawn row per list item, messages plus the bubble row while names are displayed. |

## Left out

- GroupChat.ChatScreen.HeartbeatFire: the heartbeat computes its nick from the current `membersById`. In the source, the `setInterval` callback at app/GroupChat.tsx:293-295 calls the `setTyping` closure of the render in which typing started. That closure reads `membersById` as it was at that render (line 274), so a member list that loads later is not seen until typing restarts.
- The read watermark written when the chat closes (app/GroupChat.tsx:233-245) is a fire-and-forget write whose errors are ignored. It has no effect on the screen.
- Scrolling, keyboard handling, the dot and fade animations of `TypingBubble`, headers, menus, the members modal and all styling are presentation only.
- Every method runs to completion before the next one starts. In real JavaScript another handler can run at each await, both inside the handlers modelled as one method and between the two halves of a split one. A React state update also becomes visible only on the next render. Neither effect is modelled.
- `Date` parsing and formatting: the event's ISO date, `toISOString` and `toTimeString`. The instants come in as integers, and `date`, `time` and `createdAt` as strings.
- Coordinates are integers. The model only stores and compares them, so floating point plays no part.
- Timers fire when their method is called with a due time. Per-millisecond scheduling jitter is not modelled.
- FirebaseErrors.FirebaseErrorMessage: the 150 limit is compared with a length in Unicode scalar values, not in UTF-16 code units as JavaScript counts. The two differ only for characters outside the Basic Multilingual Plane.
- A user-document read that throws partway through the initial load, or inside the message listener, is not modelled. Every such read here ends in a present or missing document.
- Notification permissions, the Android channel, the foreground handler and `presentLocalNotification` are left out because they are platform plumbing.
- Notifications.NotificationCenter.CancelEventReminder and Notifications.NotificationCenter.CancelAllRemindersForUser: an exception partway through (after some cancels and before the removal) is not modelled.
- Notifications.NotificationCenter.CancelAllRemindersForUser: it visits the reminder keys in an unspecified order, whereas `multiGet` returns them in the store's order. The end state is the same either way.
- The 500-character `maxLength` of the chat input is enforced by the text input widget, not by the code.
- GroupChat.ChatScreen.SendMessage and GroupChat.ChatScreen.LeaveGroup pass instant 0 to the deletion. A deletion does not read the clock, so the time is irrelevant.
- The photo picker and logout of the profile screen, and its redirect when signed out, are navigation and device calls.

## Findings

| source | as written | input that shows it | evidently intended | confidence | as-written member | corrected member |
|---|---|---|---|---|---|---|
| app/CreateEvent.tsx:154-156 | The form passes its category string as the selector's `selected` and keeps `onChange`'s value only when it is a string. `toggle` always emits an array, or throws from `filter` on a string, so the category stays "" and validation always fails. | Press "Sport" on a fresh form, then submit. | A press selects the category: it sets the category, or clears it when pressed again. | not executed | CreateEvent.AsWrittenSportPressIgnored | CreateEvent.CategoryAfterPress |
