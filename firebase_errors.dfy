/**
 * Turning a thrown Firebase error into the Polish text shown in alerts
 * (utils/firebaseErrors.ts).
 */
module FirebaseErrors {
  import opened Text
  import opened Wrappers

  /** The value of a property of the thrown object, restricted to the kinds the code tests. */
  datatype JsValue = Undefined | Null | Str(s: string) | Num(n: int) | Bool(b: bool)

  /** JavaScript truthiness. */
  predicate Truthy(v: JsValue) {
    match v
    case Undefined => false
    case Null => false
    case Str(s) => s != ""
    case Num(n) => n != 0
    case Bool(b) => b
  }

  /**
   * A thrown value: its `code` and `status` properties, its `message`
   * ("" when absent or empty) and what `String(e)` renders it as.
   */
  datatype Thrown = Thrown(code: JsValue, status: JsValue, message: string, text: string)

  /** How an awaited Firestore write ends: it resolves, or it throws `error`. */
  datatype WriteOutcome = WriteOk | WriteThrew(error: Thrown)

  const INVALID_EMAIL := "Nieprawidłowy adres e-mail."
  const EMAIL_IN_USE := "Ten adres e-mail jest już używany."
  const USER_NOT_FOUND := "Nie znaleziono konta o podanym e-mailu."
  const WRONG_PASSWORD := "Nieprawidłowe hasło."
  const WEAK_PASSWORD := "Hasło jest zbyt słabe. Wybierz dłuższe hasło."
  const TOO_MANY_REQUESTS := "Zbyt wiele prób. Spróbuj ponownie później."
  const RECENT_LOGIN := "W celu wykonania tej operacji, zaloguj się ponownie."
  const PERMISSION_DENIED := "Brak uprawnień do wykonania tej operacji."
  const DEADLINE_EXCEEDED := "Przekroczono czas połączenia. Spróbuj ponownie."
  const UNAVAILABLE := "Usługa chwilowo niedostępna. Spróbuj ponownie później."
  const NETWORK_ERROR := "Błąd sieci. Sprawdź połączenie internetowe."
  const GENERIC_ERROR := "Wystąpił błąd. Spróbuj ponownie."

  /** A message at least this long is not shown verbatim. */
  const MAX_VERBATIM := 150

  /** The table of error codes the switch recognises, with their texts. */
  const KnownCodes: map<string, string> := map[
    "auth/invalid-email" := INVALID_EMAIL,
    "auth/email-already-in-use" := EMAIL_IN_USE,
    "auth/user-not-found" := USER_NOT_FOUND,
    "auth/wrong-password" := WRONG_PASSWORD,
    "auth/weak-password" := WEAK_PASSWORD,
    "auth/too-many-requests" := TOO_MANY_REQUESTS,
    "auth/requires-recent-login" := RECENT_LOGIN,
    "permission-denied" := PERMISSION_DENIED,
    "deadline-exceeded" := DEADLINE_EXCEEDED,
    "unavailable" := UNAVAILABLE
  ]

  /** `e?.code || e?.status || ''`. */
  function CodeOf(e: Thrown): (c: JsValue)
    ensures Truthy(e.code) ==> c == e.code
    ensures !Truthy(e.code) && Truthy(e.status) ==> c == e.status
    ensures !Truthy(e.code) && !Truthy(e.status) ==> c == Str("")
  {
    if Truthy(e.code) then e.code else if Truthy(e.status) then e.status else Str("")
  }

  /** `e?.message || String(e)`. */
  function MessageOf(e: Thrown): string {
    if e.message != "" then e.message else e.text
  }

  /** The `switch (code)` with its grouped cases and inner `if` returns, in source order. */
  function CodeSwitch(code: string): (r: Option<string>)
    // the switch recognises exactly the documented codes, each with its own text
    ensures r.Some? <==> code in KnownCodes
    ensures r.Some? ==> r.value == KnownCodes[code]
  {
    if code in {"auth/invalid-email", "auth/email-already-in-use", "auth/user-not-found",
                "auth/wrong-password", "auth/weak-password", "auth/too-many-requests",
                "auth/requires-recent-login"} then
      if code == "auth/invalid-email" then Some(INVALID_EMAIL)
      else if code == "auth/email-already-in-use" then Some(EMAIL_IN_USE)
      else if code == "auth/user-not-found" then Some(USER_NOT_FOUND)
      else if code == "auth/wrong-password" then Some(WRONG_PASSWORD)
      else if code == "auth/weak-password" then Some(WEAK_PASSWORD)
      else if code == "auth/too-many-requests" then Some(TOO_MANY_REQUESTS)
      else Some(RECENT_LOGIN)
    else if code in {"permission-denied", "deadline-exceeded", "unavailable"} then
      if code == "permission-denied" then Some(PERMISSION_DENIED)
      else if code == "deadline-exceeded" then Some(DEADLINE_EXCEEDED)
      else Some(UNAVAILABLE)
    else None
  }

  /** What is left once no code matched: the network text, the message itself, or the generic text. */
  function Fallback(message: string): (r: string)
    ensures r != ""
    ensures Contains(message, "network-request-failed") ==> r == NETWORK_ERROR
    // the message itself is shown only when it is non-empty and shorter than MAX_VERBATIM
    ensures !Contains(message, "network-request-failed") && 0 < |message| < MAX_VERBATIM ==> r == message
    ensures !Contains(message, "network-request-failed") && !(0 < |message| < MAX_VERBATIM) ==> r == GENERIC_ERROR
  {
    if Contains(message, "network-request-failed") then NETWORK_ERROR
    else if message != "" && |message| < MAX_VERBATIM then message
    else GENERIC_ERROR
  }

  /** `firebaseErrorMessage(e)`. */
  function FirebaseErrorMessage(e: Thrown): (r: string)
    ensures r != ""
    // a known string code decides the text, whatever the message says
    ensures CodeOf(e).Str? && CodeOf(e).s in KnownCodes ==> r == KnownCodes[CodeOf(e).s]
    // otherwise (unknown code, or a code that is not a string) only the message matters
    ensures !(CodeOf(e).Str? && CodeOf(e).s in KnownCodes) ==>
              && (Contains(MessageOf(e), "network-request-failed") ==> r == NETWORK_ERROR)
              && (!Contains(MessageOf(e), "network-request-failed") ==>
                    r == (if 0 < |MessageOf(e)| < MAX_VERBATIM then MessageOf(e) else GENERIC_ERROR))
  {
    var code := CodeOf(e);
    var fromCode := if code.Str? then CodeSwitch(code.s) else None;
    if fromCode.Some? then fromCode.value else Fallback(MessageOf(e))
  }

  /** The status is consulted only when the code is falsy. */
  lemma StatusOnlyWithoutCode(e: Thrown, status: JsValue)
    requires Truthy(e.code)
    ensures FirebaseErrorMessage(e.(status := status)) == FirebaseErrorMessage(e)
  {
  }

  /** With no code and no status, a network failure in the message is recognised. */
  lemma NetworkErrorRecognised(pre: string, post: string)
    ensures FirebaseErrorMessage(Thrown(Undefined, Undefined, pre + "network-request-failed" + post, "")) == NETWORK_ERROR
  {
    var m := pre + "network-request-failed" + post;
    assert m[|pre|..|pre| + |"network-request-failed"|] == "network-request-failed";
    ContainsAt(m, "network-request-failed", |pre|);
  }
}
