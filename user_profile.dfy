/** The profile screen (app/UserProfile.tsx). */
module UserProfile {
  import opened Wrappers
  import opened Text

  /** `favoriteCategories.join(', ')`: the text shown in the edit field. */
  function FormatCategories(cats: seq<string>): (r: string)
    ensures cats == [] ==> r == ""
    ensures |cats| == 1 ==> r == cats[0]
    // entries are separated by a comma and a blank
    ensures |cats| >= 2 ==> r == cats[0] + ", " + FormatCategories(cats[1..])
  {
    Join(cats, ", ")
  }

  /** `pieces.map(s => s.trim())`. */
  function TrimAll(pieces: seq<string>): (r: seq<string>)
    ensures |r| == |pieces|
    ensures forall i :: 0 <= i < |r| ==> r[i] == Trim(pieces[i])
  {
    if pieces == [] then [] else [Trim(pieces[0])] + TrimAll(pieces[1..])
  }

  lemma {:induction false} TrimAllCons(p: string, ps: seq<string>)
    ensures TrimAll([p] + ps) == [Trim(p)] + TrimAll(ps)
  {
    assert ([p] + ps)[1..] == ps;
  }

  /** `v.split(',').map(s => s.trim())`: what typing into the field stores. */
  function ParseCategories(v: string): (r: seq<string>)
    ensures |r| == Count(v, ',') + 1
    ensures forall i :: 0 <= i < |r| ==> IsTrimmed(r[i]) && ',' !in r[i]
  {
    TrimAll(Split(v, ','))
  }

  /** A blank ahead of the text only pads the first piece, which trimming removes. */
  lemma {:induction false} ParseLeadingBlank(t: string)
    ensures ParseCategories([' '] + t) == ParseCategories(t)
  {
    var r := Split(t, ',');
    SplitConsOther(' ', t, ',');
    TrimLeadingBlank(' ', r[0]);
    var padded := [[' '] + r[0]] + r[1..];
    assert padded[1..] == r[1..];
    assert TrimAll(padded) == [Trim(r[0])] + TrimAll(r[1..]);
    assert r == [r[0]] + r[1..];
  }

  /** The formatted text of two or more entries: the first, a comma, a blank and the rest. */
  lemma {:induction false} FormatCons(xs: seq<string>)
    requires |xs| >= 2
    ensures FormatCategories(xs) == xs[0] + [','] + ([' '] + FormatCategories(xs[1..]))
  {
    assert ", " == [','] + [' '];
  }

  /** Splitting the formatted text of two or more entries yields the first entry, then the pieces of the blank-led rest. */
  lemma {:induction false} SplitFormatCons(xs: seq<string>)
    requires |xs| >= 2 && ',' !in xs[0]
    ensures Split(FormatCategories(xs), ',') == [xs[0]] + Split([' '] + FormatCategories(xs[1..]), ',')
  {
    FormatCons(xs);
    SplitAfterPiece(xs[0], ',', [' '] + FormatCategories(xs[1..]));
  }

  lemma {:induction false} ParseFormatSingle(x: string)
    requires IsTrimmed(x) && ',' !in x
    ensures ParseCategories(FormatCategories([x])) == [x]
  {
    TrimOfTrimmed(x);
    SplitWithoutSeparator(x, ',');
  }

  lemma {:induction false} ParseFormatStep(x: string, ys: seq<string>)
    requires IsTrimmed(x) && ',' !in x && ys != []
    ensures ParseCategories(FormatCategories([x] + ys)) == [x] + ParseCategories(FormatCategories(ys))
  {
    var xs := [x] + ys;
    assert xs[0] == x && xs[1..] == ys;
    var rest := FormatCategories(ys);
    calc {
      ParseCategories(FormatCategories(xs));
      TrimAll(Split(FormatCategories(xs), ','));
      { SplitFormatCons(xs); }
      TrimAll([x] + Split([' '] + rest, ','));
      { TrimAllCons(x, Split([' '] + rest, ',')); }
      [Trim(x)] + TrimAll(Split([' '] + rest, ','));
      { TrimOfTrimmed(x); }
      [x] + ParseCategories([' '] + rest);
      { ParseLeadingBlank(rest); }
      [x] + ParseCategories(rest);
    }
  }

  /** Editing the formatted text back in gives the same list, for trimmed, comma-free entries. */
  lemma {:induction false} ParseFormat(xs: seq<string>)
    requires xs != []
    requires forall i :: 0 <= i < |xs| ==> IsTrimmed(xs[i]) && ',' !in xs[i]
    ensures ParseCategories(FormatCategories(xs)) == xs
  {
    if |xs| == 1 {
      ParseFormatSingle(xs[0]);
    } else {
      ParseFormat(xs[1..]);
      ParseFormatStep(xs[0], xs[1..]);
      assert [xs[0]] + xs[1..] == xs;
    }
  }

  /** Formatting a non-empty list of trimmed, comma-free entries puts exactly one comma between neighbours. */
  lemma FormatCommaCount(xs: seq<string>)
    requires xs != []
    requires forall i :: 0 <= i < |xs| ==> IsTrimmed(xs[i]) && ',' !in xs[i]
    ensures Count(FormatCategories(xs), ',') == |xs| - 1
  {
    ParseFormat(xs);
  }

  /** The empty list formats to "" but "" parses to one empty category, so it does not survive an edit. */
  lemma EmptyListDoesNotRoundTrip()
    ensures FormatCategories([]) == ""
    ensures ParseCategories("") == [""]
  {
  }

  /** The read-only line: the joined categories, or "Brak" when the join is empty. */
  function ReadOnlyCategories(cats: Option<seq<string>>): (r: string)
    ensures r != ""
    ensures FormatCategories(cats.GetOr([])) != "" ==> r == FormatCategories(cats.GetOr([]))
    ensures (cats == None || cats == Some([]) || cats == Some([""])) ==> r == "Brak"
  {
    var joined := FormatCategories(cats.GetOr([]));
    if joined == "" then "Brak" else joined
  }

  /** `user && user.uid === userId`. */
  predicate IsOwnProfile(currentUid: Option<string>, userId: string)
    // only a signed-in user whose uid is the route's `userId` owns the profile
    ensures IsOwnProfile(currentUid, userId) <==> currentUid == Some(userId)
  {
    currentUid.Some? && currentUid.value == userId
  }

  /** Which of the owner-only controls are rendered. */
  datatype Controls = Controls(logout: bool, changePhoto: bool, saveOrEdit: bool)

  function VisibleControls(currentUid: Option<string>, userId: string, edit: bool): (c: Controls)
    ensures c.logout <==> currentUid == Some(userId)
    ensures c.saveOrEdit <==> currentUid == Some(userId)
    ensures c.changePhoto <==> currentUid == Some(userId) && edit
  {
    var own := IsOwnProfile(currentUid, userId);
    Controls(own, own && edit, own)
  }

  /** Someone else's profile, or a signed-out viewer, gets none of the owner's controls, in edit mode or not. */
  lemma OthersSeeNoOwnerControls(currentUid: Option<string>, userId: string, edit: bool)
    requires currentUid.None? || currentUid.value != userId
    ensures VisibleControls(currentUid, userId, edit) == Controls(false, false, false)
  {
  }

  /** Edit mode starts on exactly when the route parameter `edit` is the string "true". */
  function InitialEdit(editParam: Option<string>): (b: bool)
    ensures b <==> editParam == Some("true")
  {
    editParam == Some("true")
  }

  /** A user document; "" stands for an absent string field. */
  datatype UserDoc = UserDoc(nick: string, email: string, avatar: string, description: string,
                             favoriteCategories: Option<seq<string>>)

  /** The four fields `handleSave` writes. */
  datatype ProfileUpdate = ProfileUpdate(avatar: string, nick: string, description: string,
                                         favoriteCategories: seq<string>)

  /** `updateDoc` merging `u` into `d`: only the four fields change. */
  function Apply(d: UserDoc, u: ProfileUpdate): (r: UserDoc)
    ensures r.email == d.email
    ensures r.avatar == u.avatar && r.nick == u.nick && r.description == u.description
    ensures r.favoriteCategories == Some(u.favoriteCategories)
  {
    d.(avatar := u.avatar, nick := u.nick, description := u.description,
       favoriteCategories := Some(u.favoriteCategories))
  }

  class ProfileScreen {
    /** The route's `userId` ("" when missing) and the signed-in user's uid. */
    const userId: string
    const currentUid: Option<string>
    var users: map<string, UserDoc>

    var profile: Option<UserDoc>
    var edit: bool
    var loading: bool
    var saving: bool
    var avatar: string
    var nick: string
    var description: string
    var favoriteCategories: seq<string>
    var alerts: seq<string>
    /** The write started by `handleSave` and not yet settled. */
    var pendingSave: Option<ProfileUpdate>

    constructor(userId: string, editParam: Option<string>, currentUid: Option<string>, users: map<string, UserDoc>)
      ensures this.userId == userId && this.currentUid == currentUid && this.users == users
      ensures edit == InitialEdit(editParam)
      ensures loading && !saving && profile == None && pendingSave == None && alerts == []
      ensures avatar == "" && nick == "" && description == "" && favoriteCategories == []
    {
      this.userId := userId;
      this.currentUid := currentUid;
      this.users := users;
      profile := None;
      edit := editParam == Some("true");
      loading := true;
      saving := false;
      avatar, nick, description, favoriteCategories := "", "", "", [];
      alerts := [];
      pendingSave := None;
    }

    /** `fetchProfile`: copies the stored fields, with "" and [] for the absent ones, then stops loading. */
    method FetchProfile()
      modifies this`profile, this`avatar, this`nick, this`description, this`favoriteCategories, this`loading
      ensures !loading
      ensures if userId != "" && userId in users then
                var d := users[userId];
                && profile == Some(d) && avatar == d.avatar && nick == d.nick
                && description == d.description && favoriteCategories == d.favoriteCategories.GetOr([])
              else
                && profile == old(profile) && avatar == old(avatar) && nick == old(nick)
                && description == old(description) && favoriteCategories == old(favoriteCategories)
    {
      if userId != "" && userId in users {
        var d := users[userId];
        profile := Some(d);
        avatar := d.avatar;
        nick := d.nick;
        description := d.description;
        favoriteCategories := d.favoriteCategories.GetOr([]);
      }
      loading := false;
    }

    /** The categories field's `onChangeText`. */
    method EditCategories(v: string)
      modifies this`favoriteCategories
      ensures favoriteCategories == ParseCategories(v)
      ensures |favoriteCategories| >= 1
    {
      favoriteCategories := ParseCategories(v);
    }

    /** `handleSave` up to its `await`: `saving` goes on and the four fields are sent. */
    method BeginSave()
      modifies this`saving, this`pendingSave
      ensures saving
      ensures pendingSave == Some(ProfileUpdate(avatar, nick, description, favoriteCategories))
    {
      saving := true;
      pendingSave := Some(ProfileUpdate(avatar, nick, description, favoriteCategories));
    }

    /** `handleSave` after its `await`: edit mode ends only on success, `saving` goes off either way. */
    method FinishSave(writeOk: bool)
      requires pendingSave.Some?
      modifies this`users, this`edit, this`saving, this`alerts, this`pendingSave
      ensures !saving && pendingSave == None
      ensures writeOk && userId in old(users) ==>
                && users == old(users)[userId := Apply(old(users)[userId], old(pendingSave).value)]
                && !edit && alerts == old(alerts) + ["Zapisano zmiany!"]
      ensures !(writeOk && userId in old(users)) ==>
                users == old(users) && edit == old(edit) && alerts == old(alerts) + ["Błąd podczas zapisu."]
    {
      if writeOk && userId in users {
        users := users[userId := Apply(users[userId], pendingSave.value)];
        edit := false;
        alerts := alerts + ["Zapisano zmiany!"];
      } else {
        alerts := alerts + ["Błąd podczas zapisu."];
      }
      pendingSave := None;
      saving := false;
    }
  }
}
