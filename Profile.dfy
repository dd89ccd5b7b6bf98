/** The profile page: it loads the signed-in user's record, lets the user
    edit a copy of it field by field, and saves the copy, refusing a new
    password that equals the old one or fails the strength rule. The page's
    state is the loaded record `userData`, the edited copy `updatedData`,
    the `isEditing` flag, the load `error`, the browser's `localStorage`,
    whether the page has sent the browser to the login page, and the bodies
    of the update requests it has issued. */
module Profile {
  import opened Browser
  import opened PasswordPolicy
  import opened Optional

  /** A user record as the page holds it: field name to string value. */
  type Fields = map<string, string>

  /** `record.field`, with a missing field (`undefined`) read as `""`. */
  function Field(record: Fields, field: string): string {
    if field in record then record[field] else ""
  }

  /** `{ ...record, [field]: value }`. */
  function WithField(record: Fields, field: string, value: string): (r: Fields)
    ensures r.Keys == record.Keys + {field}
    ensures r[field] == value
    ensures forall k :: k in record && k != field ==> r[k] == record[k]
  {
    record[field := value]
  }

  /** `userData?.password`, with a record not yet loaded read as `""`. */
  function OldPassword(userData: Option<Fields>): string {
    if userData.Some? then Field(userData.value, "password") else ""
  }

  /** The checks `handleSave` makes before it sends anything. */
  datatype Verdict = SameAsOld | TooWeak | Send

  function SaveVerdict(userData: Option<Fields>, updated: Fields): Verdict {
    var candidate := Field(updated, "password");
    if candidate == "" then Send
    else if OldPassword(userData) != "" && candidate == OldPassword(userData) then SameAsOld
    else if !RegexTest(candidate) then TooWeak
    else Send
  }

  /** A request body whose password, if it carries one, is strong. */
  predicate PasswordAcceptable(body: Fields) {
    Field(body, "password") == "" || IsStrong(Field(body, "password"))
  }

  // ---------------------------------------------------------------------
  // Properties of the save checks

  /** With no new password, nothing is checked and the update is sent. */
  lemma NoPasswordSkipsChecks(userData: Option<Fields>, updated: Fields)
    requires Field(updated, "password") == ""
    ensures SaveVerdict(userData, updated) == Send
  {
  }

  /** The old password is refused before the strength rule is consulted,
      so even a strong password equal to the old one is refused. */
  lemma SamePasswordRefusedFirst(userData: Option<Fields>, updated: Fields)
    requires Field(updated, "password") != ""
    requires Field(updated, "password") == OldPassword(userData)
    ensures SaveVerdict(userData, updated) == SameAsOld
  {
  }

  /** A new password that differs from the old one but is not strong is
      refused. */
  lemma WeakPasswordRefused(userData: Option<Fields>, updated: Fields)
    requires Field(updated, "password") != ""
    requires Field(updated, "password") != OldPassword(userData)
    requires !IsStrong(Field(updated, "password"))
    ensures SaveVerdict(userData, updated) == TooWeak
  {
    RegexTestIsStrong(Field(updated, "password"));
  }

  /** The update is sent exactly when no password was typed, or the typed
      one is new and strong; whatever is sent passes the policy. */
  lemma SaveSentIff(userData: Option<Fields>, updated: Fields)
    ensures SaveVerdict(userData, updated) == Send <==>
      var candidate := Field(updated, "password");
      candidate == "" || (candidate != OldPassword(userData) && IsStrong(candidate))
    ensures SaveVerdict(userData, updated) == Send ==> PasswordAcceptable(updated)
  {
    RegexTestIsStrong(Field(updated, "password"));
  }

  /** Right after a load, `updatedData` is a copy of `userData`; if the
      loaded record carries a password, saving without retyping it is
      refused as the same old password. */
  lemma LoadedPasswordBlocksSave(data: Fields)
    requires Field(data, "password") != ""
    ensures SaveVerdict(Some(data), data) == SameAsOld
  {
  }

  // ---------------------------------------------------------------------
  // The page

  datatype LoadReply = Loaded(data: Fields) | LoadRefused(message: string) | LoadThrew

  datatype SaveOutcome =
    | RefusedSameAsOld
    | RefusedWeak
    | ServerRefused(message: string)
    | Saved(passwordChanged: bool)
    | SaveFailed

  class ProfilePage {
    var userData: Option<Fields>
    var error: string
    var isEditing: bool
    var updatedData: Fields
    var cache: Cache
    var sentToLogin: bool
    var sent: seq<Fields>  // bodies of the `PUT /api/profile` requests issued

    /** No request ever carries a password that breaks the policy. */
    predicate Valid()
      reads this
    {
      forall i :: 0 <= i < |sent| ==> PasswordAcceptable(sent[i])
    }

    /** What the page renders offers the edit form, with its inputs and the
        Save and Cancel buttons: a record is loaded, no load error is shown,
        and the page is editing. */
    predicate FormShown()
      reads this
    {
      error == "" && userData.Some? && isEditing
    }

    /** The read-only view, with the Edit Profile and Logout buttons: a
        record is loaded, no load error is shown, and the page is not
        editing. */
    predicate DetailsShown()
      reads this
    {
      error == "" && userData.Some? && !isEditing
    }

    constructor (cache: Cache)
      ensures Valid()
      ensures userData == None && error == "" && !isEditing && updatedData == map[]
      ensures this.cache == cache && !sentToLogin && sent == []
    {
      userData := None;
      error := "";
      isEditing := false;
      updatedData := map[];
      this.cache := cache;
      sentToLogin := false;
      sent := [];
    }

    /** The mount effect: without a cached `email` the user is sent to the
        login page; otherwise the profile request's reply fills both
        `userData` and `updatedData`, or sets `error`. */
    method Load(reply: LoadReply)
      requires Valid()
      modifies this`userData, this`updatedData, this`error, this`sentToLogin
      ensures Valid()
      ensures CachedValue(cache, "email") == "" ==>
        sentToLogin && userData == old(userData) && updatedData == old(updatedData) && error == old(error)
      ensures CachedValue(cache, "email") != "" ==> sentToLogin == old(sentToLogin)
      ensures CachedValue(cache, "email") != "" && reply.Loaded? ==>
        userData == Some(reply.data) && updatedData == reply.data && error == old(error)
      ensures CachedValue(cache, "email") != "" && !reply.Loaded? ==>
        userData == old(userData) && updatedData == old(updatedData)
      ensures CachedValue(cache, "email") != "" && reply.LoadRefused? ==>
        error == MessageOr(reply.message, "Failed to load profile data.")
      ensures CachedValue(cache, "email") != "" && reply.LoadThrew? ==>
        error == "An unexpected error occurred while fetching profile data."
    {
      if CachedValue(cache, "email") == "" {
        sentToLogin := true;
        return;
      }
      match reply
      case Loaded(data) =>
        userData := Some(data);
        updatedData := data;
      case LoadRefused(message) =>
        error := MessageOr(message, "Failed to load profile data.");
      case LoadThrew =>
        error := "An unexpected error occurred while fetching profile data.";
    }

    /** The Edit Profile button: the edit form replaces the read-only view. */
    method Edit()
      requires Valid() && DetailsShown()
      modifies this`isEditing
      ensures Valid() && FormShown()
    {
      isEditing := true;
    }

    /** The Cancel button: back to the read-only view, keeping the edited
        copy as it is. */
    method Cancel()
      requires Valid() && FormShown()
      modifies this`isEditing
      ensures Valid() && DetailsShown()
    {
      isEditing := false;
    }

    /** `handleInputChange`: one field of the edited copy takes a new value. */
    method HandleInputChange(field: string, value: string)
      requires Valid() && FormShown()
      modifies this`updatedData
      ensures Valid() && FormShown()
      ensures updatedData == WithField(old(updatedData), field, value)
    {
      updatedData := WithField(updatedData, field, value);
    }

    /** `handleSave`: refuse a typed password equal to the old one, then one
        that fails the strength rule; otherwise send `updatedData`. On an ok
        reply a password change clears `localStorage` and leaves for the
        login page, and editing ends. */
    method HandleSave(reply: Reply) returns (outcome: SaveOutcome)
      requires Valid() && FormShown()
      modifies this`isEditing, this`cache, this`sentToLogin, this`sent
      ensures Valid()
      ensures SaveVerdict(userData, updatedData) == SameAsOld ==> outcome == RefusedSameAsOld
      ensures SaveVerdict(userData, updatedData) == TooWeak ==> outcome == RefusedWeak
      ensures sent == if SaveVerdict(userData, updatedData) == Send then old(sent) + [updatedData] else old(sent)
      ensures outcome.Saved? <==> SaveVerdict(userData, updatedData) == Send && reply.Answered? && reply.ok
      ensures outcome.ServerRefused? <==> SaveVerdict(userData, updatedData) == Send && reply.Answered? && !reply.ok
      ensures outcome == SaveFailed <==> SaveVerdict(userData, updatedData) == Send && reply.Threw?
      ensures outcome.ServerRefused? ==> outcome.message == MessageOr(reply.message, "Failed to update profile.")
      ensures outcome.Saved? ==>
        && outcome.passwordChanged == (Field(updatedData, "password") != "")
        && cache == (if outcome.passwordChanged then map[] else old(cache))
        && sentToLogin == (old(sentToLogin) || outcome.passwordChanged)
        && !isEditing
      ensures !outcome.Saved? ==>
        cache == old(cache) && sentToLogin == old(sentToLogin) && FormShown()
      ensures outcome.Saved? ==> DetailsShown()
    {
      var candidate := Field(updatedData, "password");
      if candidate != "" {
        if OldPassword(userData) != "" && candidate == OldPassword(userData) {
          return RefusedSameAsOld;
        }
        if !RegexTest(candidate) {
          return RefusedWeak;
        }
      }
      SaveSentIff(userData, updatedData);
      sent := sent + [updatedData];
      match reply
      case Threw(_) =>
        outcome := SaveFailed;
      case Answered(ok, message) =>
        if !ok {
          return ServerRefused(MessageOr(message, "Failed to update profile."));
        }
        if candidate != "" {
          cache := map[];
          sentToLogin := true;
        }
        isEditing := false;
        outcome := Saved(candidate != "");
    }

    /** `handleLogout`: empty the cache and leave for the login page. */
    method HandleLogout()
      requires Valid() && DetailsShown()
      modifies this`cache, this`sentToLogin
      ensures Valid()
      ensures cache == map[] && sentToLogin
    {
      cache := map[];
      sentToLogin := true;
    }
  }

  /** A signed-in user whose loaded record carries a password presses Save
      without touching the password field: the save is refused as the same
      old password and nothing is sent. */
  method SaveRightAfterLoad(cache: Cache, data: Fields, reply: Reply)
    returns (outcome: SaveOutcome, sent: seq<Fields>)
    requires CachedValue(cache, "email") != ""
    requires Field(data, "password") != ""
    ensures outcome == RefusedSameAsOld && sent == []
  {
    var page := new ProfilePage(cache);
    page.Load(Loaded(data));
    page.Edit();
    outcome := page.HandleSave(reply);
    sent := page.sent;
  }

  /** A signed-in user types a new strong password and the server accepts
      it: the record with that password is sent, the cache is emptied and
      the page leaves for the login page. */
  method ChangePassword(cache: Cache, data: Fields, password: string)
    returns (outcome: SaveOutcome, sent: seq<Fields>, cacheAfter: Cache, toLogin: bool)
    requires CachedValue(cache, "email") != ""
    requires password != Field(data, "password") && IsStrong(password)
    ensures outcome == Saved(true)
    ensures sent == [WithField(data, "password", password)]
    ensures cacheAfter == map[] && toLogin
  {
    var page := new ProfilePage(cache);
    page.Load(Loaded(data));
    page.Edit();
    page.HandleInputChange("password", password);
    SaveSentIff(page.userData, page.updatedData);
    outcome := page.HandleSave(Answered(true, ""));
    sent, cacheAfter, toLogin := page.sent, page.cache, page.sentToLogin;
  }

  /** Opening the page: the read-only view, and with it every handler, is
      offered exactly when a cached email let the profile request run and
      it returned a record; the edit form is never offered before Edit
      Profile is pressed. */
  method OpenPage(cache: Cache, reply: LoadReply) returns (details: bool, form: bool)
    ensures details <==> CachedValue(cache, "email") != "" && reply.Loaded?
    ensures !form
  {
    var page := new ProfilePage(cache);
    page.Load(reply);
    details, form := page.DetailsShown(), page.FormShown();
  }
}
