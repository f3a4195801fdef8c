/** The account settings page's own rules: whether the user is treated as
    having a password, the password form that follows from it and its
    match check, and the profile defaults taken from the user's metadata. */
module Account {
  import opened Wrappers
  import opened JsValues

  // ---------------------------------------------------------------------
  // Password check
  // ---------------------------------------------------------------------

  /** The two-field check's error. */
  datatype ValidationError = Mismatch

  /** `passwordMatchValidator` over the form's values by control name (an
      absent control reads as undefined on both sides). */
  function PasswordMatchValidator(values: map<string, JsValue>): (r: Option<ValidationError>)
    ensures r.None? <==> Get(values, "newPassword") == Get(values, "confirmPassword")
    ensures r.Some? ==> r.value == Mismatch
  {
    if Get(values, "newPassword") == Get(values, "confirmPassword") then None else Some(Mismatch)
  }

  /** `passwordMatchValidator` on filled-in strings: no error exactly when
      the two passwords are the same. */
  lemma PasswordsMatch(values: map<string, JsValue>, newPassword: string, confirmPassword: string)
    requires "newPassword" in values && values["newPassword"] == Str(newPassword)
    requires "confirmPassword" in values && values["confirmPassword"] == Str(confirmPassword)
    ensures PasswordMatchValidator(values) == None <==> newPassword == confirmPassword
    ensures newPassword != confirmPassword ==> PasswordMatchValidator(values) == Some(Mismatch)
  {
  }

  // ---------------------------------------------------------------------
  // checkIfUserHasPassword
  // ---------------------------------------------------------------------

  datatype Identity = Identity(provider: string)

  /** The session's user: its identities and metadata, each possibly missing. */
  datatype SessionUser = SessionUser(identities: Option<seq<Identity>>, metadata: Option<map<string, JsValue>>)

  /** `identities.find(i => i.provider === p)`, as the index found. */
  function FindProvider(ids: seq<Identity>, p: string): (r: Option<nat>)
    ensures r.Some? ==> r.value < |ids| && ids[r.value].provider == p
  {
    if ids == [] then None
    else if ids[0].provider == p then Some(0)
    else
      var rest := FindProvider(ids[1..], p);
      if rest.Some? then Some(rest.value + 1) else None
  }

  /** `find` misses only when no identity has the provider. */
  lemma {:induction false} FindProviderMisses(ids: seq<Identity>, p: string)
    ensures FindProvider(ids, p).None? <==> forall i :: 0 <= i < |ids| ==> ids[i].provider != p
  {
    if ids != [] && ids[0].provider != p {
      FindProviderMisses(ids[1..], p);
      assert forall i :: 1 <= i < |ids| ==> ids[i] == ids[1..][i - 1];
    }
  }

  /** `checkIfUserHasPassword` given the session's user (`None` when there
      is no session or no user). */
  function HasPassword(user: Option<SessionUser>): bool
  {
    var ids := if user.Some? then user.value.identities.GetOr([]) else [];
    if FindProvider(ids, "email").Some? then true
    else
      var metadata := if user.Some? then user.value.metadata.GetOr(map[]) else map[];
      Present(Get(metadata, "has_password"))
  }

  /** An e-mail identity settles it whatever the metadata says; otherwise
      the answer is the truthiness of `has_password`; without a session it
      is false. */
  lemma HasPasswordRules(user: Option<SessionUser>)
    ensures user.None? ==> !HasPassword(user)
    ensures user.Some? && user.value.identities.Some?
            && (exists i :: 0 <= i < |user.value.identities.value| && user.value.identities.value[i].provider == "email")
            ==> HasPassword(user)
    ensures user.Some? && (forall i :: 0 <= i < |user.value.identities.GetOr([])| ==> user.value.identities.GetOr([])[i].provider != "email")
            ==> (HasPassword(user) <==> Present(Get(user.value.metadata.GetOr(map[]), "has_password")))
  {
    if user.Some? {
      FindProviderMisses(user.value.identities.GetOr([]), "email");
    }
  }

  // ---------------------------------------------------------------------
  // Profile defaults
  // ---------------------------------------------------------------------

  /** `metadata.name || metadata.full_name || ''`. */
  function ProfileName(metadata: map<string, JsValue>): JsValue
  {
    Or(Or(Get(metadata, "name"), Get(metadata, "full_name")), Some(Str(""))).value
  }

  /** `metadata.avatar_url || ''`. */
  function ProfileAvatar(metadata: map<string, JsValue>): JsValue
  {
    Or(Get(metadata, "avatar_url"), Some(Str(""))).value
  }

  /** The name is `name` when truthy, else `full_name` when truthy, else
      `''`; the avatar is `avatar_url` when truthy, else `''`. Neither is
      ever null or any other falsy value. */
  lemma ProfileDefaults(metadata: map<string, JsValue>)
    ensures Present(Get(metadata, "name")) ==> ProfileName(metadata) == metadata["name"]
    ensures !Present(Get(metadata, "name")) && Present(Get(metadata, "full_name")) ==>
              ProfileName(metadata) == metadata["full_name"]
    ensures !Present(Get(metadata, "name")) && !Present(Get(metadata, "full_name")) ==> ProfileName(metadata) == Str("")
    ensures Present(Get(metadata, "avatar_url")) ==> ProfileAvatar(metadata) == metadata["avatar_url"]
    ensures !Present(Get(metadata, "avatar_url")) ==> ProfileAvatar(metadata) == Str("")
    ensures Truthy(ProfileName(metadata)) || ProfileName(metadata) == Str("")
    ensures Truthy(ProfileAvatar(metadata)) || ProfileAvatar(metadata) == Str("")
  {
  }

  // ---------------------------------------------------------------------
  // The page
  // ---------------------------------------------------------------------

  datatype Validator = Required | MinLength(n: nat)

  /** A form control: its value and validators. */
  datatype Control = Control(value: JsValue, validators: set<Validator>)

  /** The signed-in user as `getCurrentUser` returns it. */
  datatype User = User(email: JsValue, metadata: Option<map<string, JsValue>>)

  const MsgMetadataFailed: string := "Unable to fetch user metadata"

  class AccountPage {
    var hasPassword: bool
    /** The password form's controls by name. */
    var passwordControls: map<string, Control>
    var email: JsValue
    var profileName: JsValue
    var profileAvatar: JsValue
    var loadingProfile: bool
    /** Error toasts shown, in order. */
    var errors: seq<string>

    /** `initializeForms` as run first: `hasPassword` is still false, so
        the form has no current-password control. */
    constructor ()
      ensures !hasPassword && !loadingProfile && errors == []
      ensures passwordControls == map["newPassword" := Control(Str(""), {Required, MinLength(8)}),
                                      "confirmPassword" := Control(Str(""), {Required})]
      ensures email == Str("") && profileName == Str("") && profileAvatar == Str("")
    {
      hasPassword := false;
      passwordControls := map["newPassword" := Control(Str(""), {Required, MinLength(8)}),
                              "confirmPassword" := Control(Str(""), {Required})];
      email := Str("");
      profileName := Str("");
      profileAvatar := Str("");
      loadingProfile := false;
      errors := [];
    }

    /** The password form's values by control name. */
    function PasswordValues(): (values: map<string, JsValue>)
      reads this
      ensures values.Keys == passwordControls.Keys
      ensures forall k :: k in values ==> values[k] == passwordControls[k].value
    {
      map k | k in passwordControls :: passwordControls[k].value
    }

    /** `updatePasswordForm`: adds a required, empty current-password
        control when the user has a password (an existing one is kept, as
        `addControl` does) and removes it otherwise. No other control
        changes, so the match check's verdict stays the same. */
    method UpdatePasswordForm(hasPassword: bool)
      modifies this
      ensures "currentPassword" in passwordControls <==> hasPassword
      ensures hasPassword && "currentPassword" in old(passwordControls) ==>
                passwordControls["currentPassword"] == old(passwordControls)["currentPassword"]
      ensures hasPassword && "currentPassword" !in old(passwordControls) ==>
                passwordControls["currentPassword"] == Control(Str(""), {Required})
      ensures forall k :: k != "currentPassword" ==>
                (k in passwordControls <==> k in old(passwordControls))
                && (k in passwordControls ==> passwordControls[k] == old(passwordControls)[k])
      ensures PasswordMatchValidator(PasswordValues()) == old(PasswordMatchValidator(PasswordValues()))
      ensures this.hasPassword == old(this.hasPassword) && email == old(email) && profileName == old(profileName)
      ensures profileAvatar == old(profileAvatar) && loadingProfile == old(loadingProfile) && errors == old(errors)
    {
      if hasPassword {
        if "currentPassword" !in passwordControls {
          passwordControls := passwordControls["currentPassword" := Control(Str(""), {Required})];
        }
      } else {
        passwordControls := passwordControls - {"currentPassword"};
      }
    }

    /** The continuation of `ngOnInit` once `checkIfUserHasPassword` has
        answered. */
    method OnPasswordChecked(user: Option<SessionUser>)
      modifies this
      ensures hasPassword == HasPassword(user)
      ensures "currentPassword" in passwordControls <==> HasPassword(user)
      ensures forall k :: k != "currentPassword" ==>
                (k in passwordControls <==> k in old(passwordControls))
                && (k in passwordControls ==> passwordControls[k] == old(passwordControls)[k])
    {
      hasPassword := HasPassword(user);
      UpdatePasswordForm(hasPassword);
    }

    /** `loadUserData`: the e-mail, then the profile defaults. A missing
        user fails before anything is filled in; a user without metadata
        fails after the e-mail. A failure adds one error toast, and loading
        ends either way. */
    method LoadUserData(user: Option<User>)
      modifies this
      ensures !loadingProfile && hasPassword == old(hasPassword) && passwordControls == old(passwordControls)
      ensures user.None? ==> email == old(email) && profileName == old(profileName)
                             && profileAvatar == old(profileAvatar) && errors == old(errors) + [MsgMetadataFailed]
      ensures user.Some? ==> email == user.value.email
      ensures user.Some? && user.value.metadata.None? ==>
                profileName == old(profileName) && profileAvatar == old(profileAvatar)
                && errors == old(errors) + [MsgMetadataFailed]
      ensures user.Some? && user.value.metadata.Some? ==>
                profileName == ProfileName(user.value.metadata.value)
                && profileAvatar == ProfileAvatar(user.value.metadata.value) && errors == old(errors)
    {
      loadingProfile := true;
      if user.None? {
        errors := errors + [MsgMetadataFailed];
        loadingProfile := false;
        return;
      }
      email := user.value.email;
      if user.value.metadata.None? {
        errors := errors + [MsgMetadataFailed];
        loadingProfile := false;
        return;
      }
      var metadata := user.value.metadata.value;
      profileName := Or(Or(Get(metadata, "name"), Get(metadata, "full_name")), Some(Str(""))).value;
      profileAvatar := Or(Get(metadata, "avatar_url"), Some(Str(""))).value;
      loadingProfile := false;
    }
  }
}
