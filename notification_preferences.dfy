/** The notification-channel settings form: one group per channel, with an
    `enabled` switch and one text control per required field (and, for a
    channel with providers, a `provider` control and the providers'
    fields). Saving checks the fields of every enabled channel and
    persists the form only when all of them pass. */
module NotificationPreferences {
  import opened Wrappers

  /** A form field; `emailValidator` marks a field that must also be an
      e-mail address. */
  datatype Field = Field(name: string, emailValidator: bool)

  datatype Provider = Provider(value: string, fields: seq<Field>)

  datatype Channel = Channel(formControlName: string, required: seq<Field>, providers: Option<seq<Provider>>)

  /** The configured channels, in order. */
  const Channels: seq<Channel> := [
    Channel("email", [Field("address", true)], None),
    Channel("pushNotification", [], None),
    Channel("webHook", [Field("url", false)], Some([
      Provider("ntfy", [Field("topic", false)]),
      Provider("gotify", [Field("token", false)]),
      Provider("pushbits", [Field("token", false), Field("userId", false)]),
      Provider("pushbullet", [Field("accessToken", false)]),
      Provider("custom", [Field("headers", false)])])),
    Channel("signal", [Field("number", false), Field("apiKey", false)], None),
    Channel("telegram", [Field("botToken", false), Field("chatId", false)], None),
    Channel("slack", [Field("webhookUrl", false)], None),
    Channel("matrix", [Field("homeserverUrl", false), Field("accessToken", false)], None)
  ]

  const ProviderControl: string := "provider"

  /** A channel's form group: the `enabled` switch and the text controls by name. */
  datatype Group = Group(enabled: bool, controls: map<string, string>)

  // ---------------------------------------------------------------------
  // initializeForm
  // ---------------------------------------------------------------------

  function FieldNames(fields: seq<Field>): set<string>
  {
    set i | 0 <= i < |fields| :: fields[i].name
  }

  function ProviderFieldNames(ps: seq<Provider>): set<string>
  {
    if ps == [] then {} else ProviderFieldNames(ps[..|ps| - 1]) + FieldNames(ps[|ps| - 1].fields)
  }

  /** The names of a channel's controls: its required fields, and for a
      channel with providers the `provider` control and every provider's fields. */
  function ControlNames(ch: Channel): set<string>
  {
    FieldNames(ch.required)
    + (if ch.providers.Some? then {ProviderControl} + ProviderFieldNames(ch.providers.value) else {})
  }

  /** Every listed name with an empty value. */
  function EmptyControls(names: set<string>): (m: map<string, string>)
    ensures m.Keys == names
    ensures forall n :: n in m ==> m[n] == ""
  {
    map n | n in names :: ""
  }

  /** The group `initializeForm` builds for a channel. */
  function InitialGroup(ch: Channel): Group
  {
    Group(false, EmptyControls(ControlNames(ch)))
  }

  predicate HasChannelNames(form: map<string, Group>, channels: seq<Channel>)
  {
    forall i :: 0 <= i < |channels| ==> channels[i].formControlName in form
  }

  /** Adds an empty control for each field (`channelConfig[name] = ['']`). */
  method AddFieldControls(controls: map<string, string>, fields: seq<Field>) returns (r: map<string, string>)
    ensures r.Keys == controls.Keys + FieldNames(fields)
    ensures forall n :: n in r ==> r[n] == (if n in FieldNames(fields) then "" else controls[n])
  {
    r := controls;
    for i := 0 to |fields|
      invariant r.Keys == controls.Keys + FieldNames(fields[..i])
      invariant forall n :: n in r ==> r[n] == (if n in FieldNames(fields[..i]) then "" else controls[n])
    {
      assert FieldNames(fields[..i + 1]) == FieldNames(fields[..i]) + {fields[i].name} by {
        assert forall j :: 0 <= j < i ==> fields[..i + 1][j] == fields[..i][j];
      }
      r := r[fields[i].name := ""];
    }
    assert fields[..|fields|] == fields;
  }

  /** The controls of one channel, built as `initializeForm` does. */
  method BuildChannelControls(ch: Channel) returns (controls: map<string, string>)
    ensures controls == EmptyControls(ControlNames(ch))
  {
    controls := AddFieldControls(map[], ch.required);
    if ch.providers.Some? {
      var ps := ch.providers.value;
      controls := controls[ProviderControl := ""];
      for k := 0 to |ps|
        invariant controls.Keys == FieldNames(ch.required) + {ProviderControl} + ProviderFieldNames(ps[..k])
        invariant forall n :: n in controls ==> controls[n] == ""
      {
        assert ps[..k + 1][..k] == ps[..k];
        controls := AddFieldControls(controls, ps[k].fields);
      }
      assert ps[..|ps|] == ps;
    }
  }

  /** No two channels share a form control name. */
  predicate DistinctNames(channels: seq<Channel>)
  {
    forall a, b :: 0 <= a < b < |channels| ==> channels[a].formControlName != channels[b].formControlName
  }

  lemma ChannelNamesDistinct()
    ensures DistinctNames(Channels)
  {
  }

  /** The loop of `initializeForm`: one disabled group per channel, keyed
      by its form control name. */
  method BuildForm(channels: seq<Channel>) returns (config: map<string, Group>)
    requires DistinctNames(channels)
    ensures config.Keys == set i | 0 <= i < |channels| :: channels[i].formControlName
    ensures forall i :: 0 <= i < |channels| ==> config[channels[i].formControlName] == InitialGroup(channels[i])
  {
    config := map[];
    for i := 0 to |channels|
      invariant config.Keys == set j | 0 <= j < i :: channels[j].formControlName
      invariant forall j :: 0 <= j < i ==> config[channels[j].formControlName] == InitialGroup(channels[j])
    {
      var controls := BuildChannelControls(channels[i]);
      config := config[channels[i].formControlName := Group(false, controls)];
    }
  }

  // ---------------------------------------------------------------------
  // savePreferences checks
  // ---------------------------------------------------------------------

  /** A control fails its validators: `required` (empty), or the e-mail
      validator (which accepts the empty string, caught by `required`). */
  predicate ControlInvalid(value: string, f: Field, isEmail: string -> bool)
  {
    value == "" || (f.emailValidator && !isEmail(value))
  }

  /** The fields of a list with a control on the group all pass. */
  predicate FieldsValid(g: Group, fields: seq<Field>, isEmail: string -> bool)
  {
    forall i :: 0 <= i < |fields| && fields[i].name in g.controls ==>
      !ControlInvalid(g.controls[fields[i].name], fields[i], isEmail)
  }

  /** The selected provider's value; "" when there is no `provider` control. */
  function SelectedProvider(g: Group): string
  {
    if ProviderControl in g.controls then g.controls[ProviderControl] else ""
  }

  /** `providers.find(p => p.value === selected)?.fields`: the first
      provider with that value, none when no provider has it. */
  function ProviderFields(ps: seq<Provider>, selected: string): seq<Field>
  {
    if ps == [] then []
    else if ps[0].value == selected then ps[0].fields
    else ProviderFields(ps[1..], selected)
  }

  /** The fields `savePreferences` checks for an enabled channel. */
  function CheckedProviderFields(ch: Channel, g: Group): seq<Field>
  {
    if ch.providers.Some? then ProviderFields(ch.providers.value, SelectedProvider(g)) else []
  }

  /** One channel passes: it is disabled, or its required fields and the
      selected provider's fields all pass. */
  predicate ChannelValid(ch: Channel, g: Group, isEmail: string -> bool)
  {
    !g.enabled || (FieldsValid(g, ch.required, isEmail) && FieldsValid(g, CheckedProviderFields(ch, g), isEmail))
  }

  predicate FormValid(form: map<string, Group>, channels: seq<Channel>, isEmail: string -> bool)
    requires HasChannelNames(form, channels)
  {
    forall i :: 0 <= i < |channels| ==> ChannelValid(channels[i], form[channels[i].formControlName], isEmail)
  }

  /** A disabled channel never makes the form invalid. */
  lemma DisabledChannelPasses(ch: Channel, g: Group, isEmail: string -> bool)
    requires !g.enabled
    ensures ChannelValid(ch, g, isEmail)
  {
  }

  /** An enabled channel with an empty required control fails. */
  lemma EmptyRequiredFieldFails(ch: Channel, g: Group, isEmail: string -> bool, i: nat)
    requires g.enabled && i < |ch.required|
    requires ch.required[i].name in g.controls && g.controls[ch.required[i].name] == ""
    ensures !ChannelValid(ch, g, isEmail)
  {
  }

  /** A provider value that no provider has (including "") checks no
      provider field, and the channel then passes on its required fields. */
  lemma UnknownProviderChecksNothing(ch: Channel, g: Group, isEmail: string -> bool)
    requires ch.providers.Some?
    requires forall k :: 0 <= k < |ch.providers.value| ==> ch.providers.value[k].value != SelectedProvider(g)
    ensures CheckedProviderFields(ch, g) == []
    ensures ChannelValid(ch, g, isEmail) <==> !g.enabled || FieldsValid(g, ch.required, isEmail)
  {
    NoMatchingProvider(ch.providers.value, SelectedProvider(g));
  }

  lemma {:induction false} NoMatchingProvider(ps: seq<Provider>, selected: string)
    requires forall k :: 0 <= k < |ps| ==> ps[k].value != selected
    ensures ProviderFields(ps, selected) == []
  {
    if ps != [] {
      NoMatchingProvider(ps[1..], selected);
    }
  }

  /** The selected provider's fields are those of the first provider with
      that value. */
  lemma {:induction false} SelectedProviderFields(ps: seq<Provider>, k: nat)
    requires k < |ps|
    requires forall k' :: 0 <= k' < k ==> ps[k'].value != ps[k].value
    ensures ProviderFields(ps, ps[k].value) == ps[k].fields
  {
    if k > 0 {
      SelectedProviderFields(ps[1..], k - 1);
    }
  }

  /** The webhook's provider `ntfy` checks only its `topic`; the values of
      other providers' controls play no part. */
  lemma OnlySelectedProviderChecked(g: Group, isEmail: string -> bool, otherToken: string)
    requires SelectedProvider(g) == "ntfy"
    ensures CheckedProviderFields(Channels[2], g) == [Field("topic", false)]
    ensures ChannelValid(Channels[2], g, isEmail) == ChannelValid(Channels[2], g.(controls := g.controls["token" := otherToken]), isEmail)
  {
    var g' := g.(controls := g.controls["token" := otherToken]);
    assert SelectedProvider(g') == "ntfy";
    assert FieldsValid(g, [Field("url", false)], isEmail) == FieldsValid(g', [Field("url", false)], isEmail);
    assert FieldsValid(g, [Field("topic", false)], isEmail) == FieldsValid(g', [Field("topic", false)], isEmail);
  }

  /** The outcome of pressing save. */
  datatype SaveOutcome = SaveOutcome(persisted: Option<map<string, Group>>, message: string)

  const MsgSaved: string := "Preferences saved successfully"
  const MsgSaveFailed: string := "Failed to save notification preferences"
  const MsgIncomplete: string := "Please complete all required fields for enabled notifications"

  /** Checks a list of fields of one group, clearing `isValid` on any failure. */
  method CheckFields(g: Group, fields: seq<Field>, isEmail: string -> bool, isValid: bool) returns (ok: bool)
    ensures ok <==> isValid && FieldsValid(g, fields, isEmail)
  {
    ok := isValid;
    for i := 0 to |fields|
      invariant ok <==> isValid && FieldsValid(g, fields[..i], isEmail)
    {
      var f := fields[i];
      assert forall j :: 0 <= j < i ==> fields[..i + 1][j] == fields[..i][j];
      if f.name in g.controls {
        if ControlInvalid(g.controls[f.name], f, isEmail) {
          ok := false;
        }
      }
    }
    assert fields[..|fields|] == fields;
  }

  /** The outer loop of `savePreferences`: every enabled channel's
      required fields, then its selected provider's fields. */
  method CheckChannels(form: map<string, Group>, channels: seq<Channel>, isEmail: string -> bool) returns (isValid: bool)
    requires HasChannelNames(form, channels)
    ensures isValid <==> FormValid(form, channels, isEmail)
  {
    isValid := true;
    for i := 0 to |channels|
      invariant isValid <==> FormValid(form, channels[..i], isEmail)
    {
      var ch := channels[i];
      var g := form[ch.formControlName];
      assert forall j :: 0 <= j < i ==> channels[..i + 1][j] == channels[..i][j];
      if g.enabled {
        isValid := CheckFields(g, ch.required, isEmail, isValid);
        if ch.providers.Some? {
          var selected := SelectedProvider(g);
          var providerFields := ProviderFields(ch.providers.value, selected);
          isValid := CheckFields(g, providerFields, isEmail, isValid);
        }
      }
    }
    assert channels[..|channels|] == channels;
  }

  class NotificationPreferencesPage {
    var form: map<string, Group>

    constructor ()
      ensures form == map[]
    {
      form := map[];
    }

    /** `initializeForm`: one disabled group per channel with an empty
        control for each of its control names. */
    method InitializeForm()
      modifies this
      ensures form.Keys == set i | 0 <= i < |Channels| :: Channels[i].formControlName
      ensures forall i :: 0 <= i < |Channels| ==>
        form[Channels[i].formControlName] == InitialGroup(Channels[i])
    {
      ChannelNamesDistinct();
      form := BuildForm(Channels);
    }

    /** `savePreferences`: checks every enabled channel's required fields and
        selected provider's fields; persists the whole form only when all
        pass, reporting whether persisting worked. */
    method SavePreferences(isEmail: string -> bool, persistSucceeds: bool) returns (outcome: SaveOutcome)
      requires HasChannelNames(form, Channels)
      ensures outcome.persisted.Some? <==> FormValid(form, Channels, isEmail)
      ensures outcome.persisted.Some? ==> outcome.persisted.value == form
      ensures outcome.message == if !FormValid(form, Channels, isEmail) then MsgIncomplete
                                 else if persistSucceeds then MsgSaved else MsgSaveFailed
    {
      var isValid := CheckChannels(form, Channels, isEmail);
      if isValid {
        outcome := SaveOutcome(Some(form), if persistSucceeds then MsgSaved else MsgSaveFailed);
      } else {
        outcome := SaveOutcome(None, MsgIncomplete);
      }
    }

    /** `setDefaultWebhookNotificationUrls`: the URL that goes with the newly
        selected provider; any other provider leaves the URL as it is. */
    method SetDefaultWebhookUrl()
      modifies this
      ensures "webHook" in old(form) && "url" in old(form)["webHook"].controls ==>
        form == old(form)["webHook" := old(form)["webHook"].(controls :=
          old(form)["webHook"].controls["url" := DefaultWebhookUrl(SelectedProvider(old(form)["webHook"]),
                                                                   old(form)["webHook"].controls["url"])])]
      ensures !("webHook" in old(form) && "url" in old(form)["webHook"].controls) ==> form == old(form)
    {
      if "webHook" in form && "url" in form["webHook"].controls {
        var g := form["webHook"];
        var p := SelectedProvider(g);
        var url := g.controls["url"];
        if p == "ntfy" {
          url := "https://ntfy.sh";
        } else if p == "gotify" {
          url := "";
        } else if p == "pushbits" {
          url := "";
        } else if p == "pushbullet" {
          url := "https://pushbullet.com";
        } else if p == "custom" {
          url := "";
        }
        form := form["webHook" := g.(controls := g.controls["url" := url])];
      }
    }

    /** `loadNotificationPreferences`: stored preferences are patched into
        the form; with none stored, or when fetching them fails, the e-mail
        channel is enabled with the user's address ("" when unknown). */
    method LoadNotificationPreferences(userEmail: Option<string>, stored: StoredPreferences)
      modifies this
      ensures stored.Stored? ==> form == PatchForm(old(form), stored.channels)
      ensures !stored.Stored? ==> form == EmailDefault(old(form), userEmail.GetOr(""))
    {
      var address := userEmail.GetOr("");
      match stored
      case Stored(channels) =>
        form := PatchForm(form, channels);
      case NoneStored =>
        form := EmailDefault(form, address);
      case FetchFailed =>
        form := EmailDefault(form, address);
    }
  }

  /** The URL `setDefaultWebhookNotificationUrls` leaves for a provider. */
  function DefaultWebhookUrl(provider: string, current: string): (url: string)
    ensures provider == "ntfy" ==> url == "https://ntfy.sh"
    ensures provider == "pushbullet" ==> url == "https://pushbullet.com"
    ensures provider in {"gotify", "pushbits", "custom"} ==> url == ""
    ensures provider !in {"ntfy", "pushbullet", "gotify", "pushbits", "custom"} ==> url == current
  {
    if provider == "ntfy" then "https://ntfy.sh"
    else if provider == "pushbullet" then "https://pushbullet.com"
    else if provider == "gotify" || provider == "pushbits" || provider == "custom" then ""
    else current
  }

  /** A stored channel: the `enabled` value if stored, and stored control values. */
  datatype StoredChannel = StoredChannel(enabled: Option<bool>, values: map<string, string>)

  /** What fetching the stored channels gives. */
  datatype StoredPreferences = Stored(channels: map<string, StoredChannel>) | NoneStored | FetchFailed

  /** `patchValue` on a group: stored values replace existing controls only. */
  function PatchGroup(g: Group, s: StoredChannel): (r: Group)
    ensures r.controls.Keys == g.controls.Keys
    ensures r.enabled == s.enabled.GetOr(g.enabled)
  {
    Group(s.enabled.GetOr(g.enabled),
          map n | n in g.controls :: if n in s.values then s.values[n] else g.controls[n])
  }

  /** `patchValue` on the form: only existing groups are patched. */
  function PatchForm(form: map<string, Group>, stored: map<string, StoredChannel>): (r: map<string, Group>)
    ensures r.Keys == form.Keys
  {
    map c | c in form :: if c in stored then PatchGroup(form[c], stored[c]) else form[c]
  }

  /** The e-mail channel enabled with the given address. */
  function EmailDefault(form: map<string, Group>, address: string): (r: map<string, Group>)
    ensures r.Keys == form.Keys
    ensures "email" in form ==>
      r["email"].enabled && r["email"].controls.Keys == form["email"].controls.Keys
      && ("address" in form["email"].controls ==> r["email"].controls["address"] == address)
  {
    if "email" in form then
      form["email" := PatchGroup(form["email"], StoredChannel(Some(true), map["address" := address]))]
    else form
  }

  /** The default turns an initial e-mail group into an enabled one holding
      just the address. */
  lemma DefaultEnablesEmail(form: map<string, Group>, address: string)
    requires "email" in form && form["email"] == InitialGroup(Channels[0])
    ensures "email" in EmailDefault(form, address)
            && EmailDefault(form, address)["email"] == Group(true, map["address" := address])
  {
    assert ControlNames(Channels[0]) == {"address"} by {
      assert FieldNames([Field("address", true)]) == {"address"} by {
        assert [Field("address", true)][0].name == "address";
      }
    }
  }

  /** The default touches no group but e-mail's. */
  lemma DefaultLeavesOthers(form: map<string, Group>, address: string, name: string)
    requires name in form && name != "email"
    ensures name in EmailDefault(form, address) && EmailDefault(form, address)[name] == form[name]
  {
  }

  /** After initialisation, the default leaves e-mail enabled with the
      user's address, every other channel disabled and its controls empty. */
  lemma DefaultAfterInitialisation(form: map<string, Group>, address: string)
    requires form.Keys == set i | 0 <= i < |Channels| :: Channels[i].formControlName
    requires forall i :: 0 <= i < |Channels| ==> form[Channels[i].formControlName] == InitialGroup(Channels[i])
    ensures "email" in EmailDefault(form, address)
            && EmailDefault(form, address)["email"] == Group(true, map["address" := address])
    ensures forall i :: 1 <= i < |Channels| ==>
              Channels[i].formControlName in EmailDefault(form, address)
              && EmailDefault(form, address)[Channels[i].formControlName] == InitialGroup(Channels[i])
  {
    assert Channels[0].formControlName == "email";
    DefaultEnablesEmail(form, address);
    ChannelNamesDistinct();
    forall i | 1 <= i < |Channels|
      ensures Channels[i].formControlName in EmailDefault(form, address)
              && EmailDefault(form, address)[Channels[i].formControlName] == InitialGroup(Channels[i])
    {
      assert Channels[0].formControlName != Channels[i].formControlName;
      DefaultLeavesOthers(form, address, Channels[i].formControlName);
    }
  }
}
