/** The bulk notification-preferences page: a matrix of notification types
    by domains. Loading turns the stored preferences into one selection of
    domain ids per type; saving turns the selections back into one row per
    (type, domain) pair. */
module EditEvents {

  /** A stored preference row. */
  datatype Preference = Preference(domainId: string, notificationType: string, isEnabled: bool)

  /** The domain ids of the enabled preferences of type `t`, in preference order. */
  function Selection(prefs: seq<Preference>, t: string): (sel: seq<string>)
    ensures |sel| <= |prefs|
  {
    if prefs == [] then []
    else
      var rest := Selection(prefs[..|prefs| - 1], t);
      var p := prefs[|prefs| - 1];
      if p.notificationType == t && p.isEnabled then rest + [p.domainId] else rest
  }

  /** A domain id is selected for `t` exactly when some enabled preference
      of type `t` names it; disabled preferences and other types never
      contribute. */
  lemma {:induction false} SelectionMembers(prefs: seq<Preference>, t: string, d: string)
    ensures d in Selection(prefs, t) <==>
      exists k :: 0 <= k < |prefs| && prefs[k] == Preference(d, t, true)
  {
    if prefs != [] {
      var init := prefs[..|prefs| - 1];
      SelectionMembers(init, t, d);
      assert forall k :: 0 <= k < |init| ==> init[k] == prefs[k];
      if exists k :: 0 <= k < |prefs| && prefs[k] == Preference(d, t, true) {
        var k :| 0 <= k < |prefs| && prefs[k] == Preference(d, t, true);
        assert k < |init| ==> init[k] == Preference(d, t, true);
      }
    }
  }

  /** The row saved for one (type, domain) pair. */
  datatype Row = Row(domainId: string, notificationType: string, isEnabled: bool)

  /** The selection of a type on the form; a missing control reads as none. */
  function SelectedFor(form: map<string, seq<string>>, t: string): seq<string>
  {
    if t in form then form[t] else []
  }

  /** The rows of one type, one per domain in domain order. */
  function TypeRows(t: string, domainIds: seq<string>, selected: seq<string>): (rows: seq<Row>)
    ensures |rows| == |domainIds|
    ensures forall j :: 0 <= j < |domainIds| ==> rows[j] == Row(domainIds[j], t, domainIds[j] in selected)
  {
    seq(|domainIds|, j requires 0 <= j < |domainIds| => Row(domainIds[j], t, domainIds[j] in selected))
  }

  /** `savePreferences`: the rows of every type, type after type. */
  function PreferenceRows(types: seq<string>, domainIds: seq<string>, form: map<string, seq<string>>): seq<Row>
  {
    if types == [] then []
    else TypeRows(types[0], domainIds, SelectedFor(form, types[0])) + PreferenceRows(types[1..], domainIds, form)
  }

  /** Saving gives exactly one row per (type, domain) pair, type-major: row
      `i * |domainIds| + j` is type `i` and domain `j`, enabled exactly when
      the domain is in that type's selection. */
  lemma {:induction false} PreferenceRowsLayout(types: seq<string>, domainIds: seq<string>,
                                                form: map<string, seq<string>>, i: nat, j: nat)
    requires i < |types| && j < |domainIds|
    ensures |PreferenceRows(types, domainIds, form)| == |types| * |domainIds|
    ensures i * |domainIds| + j < |PreferenceRows(types, domainIds, form)|
    ensures PreferenceRows(types, domainIds, form)[i * |domainIds| + j]
         == Row(domainIds[j], types[i], domainIds[j] in SelectedFor(form, types[i]))
  {
    PreferenceRowsLength(types, domainIds, form);
    if i > 0 {
      PreferenceRowsLayout(types[1..], domainIds, form, i - 1, j);
      assert i * |domainIds| + j == |domainIds| + ((i - 1) * |domainIds| + j);
    }
  }

  lemma {:induction false} PreferenceRowsLength(types: seq<string>, domainIds: seq<string>, form: map<string, seq<string>>)
    ensures |PreferenceRows(types, domainIds, form)| == |types| * |domainIds|
  {
    if types != [] {
      PreferenceRowsLength(types[1..], domainIds, form);
      assert |types| * |domainIds| == |domainIds| + |types[1..]| * |domainIds|;
    }
  }

  /** A type without a control on the form saves every domain as disabled. */
  lemma MissingSelectionDisablesType(types: seq<string>, domainIds: seq<string>,
                                     form: map<string, seq<string>>, i: nat, j: nat)
    requires i < |types| && j < |domainIds| && types[i] !in form
    ensures i * |domainIds| + j < |PreferenceRows(types, domainIds, form)|
            && !PreferenceRows(types, domainIds, form)[i * |domainIds| + j].isEnabled
  {
    PreferenceRowsLayout(types, domainIds, form, i, j);
  }

  class EditEventsPage {
    /** The notification type keys, in display order. */
    const types: seq<string>
    var domainIds: seq<string>
    var preferences: seq<Preference>
    /** The form's controls: one selection of domain ids per type key. */
    var form: map<string, seq<string>>
    var loading: bool

    constructor (types: seq<string>)
      ensures this.types == types
      ensures domainIds == [] && preferences == [] && form == map[] && loading
    {
      this.types := types;
      domainIds := [];
      preferences := [];
      form := map[];
      loading := true;
    }

    /** `loadDomainsAndPreferences` on success: a control for every type
        (an existing control is kept, as `addControl` does), then each
        type's control set to its selection. */
    method Load(domains: seq<string>, prefs: seq<Preference>)
      modifies this
      ensures domainIds == domains && preferences == prefs && !loading
      ensures forall t :: t in form <==> t in old(form) || t in types
      ensures forall t :: t in types ==> form[t] == Selection(prefs, t)
      ensures forall t :: t in old(form) && t !in types ==> form[t] == old(form)[t]
    {
      domainIds := domains;
      preferences := prefs;
      for i := 0 to |types|
        invariant domainIds == domains && preferences == prefs
        invariant forall t :: t in form <==> t in old(form) || t in types[..i]
        invariant forall t :: t in old(form) ==> form[t] == old(form)[t]
      {
        if types[i] !in form {
          form := form[types[i] := []];
        }
      }
      assert types[..|types|] == types;
      ghost var added := form;
      for i := 0 to |types|
        invariant domainIds == domains && preferences == prefs
        invariant forall t :: t in form <==> t in added
        invariant forall t :: t in types[..i] ==> form[t] == Selection(prefs, t)
        invariant forall t :: t in added && t !in types[..i] ==> form[t] == added[t]
      {
        form := form[types[i] := Selection(preferences, types[i])];
      }
      assert types[..|types|] == types;
      loading := false;
    }
  }

  /** Loading and then saving enables exactly the listed (type, domain)
      pairs that had an enabled preference. */
  lemma LoadThenSave(types: seq<string>, domainIds: seq<string>, prefs: seq<Preference>,
                     form: map<string, seq<string>>, i: nat, j: nat)
    requires forall t :: t in types ==> t in form && form[t] == Selection(prefs, t)
    requires i < |types| && j < |domainIds|
    ensures i * |domainIds| + j < |PreferenceRows(types, domainIds, form)|
    ensures i * |domainIds| + j < |PreferenceRows(types, domainIds, form)| ==>
      (PreferenceRows(types, domainIds, form)[i * |domainIds| + j].isEnabled <==>
       exists k :: 0 <= k < |prefs| && prefs[k] == Preference(domainIds[j], types[i], true))
  {
    PreferenceRowsLayout(types, domainIds, form, i, j);
    SelectionMembers(prefs, types[i], domainIds[j]);
  }
}
