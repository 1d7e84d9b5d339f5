/** Viewing and saving a Secret: redactSecret (kube_resource_service.go) hides the values of the
    object sent to the browser, restoreRedactedSecret (kube_action_service.go) merges the edited
    manifest with the stored object before it is written. */
module SecretLens {
  import opened Wrappers

  const REDACTED := "<redacted>"
  const LAST_APPLIED := "kubectl.kubernetes.io/last-applied-configuration"

  /** A decoded YAML or JSON value; only strings matter to a Secret. */
  datatype Value = Text(text: string) | Other(id: int)

  /** The fields of an unstructured Secret that these functions touch. */
  datatype Fields = Fields(
    annotations: map<string, string>, data: Option<map<string, Value>>, stringData: Option<map<string, Value>>)

  function Entries(field: Option<map<string, Value>>): map<string, Value> {
    if field.None? then map[] else field.value
  }

  /** unstructured.NestedStringMap: a single value that is not a string makes it return nothing. */
  function Strings(field: Option<map<string, Value>>): map<string, string> {
    var entries := Entries(field);
    if forall key :: key in entries ==> entries[key].Text? then map key | key in entries :: entries[key].text
    else map[]
  }

  function Texts(values: map<string, string>): map<string, Value> {
    map key | key in values :: Text(values[key])
  }

  // What the two functions compute

  ghost function Redacted(f: Fields): Fields {
    var keys := Entries(f.data).Keys + Entries(f.stringData).Keys;
    Fields(f.annotations - {LAST_APPLIED}, None,
           if keys == {} then None else Some(Placeholders(keys)))
  }

  ghost function Placeholders(keys: set<string>): map<string, Value> {
    map key | key in keys :: Text(REDACTED)
  }

  lemma PlaceholdersAreEmpty(keys: set<string>)
    ensures |Placeholders(keys)| > 0 <==> keys != {}
  {
    assert Placeholders(keys).Keys == keys;
  }

  ghost function Kept(edit: map<string, string>, stored: map<string, string>): map<string, string> {
    map key | key in edit && edit[key] == REDACTED && key in stored :: stored[key]
  }

  ghost function Replaced(edit: map<string, string>): map<string, string> {
    map key | key in edit && edit[key] != REDACTED :: edit[key]
  }

  ghost function Restored(edited: Fields, current: Fields): Fields {
    var edit, stored := Strings(edited.stringData), Strings(current.data);
    Fields(edited.annotations, Some(Texts(Kept(edit, stored))),
           if Replaced(edit) == map[] then None else Some(Texts(Replaced(edit))))
  }

  class Secret {
    var annotations: map<string, string>
    var data: Option<map<string, Value>>
    var stringData: Option<map<string, Value>>

    ghost function Contents(): Fields
      reads this
    {
      Fields(annotations, data, stringData)
    }

    /** One turn of redactSecret's loop over its two fields: a placeholder for every key. */
    static method AddPlaceholders(redacted: map<string, Value>, values: map<string, Value>, ghost seen: set<string>)
      returns (r: map<string, Value>)
      requires redacted == Placeholders(seen)
      ensures r == Placeholders(seen + values.Keys)
    {
      r := redacted;
      var rest := values.Keys;
      while rest != {}
        invariant rest <= values.Keys
        invariant r == Placeholders(seen + (values.Keys - rest))
        decreases rest
      {
        var key :| key in rest;
        r := r[key := Text(REDACTED)];
        rest := rest - {key};
      }
      assert seen + (values.Keys - rest) == seen + values.Keys;
    }

    method RedactSecret()
      modifies this
      ensures Contents() == Redacted(old(Contents()))
      // no stored value is left, and every key that was there shows the placeholder
      ensures data.None? && Entries(stringData).Keys == old(Entries(data)).Keys + old(Entries(stringData)).Keys
      ensures forall key :: key in Entries(stringData) ==> Entries(stringData)[key] == Text(REDACTED)
      ensures stringData.Some? ==> Entries(stringData) != map[]
      ensures annotations.Keys == old(annotations).Keys - {LAST_APPLIED}
      ensures forall key :: key in annotations ==> annotations[key] == old(annotations)[key]
    {
      ghost var dataKeys, stringKeys := Entries(data).Keys, Entries(stringData).Keys;
      var redacted := map[];
      assert redacted == Placeholders({});
      redacted := AddPlaceholders(redacted, Entries(data), {});
      data := None;
      assert {} + dataKeys == dataKeys;
      redacted := AddPlaceholders(redacted, Entries(stringData), dataKeys);
      stringData := None;
      PlaceholdersAreEmpty(dataKeys + stringKeys);
      if |redacted| > 0 {
        stringData := Some(redacted);
      }
      annotations := annotations - {LAST_APPLIED};
    }

    /** `this` is the edited manifest; keys are visited in any order. */
    method RestoreRedacted(current: Secret)
      requires current != this
      modifies this
      ensures Contents() == Restored(old(Contents()), current.Contents())
      ensures annotations == old(annotations) && data.Some?
      ensures stringData.Some? ==> Entries(stringData) != map[]
    {
      var stored := Strings(current.data);
      var editedValues := Strings(stringData);
      var newData, newStringData := SplitEdit(editedValues, stored);
      hide Kept, Replaced;
      data := Some(Texts(newData));
      if |newStringData| > 0 {
        stringData := Some(Texts(newStringData));
      } else {
        stringData := None;
      }
    }
  }

  /** The loop of restoreRedactedSecret: stored values for the placeholders, the others as typed. */
  method SplitEdit(editedValues: map<string, string>, stored: map<string, string>)
    returns (newData: map<string, string>, newStringData: map<string, string>)
    ensures newData == Kept(editedValues, stored) && newStringData == Replaced(editedValues)
  {
    newData, newStringData := map[], map[];
    var rest := editedValues.Keys;
    while rest != {}
      invariant rest <= editedValues.Keys
      invariant var kept := Kept(editedValues, stored);
                newData == map key | key in kept && key !in rest :: kept[key]
      invariant newStringData == map key | key in Replaced(editedValues) && key !in rest :: Replaced(editedValues)[key]
      decreases rest
    {
      var key :| key in rest;
      rest := rest - {key};
      if editedValues[key] == REDACTED {
        if key in stored {
          newData := newData[key := stored[key]];
        }
        continue;
      }
      newStringData := newStringData[key := editedValues[key]];
    }
  }

  // The API server

  ghost predicate StringValued(field: Option<map<string, Value>>) {
    forall key :: key in Entries(field) ==> Entries(field)[key].Text?
  }

  /** The values a Secret has after it was written: the API server overlays stringData, which it
      encodes, on data. */
  ghost function Written(encode: string -> string, f: Fields): map<string, string> {
    Strings(f.data) + (map key | key in Strings(f.stringData) :: encode(Strings(f.stringData)[key]))
  }

  /** The values after saving an edit over a stored Secret. */
  ghost function Saved(encode: string -> string, edited: Fields, current: Fields): map<string, string> {
    Written(encode, Restored(edited, current))
  }

  lemma StringsOfTexts(values: map<string, string>)
    ensures Strings(Some(Texts(values))) == values
  {
  }

  /** What saving does to every key: a key missing from the edit disappears, one that still shows
      the placeholder keeps its stored value, any other takes the typed one. */
  lemma SaveMeaning(encode: string -> string, edited: Fields, current: Fields, key: string)
    requires StringValued(edited.stringData) && StringValued(current.data)
    ensures var saved := Saved(encode, edited, current);
            var edit, stored := Strings(edited.stringData), Strings(current.data);
            && (key in saved <==> key in edit && (edit[key] != REDACTED || key in stored))
            && (key in saved ==> saved[key] == if edit[key] == REDACTED then stored[key] else encode(edit[key]))
  {
    SavedIs(encode, edited, current);
  }

  lemma SavedIs(encode: string -> string, edited: Fields, current: Fields)
    ensures var edit, stored := Strings(edited.stringData), Strings(current.data);
            Saved(encode, edited, current)
                == Kept(edit, stored) + (map key | key in Replaced(edit) :: encode(edit[key]))
  {
    var edit, stored := Strings(edited.stringData), Strings(current.data);
    var restored := Restored(edited, current);
    StringsOfTexts(Kept(edit, stored));
    StringsOfTexts(Replaced(edit));
    assert Strings(None) == map[];
    assert Strings(restored.stringData) == Replaced(edit);
  }

  /** The written object never names a key in both fields. */
  lemma KeysAreDisjoint(edited: Fields, current: Fields)
    ensures var restored := Restored(edited, current);
            Entries(restored.data).Keys !! Entries(restored.stringData).Keys
  {
  }

  /** The view carries nothing about the values: two Secrets with the same keys and the same annotations,
      but for the last-applied one, which holds values too, have the same view. */
  lemma ViewHidesValues(f: Fields, g: Fields)
    requires Entries(f.data).Keys + Entries(f.stringData).Keys == Entries(g.data).Keys + Entries(g.stringData).Keys
    requires f.annotations - {LAST_APPLIED} == g.annotations - {LAST_APPLIED}
    ensures Redacted(f) == Redacted(g)
    ensures Redacted(f).data.None? && LAST_APPLIED !in Redacted(f).annotations
    ensures forall key :: key in Entries(Redacted(f).stringData) ==>
              Entries(Redacted(f).stringData)[key] == Text(REDACTED)
  {
  }

  /** The keys shown for a stored Secret, each with the placeholder for its value. */
  lemma RedactedShows(f: Fields)
    ensures Strings(Redacted(f).stringData)
            == map key | key in Entries(f.data).Keys + Entries(f.stringData).Keys :: REDACTED
    ensures StringValued(Redacted(f).stringData)
  {
    var keys := Entries(f.data).Keys + Entries(f.stringData).Keys;
    if keys == {} {
      assert Strings(None) == map[];
    } else {
      assert Entries(Redacted(f).stringData).Keys == keys;
    }
  }

  /** Saving a view nobody edited leaves every value as it was; the annotations are left as they were
      exactly if kubectl's last-applied one, which the view drops, was not among them. */
  lemma UneditedSaveChangesNothing(encode: string -> string, current: Fields)
    requires StringValued(current.data) && current.stringData.None?
    ensures Saved(encode, Redacted(current), current) == Strings(current.data)
    ensures Restored(Redacted(current), current).annotations == current.annotations
            <==> LAST_APPLIED !in current.annotations
  {
    hide Saved, Written;
    RedactedShows(current);
    SavedIs(encode, Redacted(current), current);
    var edit, stored := Strings(Redacted(current).stringData), Strings(current.data);
    assert Kept(edit, stored) == stored;
    assert Replaced(edit) == map[];
  }

  /** The view after a save shows the edited keys, except placeholders that stood for nothing. */
  lemma SavedViewShowsTheEdit(encode: string -> string, edited: Fields, current: Fields)
    requires StringValued(edited.stringData) && StringValued(current.data)
    ensures var edit, stored := Strings(edited.stringData), Strings(current.data);
            var after := Fields(edited.annotations, Some(Texts(Saved(encode, edited, current))), None);
            Strings(Redacted(after).stringData).Keys
            == set key | key in edit && (edit[key] != REDACTED || key in stored)
  {
    var after := Fields(edited.annotations, Some(Texts(Saved(encode, edited, current))), None);
    hide Redacted, Saved, Written, Restored;
    RedactedShows(after);
    SavedIs(encode, edited, current);
  }

  /** Saving the same edit again changes nothing more. */
  lemma SavingTwiceIsSavingOnce(encode: string -> string, edited: Fields, current: Fields)
    requires StringValued(edited.stringData) && StringValued(current.data)
    ensures var after := Fields(edited.annotations, Some(Texts(Saved(encode, edited, current))), None);
            Saved(encode, edited, after) == Saved(encode, edited, current)
  {
    var once := Saved(encode, edited, current);
    var after := Fields(edited.annotations, Some(Texts(once)), None);
    StringsOfTexts(once);
    var twice := Saved(encode, edited, after);
    forall key ensures key in twice <==> key in once
               ensures key in twice ==> twice[key] == once[key]
    {
      SaveMeaning(encode, edited, current, key);
      SaveMeaning(encode, edited, after, key);
    }
  }

  /** Outside that domain: one typed value that is not a string empties the Secret. */
  lemma NonStringValueEmptiesSecret(encode: string -> string, edited: Fields, current: Fields)
    requires !StringValued(edited.stringData)
    ensures Saved(encode, edited, current) == map[]
  {
    SavedIs(encode, edited, current);
  }

  /** A Secret that kubectl applied: saving the view of it unedited loses the annotation, so such a
      save does change the object. */
  function AppliedSecret(): Fields {
    Fields(map[LAST_APPLIED := "{}"], Some(map["token" := Text("c2VjcmV0")]), None)
  }

  lemma UneditedSaveDropsLastApplied(encode: string -> string)
    ensures var current := AppliedSecret();
            && StringValued(current.data)
            && Restored(Redacted(current), current).annotations != current.annotations
            && Saved(encode, Redacted(current), current) == Strings(current.data)
  {
    var current := AppliedSecret();
    UneditedSaveChangesNothing(encode, current);
    assert LAST_APPLIED in current.annotations;
  }
}
