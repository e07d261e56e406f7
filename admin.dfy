/** The admin panel (Admin.tsx): the in-memory list of cards, the id of the
    card being edited (none: the list is shown) and the draft, plus the
    browser store they are persisted to. Each handler rewrites these state
    variables the way the component's setters do. */
module Admin {
  import opened Types
  import opened Constants
  import opened Store
  import opened ProfileEditor

  /** What the panel shows. */
  datatype Screen = ListScreen | EditorScreen

  class AdminPanel {
    const storage: Storage
    var profiles: seq<UserProfile>
    var editingId: Option<string>
    var editForm: UserProfile

    /** The initial state of the component, before its mount effect. */
    constructor (storage: Storage)
      ensures this.storage == storage
      ensures profiles == [] && editingId == None && editForm == DefaultProfile
    {
      this.storage := storage;
      profiles := [];
      editingId := None;
      editForm := DefaultProfile;
    }

    /** `if (editingId)`: the editor is shown exactly when the editing id is
        truthy, so a null or empty id shows the list. */
    function CurrentScreen(): (s: Screen)
      reads this
      ensures s == EditorScreen <==> Truthy(editingId)
    {
      if editingId.Some? && editingId.value != "" then EditorScreen else ListScreen
    }

    /** The mount effect: `setProfiles(getProfiles())`. */
    method Mount()
      modifies this, storage
      ensures StorageKey !in old(storage.items) ==>
        profiles == [DefaultProfile] && storage.items == old(storage.items)[StorageKey := [DefaultProfile]]
      ensures StorageKey in old(storage.items) ==>
        profiles == old(storage.items)[StorageKey] && storage.items == old(storage.items)
      ensures editingId == old(editingId) && editForm == old(editForm)
    {
      profiles := GetProfiles(storage);
    }

    /** handleCreateNew with the fresh id (a timestamp in the component) as
        a parameter: the draft becomes the new-card template and editing
        starts; the list and the store are not touched until save. */
    method CreateNew(freshId: string)
      modifies this`editForm, this`editingId
      ensures editForm == NewDraft(freshId) && editingId == Some(freshId)
      ensures profiles == old(profiles)
    {
      editForm := NewDraft(freshId);
      editingId := Some(editForm.id);
    }

    /** handleEdit: the draft is a full copy of the chosen card. */
    method Edit(p: UserProfile)
      modifies this`editForm, this`editingId
      ensures editForm == p && editingId == Some(p.id)
      ensures profiles == old(profiles)
    {
      editForm := p;
      editingId := Some(p.id);
    }

    /** handleDelete with the user's answer to the confirmation as a
        parameter: when confirmed, every card with that id is removed and the
        result persisted; otherwise nothing changes. */
    method Delete(id: string, confirmed: bool)
      modifies this`profiles, storage
      ensures confirmed ==> profiles == RemoveById(old(profiles), id)
      ensures confirmed ==> storage.items == old(storage.items)[StorageKey := profiles]
      ensures !confirmed ==> profiles == old(profiles) && storage.items == old(storage.items)
    {
      if confirmed {
        var updated := RemoveById(profiles, id);
        profiles := updated;
        SaveProfiles(storage, updated);
      }
    }

    /** handleSave: the draft is upserted by id, the store receives exactly
        the new list and editing ends. */
    method Save()
      modifies this`profiles, this`editingId, storage
      ensures profiles == Upsert(old(profiles), editForm)
      ensures storage.items == old(storage.items)[StorageKey := profiles]
      ensures storage.GetItem(StorageKey) == Some(profiles)
      ensures editingId == None && CurrentScreen() == ListScreen
    {
      var updated: seq<UserProfile>;
      if AnyWithId(profiles, editForm.id) {
        updated := ReplaceById(profiles, editForm);
      } else {
        updated := profiles + [editForm];
      }
      profiles := updated;
      SaveProfiles(storage, updated);
      editingId := None;
    }

    /** The back button: editing ends, the draft is dropped unsaved. */
    method Back()
      modifies this`editingId
      ensures editingId == None && CurrentScreen() == ListScreen
      ensures profiles == old(profiles)
    {
      editingId := None;
    }

    /** updateForm(field, value) applied to the draft. */
    method SetFormField(v: ProfileValue)
      modifies this`editForm
      ensures editForm == UpdateForm(old(editForm), v)
    {
      editForm := UpdateForm(editForm, v);
    }

    /** updateContent(lang, field, value) applied to the draft. */
    method SetContentField(lang: Language, v: TranslationValue)
      modifies this`editForm
      ensures editForm == UpdateContent(old(editForm), lang, v)
    {
      editForm := UpdateContent(editForm, lang, v);
    }

    /** updateAsset(field, value) applied to the draft. */
    method SetAsset(k: AssetKey, value: string)
      modifies this`editForm
      ensures editForm == UpdateAsset(old(editForm), k, value)
    {
      editForm := UpdateAsset(editForm, k, value);
    }

    /** The description textarea's onChange applied to the draft. */
    method SetDescription(lang: Language, text: string)
      modifies this`editForm
      ensures editForm == EditDescription(old(editForm), lang, text)
      ensures DescriptionText(editForm, lang) == text
    {
      editForm := EditDescription(editForm, lang, text);
      EditedDescriptionShowsText(old(editForm), lang, text);
    }
  }

  /** A whole editing session: create a card, rename it, save. The stored
      list gains exactly that card at its end. */
  method CreateRenameSave(panel: AdminPanel, freshId: string, name: string)
    requires !HasId(panel.profiles, freshId)
    modifies panel`profiles, panel`editingId, panel`editForm, panel.storage
    ensures panel.profiles == old(panel.profiles) + [NewDraft(freshId).(name := name)]
    ensures panel.storage.items == old(panel.storage.items)[StorageKey := panel.profiles]
    ensures panel.storage.GetItem(StorageKey) == Some(panel.profiles)
    ensures panel.editForm == NewDraft(freshId).(name := name)
    ensures panel.editingId == None && panel.CurrentScreen() == ListScreen
  {
    panel.CreateNew(freshId);
    panel.SetFormField(NameValue(name));
    assert panel.editForm == NewDraft(freshId).(name := name);
    panel.Save();
  }
}
