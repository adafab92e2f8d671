/**
 * The admin dashboard's session and editing logic
 * (frontend/src/components/AdminDashboard.js): the password login and its
 * persisted flag, logout, the edit modal, the save that chooses between an
 * update and a creation per section, and the confirmed delete.
 */
module AdminDashboard {
  import opened Wrappers

  /** The fixed admin password the login compares against. */
  const AdminPassword := "pass@123"

  /** The `localStorage` key and value that remember a login. */
  const AuthKey := "admin_authenticated"
  const AuthValue := "true"

  /** A banner message: its text and its type, "success" or "error". */
  datatype Message = Message(text: string, kind: string)

  /** The item being edited; only its id matters to the save. */
  datatype Item = Item(id: Option<string>)

  /** The sections edited as lists, whose save creates or updates one entry. */
  predicate IsListSection(section: string) {
    section in {"experience", "education", "skills", "ventures", "whitepapers"}
  }

  /** The API call a save makes. */
  datatype ApiCall =
    | UpdateProfile
    | UpdateAchievements
    | Create(section: string)
    | Update(section: string, id: Option<string>)

  /**
   * What a save does before the reload: one API call, no call at all (an
   * unknown section), or a `TypeError` (an appointment saved with no item).
   */
  datatype SaveAttempt = Call(call: ApiCall) | NoCall | Crash

  /**
   * The dispatch of `handleSaveFromModal`. Profile and achievements have one
   * update call each. A list section updates the edited item, by its id,
   * exactly when there is one, and creates an entry otherwise. Appointments
   * are always updated, which dereferences a missing item. Any other section
   * calls nothing.
   */
  function SaveCall(section: Option<string>, item: Option<Item>): (r: SaveAttempt)
    ensures section == Some("profile") ==> r == Call(UpdateProfile)
    ensures section == Some("achievements") ==> r == Call(UpdateAchievements)
    ensures section.Some? && IsListSection(section.value) ==>
              && (item.Some? ==> r == Call(Update(section.value, item.value.id)))
              && (item.None? ==> r == Call(Create(section.value)))
    ensures section == Some("appointments") ==>
              && (item.Some? ==> r == Call(Update("appointments", item.value.id)))
              && (item.None? ==> r == Crash)
    ensures r.NoCall? <==>
              section.None? ||
              (section.value !in {"profile", "achievements", "appointments"} && !IsListSection(section.value))
  {
    if section == Some("profile") then Call(UpdateProfile)
    else if section.Some? && IsListSection(section.value) then
      if item.Some? then Call(Update(section.value, item.value.id)) else Call(Create(section.value))
    else if section == Some("achievements") then Call(UpdateAchievements)
    else if section == Some("appointments") then
      if item.Some? then Call(Update("appointments", item.value.id)) else Crash
    else NoCall
  }

  /** An update is only ever sent for an item being edited, and a creation only when there is none. */
  lemma UpdateOnlyForEditedItem(section: Option<string>, item: Option<Item>)
    ensures SaveCall(section, item).Call? && SaveCall(section, item).call.Update? ==>
              item.Some? && SaveCall(section, item).call.id == item.value.id
    ensures SaveCall(section, item).Call? && SaveCall(section, item).call.Create? ==> item.None?
  {
  }

  /** A save succeeds unless it crashes or its one API call fails. */
  predicate SaveSucceeds(attempt: SaveAttempt, apiOk: bool) {
    match attempt
    case Call(_) => apiOk
    case NoCall => true
    case Crash => false
  }

  class Dashboard {
    var isAuthenticated: bool
    var password: string
    /** The `admin_authenticated` entry of `localStorage`. */
    var stored: Option<string>
    var message: Option<Message>
    var editingItem: Option<Item>
    var editingSection: Option<string>
    var isModalOpen: bool

    /** First render, given what `localStorage` holds. */
    constructor(stored: Option<string>)
      ensures !isAuthenticated && password == "" && this.stored == stored && message.None?
      ensures editingItem.None? && editingSection.None? && !isModalOpen
    {
      isAuthenticated := false;
      password := "";
      this.stored := stored;
      message := None;
      editingItem := None;
      editingSection := None;
      isModalOpen := false;
    }

    /** The mount effect: a remembered login authenticates and loads the data (`load`). */
    method Mount() returns (load: bool)
      modifies this
      ensures load <==> old(stored) == Some(AuthValue)
      ensures isAuthenticated == (old(isAuthenticated) || load)
      ensures stored == old(stored) && password == old(password) && message == old(message)
      ensures editingItem == old(editingItem) && editingSection == old(editingSection) && isModalOpen == old(isModalOpen)
    {
      load := stored == Some(AuthValue);
      if load {
        isAuthenticated := true;
      }
    }

    /**
     * `handleLogin`: the right password authenticates, remembers the login
     * and loads the data; a wrong one only shows an error.
     */
    method HandleLogin() returns (load: bool)
      modifies this
      ensures load <==> password == AdminPassword
      ensures load ==> isAuthenticated && stored == Some(AuthValue) && message == old(message)
      ensures !load ==> isAuthenticated == old(isAuthenticated) && stored == old(stored)
      ensures !load ==> message == Some(Message("Invalid password!", "error"))
      ensures password == old(password)
      ensures editingItem == old(editingItem) && editingSection == old(editingSection) && isModalOpen == old(isModalOpen)
    {
      if password == AdminPassword {
        isAuthenticated := true;
        stored := Some(AuthValue);
        load := true;
      } else {
        message := Some(Message("Invalid password!", "error"));
        load := false;
      }
    }

    /** `handleLogout`: unauthenticated, and the remembered login is forgotten. */
    method HandleLogout()
      modifies this
      ensures !isAuthenticated && stored.None?
      ensures password == old(password) && message == old(message)
      ensures editingItem == old(editingItem) && editingSection == old(editingSection) && isModalOpen == old(isModalOpen)
    {
      isAuthenticated := false;
      stored := None;
    }

    /** `openModal(section, item = null)`. */
    method OpenModal(section: string, item: Option<Item>)
      modifies this
      ensures editingItem == item && editingSection == Some(section) && isModalOpen
      ensures isAuthenticated == old(isAuthenticated) && stored == old(stored)
      ensures password == old(password) && message == old(message)
    {
      editingItem := item;
      editingSection := Some(section);
      isModalOpen := true;
    }

    /** `closeModal`. */
    method CloseModal()
      modifies this
      ensures editingItem.None? && editingSection.None? && !isModalOpen
      ensures isAuthenticated == old(isAuthenticated) && stored == old(stored)
      ensures password == old(password) && message == old(message)
    {
      editingItem := None;
      editingSection := None;
      isModalOpen := false;
    }

    /**
     * `handleSaveFromModal`: makes the call `SaveCall` chooses (`apiOk` is
     * its outcome). On success the data is reloaded (`reload`), "Saved
     * successfully!" shows and the modal closes; on failure the modal stays
     * as it was and an error shows.
     */
    method HandleSaveFromModal(apiOk: bool) returns (attempt: SaveAttempt, reload: bool)
      modifies this
      ensures attempt == SaveCall(old(editingSection), old(editingItem))
      ensures reload <==> SaveSucceeds(attempt, apiOk)
      ensures reload ==> editingItem.None? && editingSection.None? && !isModalOpen
      ensures reload ==> message == Some(Message("Saved successfully!", "success"))
      ensures !reload ==> editingItem == old(editingItem) && editingSection == old(editingSection)
      ensures !reload ==> isModalOpen == old(isModalOpen)
      ensures !reload ==> message == Some(Message("Error saving", "error"))
      ensures isAuthenticated == old(isAuthenticated) && stored == old(stored) && password == old(password)
    {
      attempt := SaveCall(editingSection, editingItem);
      reload := SaveSucceeds(attempt, apiOk);
      if reload {
        message := Some(Message("Saved successfully!", "success"));
        CloseModal();
      } else {
        message := Some(Message("Error saving", "error"));
      }
    }

    /**
     * `handleDelete(section, id, …)`: a declined confirmation does nothing at
     * all; otherwise item `id` is deleted (`deleted`) and, when that
     * succeeds, the data is reloaded.
     */
    method HandleDelete(section: string, id: string, confirmed: bool, apiOk: bool)
      returns (deleted: Option<string>, reload: bool)
      modifies this
      ensures deleted.Some? <==> confirmed
      ensures deleted.Some? ==> deleted.value == id
      ensures reload <==> confirmed && apiOk
      ensures !confirmed ==> message == old(message)
      ensures confirmed && apiOk ==> message == Some(Message(section + " deleted successfully!", "success"))
      ensures confirmed && !apiOk ==> message == Some(Message("Error deleting " + section, "error"))
      ensures isAuthenticated == old(isAuthenticated) && stored == old(stored) && password == old(password)
      ensures editingItem == old(editingItem) && editingSection == old(editingSection) && isModalOpen == old(isModalOpen)
    {
      deleted, reload := None, false;
      if !confirmed {
        return;
      }
      deleted := Some(id);
      if apiOk {
        reload := true;
        message := Some(Message(section + " deleted successfully!", "success"));
      } else {
        message := Some(Message("Error deleting " + section, "error"));
      }
    }
  }
}
