/** The private notes editor (src/components/admin/AdminNotesSection.tsx):
    an edited copy of the saved notes and a flag saying whether it was
    changed since the last edit, save or reset. */
module AdminNotesSection {

  class NotesEditor {
    var notes: string       // the saved notes, as passed in
    var localNotes: string  // the text in the box
    var hasChanges: bool
    var isSaving: bool      // passed in by the owner while it saves

    /** A change is never flagged while the box holds the saved notes. */
    predicate Valid()
      reads this
    {
      hasChanges ==> localNotes != notes
    }

    constructor (notes: string, isSaving: bool)
      ensures Valid()
      ensures this.notes == notes && localNotes == notes && !hasChanges && this.isSaving == isSaving
    {
      this.notes := notes;
      localNotes := notes;
      hasChanges := false;
      this.isSaving := isSaving;
    }

    /** The save button is enabled only with changes and while not saving. */
    predicate SaveEnabled()
      reads this
    {
      hasChanges && !isSaving
    }

    /** handleChange: the flag says whether the text differs from the saved
        notes, so typing the saved text back clears it. */
    method HandleChange(value: string)
      requires Valid()
      modifies this
      ensures Valid()
      ensures localNotes == value && (hasChanges <==> value != notes)
      ensures notes == old(notes) && isSaving == old(isSaving)
    {
      localNotes := value;
      hasChanges := value != notes;
    }

    /** handleSave, reachable only through the enabled button: the edited
        text goes to the owner and the flag clears. */
    method HandleSave() returns (saved: string)
      requires Valid() && SaveEnabled()
      modifies this
      ensures Valid()
      ensures saved == old(localNotes) && !hasChanges
      ensures localNotes == old(localNotes) && notes == old(notes) && isSaving == old(isSaving)
    {
      saved := localNotes;
      hasChanges := false;
    }

    /** A new notes value from the owner. The reset runs only when the value
        differs from the previous one: then the box shows it and the flag
        clears. */
    method ReceiveNotes(newNotes: string)
      requires Valid()
      modifies this
      ensures Valid()
      ensures notes == newNotes && isSaving == old(isSaving)
      ensures newNotes != old(notes) ==> localNotes == newNotes && !hasChanges
      ensures newNotes == old(notes) ==> localNotes == old(localNotes) && hasChanges == old(hasChanges)
    {
      if newNotes != notes {
        localNotes := newNotes;
        hasChanges := false;
      }
      notes := newNotes;
    }
  }
}
