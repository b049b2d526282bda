/**
 * The ideas notebook: a list of ideas, a create/edit form with a colour and
 * tags, and per-idea pin, archive and delete buttons. Each remote call is an
 * abstract step whose outcome is a parameter.
 */
module Ideas {
  import opened Wrappers
  import opened Lists
  import opened Text
  import opened Entities
  import Tags

  /** The six card colours; the first is the form's default. */
  const IdeaColors: seq<string> := ["#b76e79", "#ff6090", "#ffd700", "#6b8cae", "#8b7aa8", "#90a955"]

  /** The form's fields. */
  datatype IdeaForm = IdeaForm(title: string, content: string, color: string, tags: seq<string>)

  /** The form on mount and after Cancel. */
  function EmptyForm(): (f: IdeaForm)
    ensures f.title == [] && f.content == [] && f.color == IdeaColors[0] && f.tags == []
  {
    IdeaForm("", "", IdeaColors[0], [])
  }

  /** The remote call Save makes. */
  datatype SaveCall = CreateIdea(form: IdeaForm) | UpdateIdea(id: Id, form: IdeaForm)

  /**
   * What Save sends: nothing when the trimmed title is empty, otherwise the
   * form, as an update of the idea being edited or as a new idea.
   */
  function SaveRequest(editingId: Option<Id>, form: IdeaForm): (r: Option<SaveCall>)
    ensures r.None? <==> IsBlank(form.title)
    ensures r.Some? ==> r.value.form == form && (r.value.UpdateIdea? <==> editingId.Some?)
    ensures r.Some? && editingId.Some? ==> r.value == UpdateIdea(editingId.value, form)
  {
    if IsBlank(form.title) then None
    else if editingId.Some? then Some(UpdateIdea(editingId.value, form))
    else Some(CreateIdea(form))
  }

  /** The form Edit fills from an idea: a missing content becomes "" and missing tags become []. */
  function FormFromIdea(idea: Idea): (f: IdeaForm)
    ensures f.title == idea.title && f.color == idea.color
    ensures f.content == (if idea.content.Some? then idea.content.value else "")
    ensures f.tags == (if idea.tags.Some? then idea.tags.value else [])
  {
    IdeaForm(idea.title, idea.content.GetOr(""), idea.color, idea.tags.GetOr([]))
  }

  function IdeaId(i: Idea): Id {
    i.id
  }

  /** The list after a delete: the idea with that id is gone, the others stay in order. */
  function RemoveIdea(ideas: seq<Idea>, id: Id): (r: seq<Idea>)
    ensures forall i :: 0 <= i < |r| ==> r[i].id != id && r[i] in ideas
    ensures forall i :: 0 <= i < |ideas| && ideas[i].id != id ==> ideas[i] in r
    ensures Subsequence(r, ideas)
  {
    RemoveKey(ideas, IdeaId, id)
  }

  /** The list after a pin toggle: the matching idea's `is_pinned` flips; every other field and every other idea stays. */
  function TogglePinned(ideas: seq<Idea>, id: Id): (r: seq<Idea>)
    ensures |r| == |ideas|
    ensures forall i :: 0 <= i < |ideas| ==>
      r[i] == ideas[i].(is_pinned := if ideas[i].id == id then !ideas[i].is_pinned else ideas[i].is_pinned)
  {
    MapWhere(ideas, (i: Idea) => i.id == id, (i: Idea) => i.(is_pinned := !i.is_pinned))
  }

  /** Toggling the pin twice restores the list. */
  lemma TogglePinnedTwice(ideas: seq<Idea>, id: Id)
    ensures TogglePinned(TogglePinned(ideas, id), id) == ideas
  {
    var once := TogglePinned(ideas, id);
    var twice := TogglePinned(once, id);
    assert forall i :: 0 <= i < |ideas| ==> twice[i] == ideas[i];
  }

  /** The notebook page; the fields are its state variables (the loading flag is left out). */
  class IdeasPage {
    var ideas: seq<Idea>
    var showArchived: bool
    var isCreating: bool
    var editingId: Option<Id>
    var formData: IdeaForm
    var tagInput: string

    constructor ()
      ensures ideas == [] && !showArchived && !isCreating && editingId.None?
      ensures formData == EmptyForm() && tagInput == ""
    {
      ideas, showArchived, isCreating, editingId := [], false, false, None;
      formData, tagInput := EmptyForm(), "";
    }

    /** loadIdeas: the fetched list replaces the page's list; a failed fetch changes nothing. */
    method LoadIdeas(fetched: Option<seq<Idea>>)
      modifies this
      ensures ideas == (if fetched.Some? then fetched.value else old(ideas))
      ensures showArchived == old(showArchived) && isCreating == old(isCreating) && editingId == old(editingId)
      ensures formData == old(formData) && tagInput == old(tagInput)
    {
      if fetched.Some? {
        ideas := fetched.value;
      }
    }

    /** New Idea: open the form as it is. */
    method OpenCreate()
      modifies this
      ensures isCreating
      ensures ideas == old(ideas) && showArchived == old(showArchived) && editingId == old(editingId)
      ensures formData == old(formData) && tagInput == old(tagInput)
    {
      isCreating := true;
    }

    /** Cancel: close the form, forget the idea being edited, reset the form and the tag field. */
    method HandleCancel()
      modifies this
      ensures !isCreating && editingId.None? && formData == EmptyForm() && tagInput == ""
      ensures ideas == old(ideas) && showArchived == old(showArchived)
    {
      isCreating := false;
      editingId := None;
      formData := EmptyForm();
      tagInput := "";
    }

    /**
     * Save. A blank title is rejected with no call and no change. Otherwise
     * the call is made; when it succeeds the list is reloaded (`reloaded` is
     * the result of that fetch) and the form is cancelled, and when it fails
     * nothing changes.
     */
    method HandleSave(succeeded: bool, reloaded: Option<seq<Idea>>) returns (call: Option<SaveCall>)
      modifies this
      ensures call == SaveRequest(old(editingId), old(formData))
      ensures call.None? || !succeeded ==>
        ideas == old(ideas) && isCreating == old(isCreating) && editingId == old(editingId)
        && formData == old(formData) && tagInput == old(tagInput)
      ensures call.Some? && succeeded ==>
        ideas == (if reloaded.Some? then reloaded.value else old(ideas))
        && !isCreating && editingId.None? && formData == EmptyForm() && tagInput == ""
      ensures showArchived == old(showArchived)
    {
      if IsBlank(formData.title) {
        return None;
      }
      if editingId.Some? {
        call := Some(UpdateIdea(editingId.value, formData));
      } else {
        call := Some(CreateIdea(formData));
      }
      if succeeded {
        LoadIdeas(reloaded);
        HandleCancel();
      }
    }

    /** Delete, once confirmed and done remotely, drops the idea from the list. */
    method HandleDelete(id: Id, confirmed: bool, succeeded: bool)
      modifies this
      ensures ideas == (if confirmed && succeeded then RemoveIdea(old(ideas), id) else old(ideas))
      ensures showArchived == old(showArchived) && isCreating == old(isCreating) && editingId == old(editingId)
      ensures formData == old(formData) && tagInput == old(tagInput)
    {
      if confirmed && succeeded {
        ideas := RemoveIdea(ideas, id);
      }
    }

    /** Edit: open the form filled from the idea and remember its id. */
    method HandleEdit(idea: Idea)
      modifies this
      ensures editingId == Some(idea.id) && formData == FormFromIdea(idea) && isCreating
      ensures ideas == old(ideas) && showArchived == old(showArchived) && tagInput == old(tagInput)
    {
      editingId := Some(idea.id);
      formData := FormFromIdea(idea);
      isCreating := true;
    }

    /** A key press in the tag field: Enter with a non-blank input adds the tag (if new) and clears the field. */
    method HandleAddTag(key: string)
      modifies this
      ensures if key == "Enter" && !IsBlank(old(tagInput)) then
          formData == old(formData).(tags := Tags.AddTag(old(formData.tags), old(tagInput))) && tagInput == ""
        else
          formData == old(formData) && tagInput == old(tagInput)
      ensures NoDuplicates(old(formData.tags)) ==> NoDuplicates(formData.tags)
      ensures ideas == old(ideas) && showArchived == old(showArchived) && isCreating == old(isCreating) && editingId == old(editingId)
    {
      if key == "Enter" && !IsBlank(tagInput) {
        formData := formData.(tags := Tags.AddTag(formData.tags, tagInput));
        tagInput := "";
      }
    }

    /** The x on a tag chip. */
    method HandleRemoveTag(tag: string)
      modifies this
      ensures formData == old(formData).(tags := Tags.RemoveTag(old(formData.tags), tag))
      ensures NoDuplicates(old(formData.tags)) ==> NoDuplicates(formData.tags)
      ensures ideas == old(ideas) && showArchived == old(showArchived) && isCreating == old(isCreating)
      ensures editingId == old(editingId) && tagInput == old(tagInput)
    {
      formData := formData.(tags := Tags.RemoveTag(formData.tags, tag));
    }

    /** The pin button, once done remotely, flips the idea's pin in the list. */
    method HandleTogglePin(idea: Idea, succeeded: bool)
      modifies this
      ensures ideas == (if succeeded then TogglePinned(old(ideas), idea.id) else old(ideas))
      ensures showArchived == old(showArchived) && isCreating == old(isCreating) && editingId == old(editingId)
      ensures formData == old(formData) && tagInput == old(tagInput)
    {
      if succeeded {
        ideas := TogglePinned(ideas, idea.id);
      }
    }

    /** The archive button, once done remotely, reloads the list (`reloaded` is that fetch's result). */
    method HandleToggleArchive(succeeded: bool, reloaded: Option<seq<Idea>>)
      modifies this
      ensures ideas == (if succeeded && reloaded.Some? then reloaded.value else old(ideas))
      ensures showArchived == old(showArchived) && isCreating == old(isCreating) && editingId == old(editingId)
      ensures formData == old(formData) && tagInput == old(tagInput)
    {
      if succeeded {
        LoadIdeas(reloaded);
      }
    }

    /** The show-archived switch flips the flag, and the flag's effect reloads the list (`fetched` is that fetch's result). */
    method ToggleShowArchived(fetched: Option<seq<Idea>>)
      modifies this
      ensures showArchived == !old(showArchived)
      ensures ideas == (if fetched.Some? then fetched.value else old(ideas))
      ensures isCreating == old(isCreating) && editingId == old(editingId)
      ensures formData == old(formData) && tagInput == old(tagInput)
    {
      showArchived := !showArchived;
      LoadIdeas(fetched);
    }

    /** Typing in the title, content or tag field, and picking a colour. */
    method SetTitle(title: string)
      modifies this
      ensures formData == old(formData).(title := title)
      ensures ideas == old(ideas) && isCreating == old(isCreating) && editingId == old(editingId) && tagInput == old(tagInput)
      ensures showArchived == old(showArchived)
    {
      formData := formData.(title := title);
    }

    method SetContent(content: string)
      modifies this
      ensures formData == old(formData).(content := content)
      ensures ideas == old(ideas) && isCreating == old(isCreating) && editingId == old(editingId) && tagInput == old(tagInput)
      ensures showArchived == old(showArchived)
    {
      formData := formData.(content := content);
    }

    method SetColor(color: string)
      modifies this
      ensures formData == old(formData).(color := color)
      ensures ideas == old(ideas) && isCreating == old(isCreating) && editingId == old(editingId) && tagInput == old(tagInput)
      ensures showArchived == old(showArchived)
    {
      formData := formData.(color := color);
    }

    method SetTagInput(input: string)
      modifies this
      ensures tagInput == input && formData == old(formData)
      ensures ideas == old(ideas) && isCreating == old(isCreating) && editingId == old(editingId)
      ensures showArchived == old(showArchived)
    {
      tagInput := input;
    }
  }
}
