/** The two input forms and their guards. A call of the form's `onAdd`
    callback is modelled as the value the form hands over; declining to call it
    (and, in the project form, opening the "Invalid Input" dialog instead) is
    modelled as None. */
module Forms {
  import opened Wrappers
  import opened Text
  import opened ProjectStore

  /** NewProject.handleSave: any field that is blank after trimming aborts the
      save; otherwise onAdd receives the three values exactly as entered. */
  function HandleSave(title: string, description: string, dueDate: string): (r: Option<ProjectData>)
    ensures r.None? <==> AllWhitespace(title) || AllWhitespace(description) || AllWhitespace(dueDate)
    ensures r.Some? ==> r.value == ProjectData(title, description, dueDate)
  {
    if IsBlank(title) || IsBlank(description) || IsBlank(dueDate) then None
    else Some(ProjectData(title, description, dueDate))
  }

  /** The check reads its three fields and nothing else, so the order in which
      they are listed does not matter: a swap and the rotations generate every
      ordering. */
  lemma SaveRejectionIgnoresFieldOrder(title: string, description: string, dueDate: string)
    ensures HandleSave(title, description, dueDate).None? == HandleSave(dueDate, title, description).None?
    ensures HandleSave(title, description, dueDate).None? == HandleSave(description, dueDate, title).None?
    ensures HandleSave(title, description, dueDate).None? == HandleSave(description, title, dueDate).None?
  {
  }

  /** The NewTask component with its local state `enteredTask`. */
  class NewTask {
    var enteredTask: string

    constructor ()
      ensures enteredTask == ""
    {
      enteredTask := "";
    }

    /** handleChange: the field takes exactly the typed value. */
    method HandleChange(value: string)
      modifies this
      ensures enteredTask == value
    {
      enteredTask := value;
    }

    /** handleClick: blank input is ignored and kept; otherwise onAdd receives
        the untrimmed text and the field is cleared. */
    method HandleClick() returns (added: Option<string>)
      modifies this
      ensures AllWhitespace(old(enteredTask)) ==> added == None && enteredTask == old(enteredTask)
      ensures !AllWhitespace(old(enteredTask)) ==> added == Some(old(enteredTask)) && enteredTask == ""
    {
      if IsBlank(enteredTask) {
        added := None;
        return;
      }
      added := Some(enteredTask);
      enteredTask := "";
    }
  }
}
