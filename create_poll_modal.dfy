/**
 * The create-poll form: an editable title, description and option list
 * (two to ten options), and the validation that turns it into a
 * `CreatePollRequest`.
 */
module CreatePollModal {
  import opened Optional
  import opened PollTypes
  import opened JsStrings

  const MinOptions := 2
  const MaxOptions := 10

  datatype FormData = FormData(title: string, description: string, options: seq<string>)

  /** The form as it opens and as it is reset after a successful submit. */
  const InitialForm := FormData("", "", ["", ""])

  /** The option count stays between the two bounds the editor enforces. */
  predicate CountInRange(fd: FormData) {
    MinOptions <= |fd.options| <= MaxOptions
  }

  /** `handleAddOption`: one more empty option, unless there are already ten. */
  function AddOption(fd: FormData): (r: FormData)
    ensures r.title == fd.title && r.description == fd.description
    ensures |fd.options| < MaxOptions ==> r.options == fd.options + [""]
    ensures |fd.options| >= MaxOptions ==> r == fd
  {
    if |fd.options| < MaxOptions then fd.(options := fd.options + [""]) else fd
  }

  /** `filter((_, i) => i !== index)`: every element except the one at `index`. */
  function WithoutIndex(s: seq<string>, index: int): (r: seq<string>)
    ensures 0 <= index < |s| ==> r == s[..index] + s[index + 1..]
    ensures !(0 <= index < |s|) ==> r == s
  {
    if s == [] then []
    else
      var rest := WithoutIndex(s[1..], index - 1);
      if index == 0 then rest
      else
        assert 0 <= index < |s| ==> s[1..][..index - 1] + s[1..][index..] == s[1..index] + s[index + 1..];
        [s[0]] + rest
  }

  /** `handleRemoveOption(index)`: drops that option, unless only two are left. */
  function RemoveOption(fd: FormData, index: int): (r: FormData)
    ensures r.title == fd.title && r.description == fd.description
    ensures |fd.options| > MinOptions && 0 <= index < |fd.options| ==>
      r.options == fd.options[..index] + fd.options[index + 1..]
    ensures |fd.options| <= MinOptions || !(0 <= index < |fd.options|) ==> r == fd
  {
    if |fd.options| > MinOptions then fd.(options := WithoutIndex(fd.options, index)) else fd
  }

  /** `handleOptionChange(index, value)`: replaces that option only. */
  function ChangeOption(fd: FormData, index: int, value: string): (r: FormData)
    ensures r.title == fd.title && r.description == fd.description
    ensures |r.options| == |fd.options|
    ensures forall j | 0 <= j < |fd.options| :: r.options[j] == if j == index then value else fd.options[j]
  {
    fd.(options := seq(|fd.options|, j requires 0 <= j < |fd.options| => if j == index then value else fd.options[j]))
  }

  /** None of the editor's updates takes the option count out of range. */
  lemma EditsKeepCount(fd: FormData, index: int, value: string)
    requires CountInRange(fd)
    ensures CountInRange(AddOption(fd))
    ensures CountInRange(RemoveOption(fd, index))
    ensures CountInRange(ChangeOption(fd, index, value))
  {
  }

  /** `filter(opt => opt.trim())`: the options that are not blank, untrimmed, in order. */
  function NonBlank(s: seq<string>): (r: seq<string>)
    ensures |r| <= |s|
    ensures forall j | 0 <= j < |r| :: !Blank(r[j]) && r[j] in s
  {
    if s == [] then [] else (if Blank(s[0]) then [] else [s[0]]) + NonBlank(s[1..])
  }

  /** Filtering distributes over concatenation, so it keeps the original order. */
  lemma {:induction false} NonBlankAppend(s: seq<string>, t: seq<string>)
    ensures NonBlank(s + t) == NonBlank(s) + NonBlank(t)
  {
    if s != [] {
      assert (s + t)[1..] == s[1..] + t;
      NonBlankAppend(s[1..], t);
    } else {
      assert s + t == t;
    }
  }

  /** A list with no blank option is kept whole. */
  lemma {:induction false} NonBlankKeepsFilled(s: seq<string>)
    requires forall j | 0 <= j < |s| :: !Blank(s[j])
    ensures NonBlank(s) == s
  {
    if s != [] {
      NonBlankKeepsFilled(s[1..]);
    }
  }

  datatype FormError = TitleRequired | OptionsRequired

  /** The validation and payload of `handleSubmit`. */
  function Validate(fd: FormData): (r: Result<CreatePollRequest, FormError>)
    ensures r == Err(TitleRequired) <==> Blank(fd.title)
    ensures r == Err(OptionsRequired) <==> !Blank(fd.title) && |NonBlank(fd.options)| < MinOptions
    ensures r.Ok? ==>
      r.value.title == Trim(fd.title) && r.value.title != ""
      && (r.value.description.None? <==> Blank(fd.description))
      && (r.value.description.Some? ==> r.value.description.value == Trim(fd.description))
      && r.value.options == NonBlank(fd.options) && |r.value.options| >= MinOptions
  {
    if Trim(fd.title) == "" then Err(TitleRequired)
    else
      var valid := NonBlank(fd.options);
      if |valid| < MinOptions then Err(OptionsRequired)
      else
        var desc := Trim(fd.description);
        Ok(CreatePollRequest(Trim(fd.title), if desc != "" then Some(desc) else None, valid))
  }

  /** What the user is told after a submit. */
  datatype Notice = Rejected(reason: FormError) | Created | CreateFailed

  /** The modal: its form state and whether it is open. */
  class CreatePollForm {
    var form: FormData
    var isOpen: bool

    predicate Valid()
      reads this
    {
      CountInRange(form)
    }

    constructor (isOpen: bool)
      ensures Valid() && form == InitialForm && this.isOpen == isOpen
    {
      form := InitialForm;
      this.isOpen := isOpen;
    }

    method HandleAddOption()
      requires Valid()
      modifies this
      ensures Valid() && form == AddOption(old(form)) && isOpen == old(isOpen)
    {
      if |form.options| < MaxOptions {
        form := form.(options := form.options + [""]);
      }
    }

    method HandleRemoveOption(index: int)
      requires Valid()
      modifies this
      ensures Valid() && form == RemoveOption(old(form), index) && isOpen == old(isOpen)
    {
      if |form.options| > MinOptions {
        form := form.(options := WithoutIndex(form.options, index));
      }
    }

    method HandleOptionChange(index: int, value: string)
      requires Valid()
      modifies this
      ensures Valid() && form == ChangeOption(old(form), index, value) && isOpen == old(isOpen)
    {
      form := ChangeOption(form, index, value);
    }

    /**
     * `handleSubmit`: an invalid form is rejected and nothing is sent;
     * a valid one sends its payload, and when the mutation succeeds the
     * form is reset and the modal closed, otherwise both stay as they were.
     */
    method HandleSubmit(mutationSucceeds: bool) returns (notice: Notice, sent: Option<CreatePollRequest>)
      requires Valid()
      modifies this
      ensures Valid()
      ensures Validate(old(form)).Err? ==>
        notice == Rejected(Validate(old(form)).error) && sent.None? && form == old(form) && isOpen == old(isOpen)
      ensures Validate(old(form)).Ok? ==> sent == Some(Validate(old(form)).value)
      ensures Validate(old(form)).Ok? && mutationSucceeds ==> notice == Created && form == InitialForm && !isOpen
      ensures Validate(old(form)).Ok? && !mutationSucceeds ==> notice == CreateFailed && form == old(form) && isOpen == old(isOpen)
    {
      var checked := Validate(form);
      if checked.Err? {
        return Rejected(checked.error), None;
      }
      sent := Some(checked.value);
      if mutationSucceeds {
        notice := Created;
        form := InitialForm;
        isOpen := false;
      } else {
        notice := CreateFailed;
      }
    }

    /** `handleClose`: closes the modal unless the create mutation is still pending. */
    method HandleClose(mutationPending: bool)
      modifies this
      ensures form == old(form)
      ensures isOpen == (old(isOpen) && mutationPending)
    {
      if !mutationPending {
        isOpen := false;
      }
    }
  }
}
