/** The application form page: the list of attachments picked for upload and
    the rule that enables the submit button. */
module ApplyPage {

  /** A file picked in the browser; only its identity matters here. */
  datatype PickedFile = PickedFile(name: string, size: nat)

  /** At most five attachments may be picked. */
  const MaxFiles: nat := 5

  /** `files.filter((_, i) => i !== index)`: every element except the one at
      `index`; an index outside the list keeps every element. */
  function Without<T>(s: seq<T>, index: int): (r: seq<T>)
  {
    if s == [] then []
    else if index == 0 then s[1..]
    else [s[0]] + Without(s[1..], index - 1)
  }

  /** Removing index `index` drops exactly that element and keeps the others
      in order; an out-of-range index changes nothing. */
  lemma {:induction false} WithoutSpec<T>(s: seq<T>, index: int)
    ensures 0 <= index < |s| ==> |Without(s, index)| == |s| - 1
    ensures 0 <= index < |s| ==> forall k :: 0 <= k < index ==> Without(s, index)[k] == s[k]
    ensures 0 <= index < |s| ==> forall k :: index <= k < |s| - 1 ==> Without(s, index)[k] == s[k + 1]
    ensures !(0 <= index < |s|) ==> Without(s, index) == s
  {
    if s != [] && index != 0 {
      WithoutSpec(s[1..], index - 1);
      assert s == [s[0]] + s[1..];
      if 0 <= index < |s| {
        var t := Without(s[1..], index - 1);
        assert Without(s, index) == [s[0]] + t;
        forall k | 0 < k < |s| - 1 ensures Without(s, index)[k] == t[k - 1] {
          assert s[1..][k - 1] == s[k] && s[1..][k] == s[k + 1];
        }
      }
    }
  }

  /** The attachments held by the form, with the submit flags it reads. */
  class ApplyForm {
    var files: seq<PickedFile>
    var loading: bool
    var gstAvailable: bool

    /** The cap that every change to the list keeps. */
    ghost predicate Valid()
      reads this
    {
      |files| <= MaxFiles
    }

    /** A fresh form: no files, not loading, GST details offered. */
    constructor ()
      ensures files == [] && !loading && gstAvailable
      ensures Valid()
    {
      files := [];
      loading := false;
      gstAvailable := true;
    }

    /** `handleFileChange`: a pick that would take the list above five is
        refused and leaves the list as it was; otherwise the picked files
        follow the existing ones in order. */
    method HandleFileChange(selected: seq<PickedFile>) returns (accepted: bool)
      requires Valid()
      modifies this
      ensures accepted <==> |old(files)| + |selected| <= MaxFiles
      ensures files == if accepted then old(files) + selected else old(files)
      ensures loading == old(loading) && gstAvailable == old(gstAvailable)
      ensures Valid()
    {
      if |files| + |selected| > MaxFiles {
        return false;
      }
      files := files + selected;
      return true;
    }

    /** `removeFile`: the file at `index` leaves the list. */
    method RemoveFile(index: int)
      requires Valid()
      modifies this
      ensures files == Without(old(files), index)
      ensures 0 <= index < |old(files)| ==> |files| == |old(files)| - 1
      ensures !(0 <= index < |old(files)|) ==> files == old(files)
      ensures loading == old(loading) && gstAvailable == old(gstAvailable)
      ensures Valid()
    {
      WithoutSpec(files, index);
      files := Without(files, index);
    }

    /** The submit button is disabled while a submission is in flight and
        whenever the seller says GST details are not available. */
    predicate SubmitDisabled()
      reads this
    {
      loading || !gstAvailable
    }

    /** The GST checkbox's `onCheckedChange`: the flag takes the checkbox's
        value; with it unchecked the submit button is disabled, and with it
        checked the button is enabled unless a submission is in flight. */
    method SetGstAvailable(checked: bool)
      requires Valid()
      modifies this
      ensures gstAvailable == checked
      ensures files == old(files) && loading == old(loading)
      ensures SubmitDisabled() <==> old(loading) || !checked
      ensures Valid()
    {
      gstAvailable := checked;
    }

    /** The start of `onSubmit`: `loading` is switched on, which disables the
        submit button until the submission ends. */
    method StartSubmit()
      requires Valid()
      modifies this
      ensures loading
      ensures files == old(files) && gstAvailable == old(gstAvailable)
      ensures SubmitDisabled()
      ensures Valid()
    {
      loading := true;
    }

    /** The `finally` of `onSubmit`, reached on success and on failure alike:
        `loading` is switched off, so the button is enabled again exactly
        when GST is available. */
    method FinishSubmit()
      requires Valid()
      modifies this
      ensures !loading
      ensures files == old(files) && gstAvailable == old(gstAvailable)
      ensures SubmitDisabled() <==> !gstAvailable
      ensures Valid()
    {
      loading := false;
    }
  }
}
