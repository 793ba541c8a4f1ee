/** The upload dialog (frontend/src/components/UploadModal.tsx): the list
    of chosen files, cut to the last one and kept only when it may be an
    HTML page; the tag list, which never holds a tag twice; the guard and
    the payload of the submit; and the reset. The form library's own field
    store is modelled by the three fields the handlers write into it. */
module UploadModal {
  import opened Wrappers
  import opened Text

  /** A file as the upload widget reports it. */
  datatype UploadFile = UploadFile(name: string, mimeType: Option<string>, size: Option<int>)

  /** The values the form library hands to the submit handler. */
  datatype FormValues = FormValues(
    title: string,
    description: string,
    categoryId: int,
    downloadUrl: string,
    downloadPassword: Option<string>)

  /** The data of the create request. */
  datatype Submission = Submission(
    title: string,
    description: string,
    categoryId: int,
    downloadUrl: string,
    downloadPassword: Option<string>,
    fileType: string,
    fileSize: Option<int>,
    tags: seq<string>)

  const HtmlType: string := "html"

  // ---------------------------------------------------------------------
  // The file list.

  /** A file is refused when it has a type that does not mention html and
      its name does not end in `.html`. */
  predicate Refused(f: UploadFile) {
    f.mimeType.Some? && f.mimeType.value != "" && !Contains(f.mimeType.value, HtmlType)
    && !EndsWith(f.name, ".html")
  }

  /** `fileList.slice(-1)`. */
  function LastOne(files: seq<UploadFile>): seq<UploadFile> {
    if files == [] then [] else files[|files| - 1..]
  }

  /** `filter(file => !refused)`. */
  function WithoutRefused(files: seq<UploadFile>): seq<UploadFile> {
    if files == [] then []
    else (if Refused(files[0]) then [] else [files[0]]) + WithoutRefused(files[1..])
  }

  /** The file list a change leaves. */
  function Accepted(files: seq<UploadFile>): seq<UploadFile> {
    WithoutRefused(LastOne(files))
  }

  /** At most one file stays: the last one chosen, unless it is refused;
      an earlier file never survives. */
  lemma AcceptedShape(files: seq<UploadFile>)
    ensures |Accepted(files)| <= 1
    ensures Accepted(files) != [] <==> files != [] && !Refused(files[|files| - 1])
    ensures Accepted(files) != [] ==> Accepted(files) == [files[|files| - 1]]
  {
    if files != [] {
      var last := files[|files| - 1..];
      var f := files[|files| - 1];
      assert last == [f] && last[1..] == [];
      assert WithoutRefused(last) == (if Refused(f) then [] else [f]) + WithoutRefused([]);
    }
  }

  // ---------------------------------------------------------------------
  // The tag list.

  predicate NoDuplicates(s: seq<string>) {
    forall i, j :: 0 <= i < j < |s| ==> s[i] != s[j]
  }

  /** `tags.filter(tag => tag !== t)`. */
  function Without(tags: seq<string>, t: string): seq<string> {
    if tags == [] then []
    else (if tags[0] != t then [tags[0]] else []) + Without(tags[1..], t)
  }

  /** Removal drops every occurrence of the tag and keeps every other one,
      in order; a list free of duplicates stays so. */
  lemma {:induction false} WithoutSpec(tags: seq<string>, t: string)
    ensures forall x :: x in Without(tags, t) <==> x in tags && x != t
    ensures |Without(tags, t)| + multiset(tags)[t] == |tags|
    ensures NoDuplicates(tags) ==> NoDuplicates(Without(tags, t))
    decreases |tags|
  {
    if tags != [] {
      WithoutSpec(tags[1..], t);
      assert tags == [tags[0]] + tags[1..];
      assert multiset(tags) == multiset{tags[0]} + multiset(tags[1..]);
      if NoDuplicates(tags) {
        var rest := Without(tags[1..], t);
        assert tags[0] !in tags[1..];
        assert NoDuplicates(tags[1..]);
        if tags[0] != t {
          assert Without(tags, t) == [tags[0]] + rest;
        }
      }
    }
  }

  /** Removing a tag that was just added gives the list back. */
  lemma {:induction false} RemoveUndoesAdd(tags: seq<string>, t: string)
    requires t !in tags
    ensures Without(tags + [t], t) == tags
    decreases |tags|
  {
    if tags == [] {
      assert [t][1..] == [];
    } else {
      assert (tags + [t])[1..] == tags[1..] + [t];
      RemoveUndoesAdd(tags[1..], t);
      HeadTail(tags);
    }
  }

  // ---------------------------------------------------------------------
  // The dialog.

  class UploadForm {
    var fileList: seq<UploadFile>
    var tags: seq<string>
    var inputTag: string
    /** The form store's `tags`, `file_type` and `file_size` fields. */
    var fieldTags: seq<string>
    var fieldFileType: Option<string>
    var fieldFileSize: Option<int>

    /** The tag list has no duplicates and is mirrored in the form store;
        at most one file is chosen. */
    predicate Valid()
      reads this
    {
      NoDuplicates(tags) && fieldTags == tags && |fileList| <= 1
    }

    constructor ()
      ensures Valid()
      ensures fileList == [] && tags == [] && inputTag == ""
      ensures fieldFileType == Some(HtmlType) && fieldFileSize == None
    {
      fileList, tags, inputTag := [], [], "";
      fieldTags, fieldFileType, fieldFileSize := [], Some(HtmlType), None;
    }

    /** The text field of a new tag. */
    method SetInputTag(text: string)
      modifies this`inputTag
      ensures inputTag == text
    {
      inputTag := text;
    }

    /** handleFileChange: keeps the last file unless it is refused, and fills
        in the file type and size from a kept file. */
    method HandleFileChange(files: seq<UploadFile>)
      requires Valid()
      modifies this`fileList, this`fieldFileType, this`fieldFileSize
      ensures Valid()
      ensures fileList == Accepted(files)
      ensures fileList != [] ==> fieldFileType == Some(HtmlType) && fieldFileSize == fileList[0].size
      ensures fileList == [] ==> fieldFileType == old(fieldFileType) && fieldFileSize == old(fieldFileSize)
    {
      AcceptedShape(files);
      fileList := Accepted(files);
      if |fileList| > 0 {
        fieldFileType, fieldFileSize := Some(HtmlType), fileList[0].size;
      }
    }

    /** handleAddTag: a non-empty text not yet in the list is appended and
        the text cleared; otherwise nothing changes. */
    method HandleAddTag()
      requires Valid()
      modifies this`tags, this`fieldTags, this`inputTag
      ensures Valid()
      ensures old(inputTag) != "" && old(inputTag) !in old(tags) ==>
        tags == old(tags) + [old(inputTag)] && inputTag == ""
      ensures !(old(inputTag) != "" && old(inputTag) !in old(tags)) ==>
        tags == old(tags) && inputTag == old(inputTag)
    {
      if inputTag != "" && inputTag !in tags {
        tags := tags + [inputTag];
        fieldTags := tags;
        inputTag := "";
      }
    }

    /** handleRemoveTag. */
    method HandleRemoveTag(t: string)
      requires Valid()
      modifies this`tags, this`fieldTags
      ensures Valid()
      ensures tags == Without(old(tags), t)
    {
      WithoutSpec(tags, t);
      tags := Without(tags, t);
      fieldTags := tags;
    }

    /** handleReset: no file, no tag, no text, and the form store back at
        the form's initial values: type `html`, no tags, no size. */
    method HandleReset()
      modifies this
      ensures Valid()
      ensures fileList == [] && tags == [] && inputTag == ""
      ensures fieldFileType == Some(HtmlType) && fieldFileSize == None
    {
      fileList, tags, inputTag := [], [], "";
      fieldTags, fieldFileType, fieldFileSize := [], Some(HtmlType), None;
    }

    /** handleSubmit: nothing is sent without a file; otherwise the form's
        values go out with the type `html`, the chosen file's size and the
        current tag list, and a success answer resets the dialog. */
    method HandleSubmit(values: FormValues, succeeded: bool) returns (sent: Option<Submission>)
      requires Valid()
      modifies this
      ensures Valid()
      ensures sent.None? <==> old(fileList) == []
      ensures sent.Some? ==> sent.value == Submission(values.title, values.description, values.categoryId,
        values.downloadUrl, values.downloadPassword, HtmlType, old(fileList)[0].size, old(tags))
      ensures sent.Some? && succeeded ==>
        && fileList == [] && tags == [] && inputTag == ""
        && fieldFileType == Some(HtmlType) && fieldFileSize == None
      ensures !(sent.Some? && succeeded) ==>
        && fileList == old(fileList) && tags == old(tags) && inputTag == old(inputTag)
        && fieldFileType == old(fieldFileType) && fieldFileSize == old(fieldFileSize)
    {
      if |fileList| == 0 {
        return None;
      }
      sent := Some(Submission(values.title, values.description, values.categoryId, values.downloadUrl,
                              values.downloadPassword, HtmlType, fileList[0].size, tags));
      if succeeded {
        HandleReset();
      }
    }
  }
}
