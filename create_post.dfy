/** The new-post form: the picked image is checked for size and type before
    it is kept and previewed, and the form requires a description, an image
    and a category before it submits. */
module CreatePostForm {
  import opened Common

  /** What the page reads of a picked file. */
  datatype File = File(size: nat, mimeType: string)

  const MaxImageBytes := 1024 * 1024
  const AllowedTypes: seq<string> := ["image/jpeg", "image/png", "image/jpg"]
  const SizeError := "File size should be less than 1MB"
  const TypeError := "Only JPEG, PNG and JPG images are allowed"

  /** What `handleFileChange` does with the first picked file. */
  datatype FileCheck =
    | TooLarge
    | WrongType
    | Accepted(file: File)
    | Crashed    // `file.type` read on `undefined`
    | NoFile

  /** The checks as written: the size test guards against a missing file,
      the type test does not. */
  function FileCheckAsWritten(file: Option<File>): (c: FileCheck)
    ensures c == Crashed <==> file.None?
  {
    if file.Some? && file.value.size > MaxImageBytes then TooLarge
    else if file.None? then Crashed
    else if file.value.mimeType !in AllowedTypes then WrongType
    else Accepted(file.value)
  }

  /** Closing the file picker without choosing a file makes the change
      handler throw. */
  lemma CancelledPickerThrowsAsWritten()
    ensures FileCheckAsWritten(None) == Crashed
  {
  }

  /** The checks with the missing file handled before either test. The size
      is tested first, so an oversized file of a wrong type reports its size,
      and exactly one mebibyte is still accepted. */
  function FileCheckOf(file: Option<File>): (c: FileCheck)
    ensures c == NoFile <==> file.None?
    ensures c == TooLarge <==> file.Some? && file.value.size > MaxImageBytes
    ensures c == WrongType <==> file.Some? && file.value.size <= MaxImageBytes && file.value.mimeType !in AllowedTypes
    ensures c.Accepted? <==> file.Some? && file.value.size <= MaxImageBytes && file.value.mimeType in AllowedTypes
    ensures c.Accepted? ==> c.file == file.value
  {
    if file.None? then NoFile
    else if file.value.size > MaxImageBytes then TooLarge
    else if file.value.mimeType !in AllowedTypes then WrongType
    else Accepted(file.value)
  }

  /** The correction changes nothing for a file that is there. */
  lemma FileCheckAgreesOnFiles(f: File)
    ensures FileCheckOf(Some(f)) == FileCheckAsWritten(Some(f))
  {
  }

  /** A 1 MiB JPEG passes; one byte more fails on size whatever its type. */
  lemma SizeBoundary(t: string)
    ensures FileCheckOf(Some(File(1048576, "image/jpeg"))) == Accepted(File(1048576, "image/jpeg"))
    ensures FileCheckOf(Some(File(1048577, t))) == TooLarge
  {
  }

  datatype FormField = DescriptionField | ImageField | CategoryField

  /** The form schema: each field is required. */
  function FormErrors(description: string, image: Option<File>, category: string): (e: set<FormField>)
    ensures DescriptionField in e <==> description == ""
    ensures ImageField in e <==> image.None?
    ensures CategoryField in e <==> category == ""
  {
    (if description == "" then {DescriptionField} else {})
    + (if image.None? then {ImageField} else {})
    + (if category == "" then {CategoryField} else {})
  }

  /** What the form sends. */
  datatype PostRequest = PostRequest(description: string, image: File, category: string)

  class PostForm {
    var description: string
    var image: Option<File>
    var category: string
    var imageError: string
    var imagePreview: Option<File>   // the object URL made for the file
    var requests: seq<PostRequest>

    /** The preview always shows the kept image. */
    ghost predicate Valid()
      reads this
    {
      imagePreview == image
    }

    constructor ()
      ensures Valid()
      ensures description == "" && image.None? && category == "" && imageError == ""
      ensures imagePreview.None? && requests == []
    {
      description, image, category := "", None, "";
      imageError, imagePreview, requests := "", None, [];
    }

    /** `handleFileChange`, with the missing file handled: an oversized or
        mistyped file only sets its error; an accepted one is kept and
        previewed and the error cleared. */
    method HandleFileChange(file: Option<File>)
      requires Valid()
      modifies this`image, this`imagePreview, this`imageError
      ensures Valid()
      ensures FileCheckOf(file) == NoFile ==> unchanged(this)
      ensures FileCheckOf(file) == TooLarge ==> imageError == SizeError && image == old(image)
      ensures FileCheckOf(file) == WrongType ==> imageError == TypeError && image == old(image)
      ensures FileCheckOf(file).Accepted? ==> image == file && imageError == ""
    {
      if file.None? {
        return;
      }
      var f := file.value;
      if f.size > MaxImageBytes {
        imageError := SizeError;
        return;
      }
      if f.mimeType !in AllowedTypes {
        imageError := TypeError;
        return;
      }
      image := Some(f);
      imagePreview := Some(f);
      imageError := "";
    }

    /** `removeImage`. */
    method RemoveImage()
      modifies this`image, this`imagePreview, this`imageError
      ensures Valid()
      ensures image.None? && imagePreview.None? && imageError == ""
    {
      image := None;
      imagePreview := None;
      imageError := "";
    }

    method SetDescription(text: string)
      modifies this`description
      ensures description == text
    {
      description := text;
    }

    method SetCategory(id: string)
      modifies this`category
      ensures category == id
    {
      category := id;
    }

    /** Submitting sends the three fields only when none is missing. */
    method HandleSubmit()
      modifies this`requests
      ensures FormErrors(description, image, category) == {} ==>
                image.Some? && requests == old(requests) + [PostRequest(description, image.value, category)]
      ensures FormErrors(description, image, category) != {} ==> requests == old(requests)
    {
      if description != "" && image.Some? && category != "" {
        requests := requests + [PostRequest(description, image.value, category)];
      }
    }
  }
}
