/** The upload page's controller: the four state cells `file`, `loading`, `error` and
    `data`, the three handlers that change them, and the conditions the page derives from
    them. The HTTP round trip of an extraction is a parameter, its Reply. */
module Controller {
  import opened Wrappers
  import opened Transactions

  const Fallback := "Something went wrong"

  /** A file the picker accepted. */
  datatype File = File(name: string)

  /** How the upload request ends, as handleExtract observes it:
      - Success: the response is ok and its JSON body is `body`;
      - Failure: the response is not ok and its JSON body's `detail` is `detail`
        (None when null or absent);
      - Thrown: the request or a JSON decode threw an error with `message`. */
  datatype Reply =
    | Success(body: BankStatement)
    | Failure(detail: Option<string>)
    | Thrown(message: string)

  class UploadController {
    var file: Option<File>
    var loading: bool
    var error: Option<string>
    var data: Option<BankStatement>

    /** The four `useState` initial values. */
    constructor ()
      ensures file == None && !loading && error == None && data == None
    {
      file, loading, error, data := None, false, None, None;
    }

    /** The "Extract Data" button is enabled (`disabled={!file || loading}`). */
    predicate ExtractEnabled(): (enabled: bool)
      reads this
      ensures enabled <==> file != None && !loading
    {
      file.Some? && !loading
    }

    /** The full upload card is shown rather than the compact bar (`!data`). */
    predicate ShowsUploadCard(): (shown: bool)
      reads this
      ensures shown <==> data == None
    {
      data.None?
    }

    /** The error text is rendered (`error && ...`): an empty message renders nothing. */
    predicate ShowsError(): (shown: bool)
      reads this
      ensures shown ==> error.Some?
      ensures error == Some("") ==> !shown
      ensures error.Some? && |error.value| > 0 ==> shown
    {
      error.Some? && error.value != ""
    }

    /** The state between two user events: nothing is in flight, and an error and a result
        are never held together. */
    ghost predicate Settled()
      reads this
    {
      !loading && (error == None || data == None)
    }

    /** `handleFileChange`: keep the first accepted file, or none, and drop the previous
        error and result. */
    method HandleFileChange(acceptedFiles: seq<File>)
      modifies this
      ensures file == (if |acceptedFiles| > 0 then Some(acceptedFiles[0]) else None)
      ensures error == None && data == None && loading == old(loading)
    {
      file := if |acceptedFiles| > 0 then Some(acceptedFiles[0]) else None;
      error := None;
      data := None;
    }

    /** `handleExtract`, taken as one atomic step that ends with the given reply. */
    method HandleExtract(reply: Reply)
      modifies this
      ensures old(file) == None ==>
        file == old(file) && loading == old(loading) && error == old(error) && data == old(data)
      ensures old(file) != None ==> file == old(file) && !loading
      ensures old(file) != None && reply.Success? ==> error == None && data == Some(reply.body)
      ensures old(file) != None && reply.Failure? && reply.detail.Some? ==>
        error == reply.detail && data == old(data)
      ensures old(file) != None && reply.Failure? && reply.detail.None? ==>
        error == Some(Fallback) && data == old(data)
      ensures old(file) != None && reply.Thrown? ==>
        error == Some(reply.message) && data == old(data)
    {
      if file == None {
        return;
      }
      loading := true;
      error := None;
      // try
      var thrown: Option<string> := None;
      match reply {
        case Success(body) =>
          data := Some(body);
        case Failure(detail) =>
          thrown := Some(detail.GetOr(Fallback));
        case Thrown(message) =>
          thrown := Some(message);
      }
      // catch
      if thrown.Some? {
        error := thrown;
      }
      // finally
      loading := false;
    }

    /** `handleReset`: drop the file, the result and the error together. */
    method HandleReset()
      modifies this
      ensures file == None && data == None && error == None && loading == old(loading)
    {
      file := None;
      data := None;
      error := None;
    }

    /** The user picks a file in the upload card. */
    method SelectFile(acceptedFiles: seq<File>)
      requires Settled() && ShowsUploadCard()
      modifies this
      ensures Settled() && ShowsUploadCard() && !ShowsError()
      ensures ExtractEnabled() <==> |acceptedFiles| > 0
    {
      HandleFileChange(acceptedFiles);
    }

    /** The user clicks the enabled "Extract Data" button. Afterwards the button is usable
        again; either the result replaces the upload card, or the card stays with the
        failure message. */
    method ClickExtract(reply: Reply)
      requires Settled() && ShowsUploadCard() && ExtractEnabled()
      modifies this
      ensures Settled() && ExtractEnabled() && file == old(file)
      ensures reply.Success? <==> !ShowsUploadCard()
      ensures reply.Success? ==> data == Some(reply.body) && error == None
      ensures !reply.Success? ==> error.Some?
    {
      HandleExtract(reply);
    }

    /** The user clicks "Upload New File" in the compact bar shown with a result. */
    method ClickUploadNew()
      requires Settled() && !ShowsUploadCard()
      modifies this
      ensures Settled() && ShowsUploadCard() && !ExtractEnabled() && !ShowsError()
    {
      HandleReset();
    }
  }
}
