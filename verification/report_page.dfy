/**
  The citizen's report form (app/citizen/report/page.tsx): the photo list
  that uploads append to and the remove buttons delete from, and the submit
  handler that builds the request body and records success or failure.
  Object URLs, local storage and the network round trip are parameters.
 */
module ReportPage {
  import opened Types

  /**
    `handleImageUpload`: when a file list arrives, its object URLs are
    appended after the photos already chosen; otherwise nothing changes.
   */
  function Upload(images: seq<string>, files: Option<seq<string>>): (r: seq<string>)
    ensures files.None? ==> r == images
    ensures files.Some? ==> |r| == |images| + |files.value|
    ensures files.Some? ==> r[..|images|] == images && r[|images|..] == files.value
  {
    if files.Some? then images + files.value else images
  }

  /** `xs.filter((_, i) => i !== index)` for the part of a list starting at position `offset`. */
  function KeepOthers(xs: seq<string>, index: int, offset: nat): (r: seq<string>)
    ensures |r| <= |xs|
  {
    if |xs| == 0 then []
    else (if offset != index then [xs[0]] else []) + KeepOthers(xs[1..], index, offset + 1)
  }

  /**
    The remove button of photo `index`: exactly that photo is dropped and
    the others keep their order; an index outside the list changes nothing.
   */
  function RemoveImage(images: seq<string>, index: int): (r: seq<string>)
    ensures 0 <= index < |images| ==> r == images[..index] + images[index + 1..] && |r| == |images| - 1
    ensures !(0 <= index < |images|) ==> r == images
  {
    KeepOthersSplices(images, index, 0);
    KeepOthers(images, index, 0)
  }

  /** Dropping position `index` from a list that starts at position `offset`. */
  lemma {:induction false} KeepOthersSplices(xs: seq<string>, index: int, offset: nat)
    ensures KeepOthers(xs, index, offset) ==
      if offset <= index < offset + |xs| then xs[..index - offset] + xs[index - offset + 1..] else xs
    decreases |xs|
  {
    if |xs| > 0 {
      KeepOthersSplices(xs[1..], index, offset + 1);
      if offset == index {
        assert xs[1..] == xs[index - offset + 1..];
      } else if offset < index < offset + |xs| {
        assert [xs[0]] + xs[1..][..index - offset - 1] == xs[..index - offset];
        assert xs[1..][index - offset..] == xs[index - offset + 1..];
      } else {
        assert [xs[0]] + xs[1..] == xs;
      }
    }
  }

  /** Removing the photo that was just uploaded restores the previous list. */
  lemma RemoveUndoesUpload(images: seq<string>, file: string)
    ensures RemoveImage(Upload(images, Some([file])), |images|) == images
  {
    assert (images + [file])[..|images|] == images;
  }

  datatype ReportForm = ReportForm(
    title: string,
    description: string,
    category: string,
    priority: string,
    address: string,
    images: seq<string>
  )

  datatype ReportLocation = ReportLocation(address: string)

  /** The JSON body of the `POST /api/issues` request. */
  datatype ReportBody = ReportBody(
    title: string,
    description: string,
    category: string,
    priority: string,
    location: ReportLocation,
    images: seq<string>,
    citizenId: Option<string>
  )

  /**
    The `user` entry of local storage: absent (read as `{}`), a parsed
    object whose `id` may be missing, or a value the handler fails on
    (unparsable JSON, or `null`).
   */
  datatype StoredUser = NoStoredUser | StoredUserObject(id: Option<string>) | UnusableUser

  /** How the request ends: the fetch rejects, or a response arrives. */
  datatype FetchOutcome = NetworkError | Responded(ok: bool)

  datatype SubmitState = SubmitState(loading: bool, error: string, success: bool)

  const SubmitFailed := "Failed to submit issue. Please try again."

  /**
    `handleSubmit`. The body is sent unless reading the stored user fails;
    it nests the address under `location` and takes `citizenId` from the
    stored user. Success is recorded only for an ok response, any failure
    sets the error message instead, and loading always ends.
   */
  function Submit(form: ReportForm, stored: StoredUser, outcome: FetchOutcome)
    : (r: (Option<ReportBody>, SubmitState))
    ensures r.0.Some? <==> !stored.UnusableUser?
    ensures r.0.Some? ==>
      && r.0.value.location == ReportLocation(form.address)
      && r.0.value.citizenId == (if stored.StoredUserObject? then stored.id else None)
      && r.0.value.title == form.title && r.0.value.description == form.description
      && r.0.value.category == form.category && r.0.value.priority == form.priority
      && r.0.value.images == form.images
    ensures !r.1.loading
    ensures r.1.success <==> r.0.Some? && outcome == Responded(true)
    ensures r.1.success <==> r.1.error == ""
    ensures !r.1.success ==> r.1.error == SubmitFailed
  {
    if stored.UnusableUser? then (None, SubmitState(false, SubmitFailed, false))
    else
      var citizenId := if stored.StoredUserObject? then stored.id else None;
      var body := ReportBody(form.title, form.description, form.category, form.priority,
                             ReportLocation(form.address), form.images, citizenId);
      if outcome == Responded(true) then (Some(body), SubmitState(false, "", true))
      else (Some(body), SubmitState(false, SubmitFailed, false))
  }
}
