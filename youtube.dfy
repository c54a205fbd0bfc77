/** The requests the scripts send to the YouTube Data API. The API itself is
    outside the model: each call's outcome is given to the scripts as a
    parameter. */
module YouTube {

  import opened Common

  /** The `requestBody` and media path of a `videos.insert` call. */
  datatype InsertRequest = InsertRequest(
    title: string,
    description: string,
    tags: seq<string>,
    categoryId: string,
    privacyStatus: Privacy,
    publishAt: Option<string>,
    madeForKids: bool,
    mediaPath: string)

  /** The `requestBody` of a `videos.update` call on the status part. */
  datatype UpdateRequest = UpdateRequest(
    id: string,
    privacyStatus: Privacy,
    publishAt: Option<string>,
    madeForKids: bool)

  /** The snippet and media of an insert request built from metadata. */
  function InsertFor(meta: Metadata, privacy: Privacy, publishAt: Option<string>, mediaPath: string): InsertRequest
  {
    InsertRequest(meta.title, meta.description, meta.tags, meta.categoryId, privacy, publishAt, false, mediaPath)
  }
}
