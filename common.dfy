/** Values shared by the publishing scripts: dates, content types, the
    publish adapters' outcome and the files the scripts look at. */
module Common {

  datatype Option<T> = None | Some(value: T)

  /** A call that either returns a value or throws an `Error` whose
      `message` is `error`. */
  datatype Result<T> = Ok(value: T) | Err(error: string)

  /** A date as the scripts keep it: the ISO-8601 text found in the schedule
      or the metadata, and the millisecond instant that `new Date(text)`
      denotes. Comparisons in the source are on the instant. */
  datatype Stamp = Stamp(text: string, instant: int)

  datatype ContentType = Video | Short

  datatype Privacy = Public | Private | Unlisted

  /** What `publishVideo` and `publishShort` return on success. */
  datatype Published = Published(videoId: string, url: string, title: string)

  /** The outcome of one call to a publish adapter, as the coordinators see
      it: the returned triple, or the message of the error it threw. */
  type Outcome = Result<Published>

  /** The number of successful outcomes. */
  function Successes(outcomes: seq<Outcome>): nat
  {
    if outcomes == [] then 0 else (if outcomes[0].Ok? then 1 else 0) + Successes(outcomes[1..])
  }

  /** The parsed contents of a file under `youtube-metadata/`. */
  datatype Metadata = Metadata(
    slug: string,
    week: int,
    publishDate: Stamp,
    title: string,
    description: string,
    tags: seq<string>,
    categoryId: string,
    privacyStatus: Privacy)

  /** The part of the file system the scripts consult: the metadata
      documents that exist, by path and already parsed, and the paths of the
      rendered media files that exist. `fs.existsSync` of a metadata path is
      membership in `documents`; of a media path, membership in `media`. */
  datatype Disk = Disk(documents: map<string, Metadata>, media: set<string>)
}
