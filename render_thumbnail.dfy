/** `render-thumbnail.mjs`: render the still thumbnail of one album. */
module RenderThumbnail {

  import opened Common
  import opened AssetNaming
  import PublishVideo
  import RenderVideo

  const COMPOSITION := "Thumbnail"
  const DURATION := "25 MIN"
  const USAGE := "Usage: node render-thumbnail.mjs --album=\"cognitive-bloom\""

  /** The constant `inputProps` object. */
  datatype Props = Props(albumName: string, albumArtSrc: string, duration: string)

  /** The `selectComposition` call and the `renderStill` call made. */
  datatype Job = Job(composition: string, selectProps: Props, renderProps: Props, output: string)

  /** `out/${albumSlug}-thumbnail.png`. */
  function OutputPath(slug: string): string { "out/" + slug + "-thumbnail.png" }

  /** The script on its command line: the usage error (exit 1) without an
      `--album=` argument, else the still's job for the album's slug. */
  function Render(argv: seq<string>): (r: Result<Job>)
    ensures r.Err? <==> AlbumSlug(argv).None?
    ensures r.Err? ==> r.error == USAGE
    ensures r.Ok? ==>
              var slug := AlbumSlug(argv).value;
              && r.value.composition == COMPOSITION
              && r.value.selectProps == r.value.renderProps
              && r.value.renderProps == Props(AlbumName(slug), ArtSrc(slug), DURATION)
              // the still is the file publishing a video looks for as its thumbnail
              && r.value.output == PublishVideo.ThumbnailPath(slug)
  {
    match AlbumSlug(argv)
    case None => Err(USAGE)
    case Some(albumSlug) =>
      var inputProps := Props(AlbumName(albumSlug), ArtSrc(albumSlug), DURATION);
      Ok(Job(COMPOSITION, inputProps, inputProps, OutputPath(albumSlug)))
  }

  /** On the same command line, the thumbnail is rendered exactly when the
      video is, with the video's album name and cover art. */
  lemma MatchesVideo(argv: seq<string>)
    ensures Render(argv).Ok? <==> RenderVideo.Render(argv).Ok?
    ensures Render(argv).Ok? ==>
              && Render(argv).value.renderProps.albumName == RenderVideo.Render(argv).value.renderProps.albumName
              && Render(argv).value.renderProps.albumArtSrc == RenderVideo.Render(argv).value.renderProps.albumArtSrc
  {
  }
}
