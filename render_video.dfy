/** `render.mjs`: render the full-length video of one album. The bundling
    and rendering are library calls; what is modelled is the job the script
    hands them. */
module RenderVideo {

  import opened Common
  import opened AssetNaming
  import PublishVideo

  const COMPOSITION := "BreathingBloom"
  const USAGE := "Usage: npm run render -- --album=\"cognitive-bloom\""

  /** The `inputProps` of the composition. */
  datatype Props = Props(albumName: string, albumSlug: string, audioSrc: string, albumArtSrc: string)

  /** The `selectComposition` call and the `renderMedia` call made. */
  datatype Job = Job(composition: string, selectProps: Props, renderProps: Props, codec: string, outputPath: string)

  /** `out/${albumSlug}-video.mp4`. */
  function OutputPath(slug: string): string { "out/" + slug + "-video.mp4" }

  /** The script on its command line: the usage error (exit 1) without an
      `--album=` argument, else the render job for the album's slug. */
  function Render(argv: seq<string>): (r: Result<Job>)
    ensures r.Err? <==> AlbumSlug(argv).None?
    ensures r.Err? ==> r.error == USAGE
    ensures r.Ok? ==>
              var slug := AlbumSlug(argv).value;
              && r.value.composition == COMPOSITION && r.value.codec == "h264"
              // the composition is selected and rendered with the same props
              && r.value.selectProps == r.value.renderProps
              && r.value.renderProps == Props(AlbumName(slug), slug, AudioSrc(slug), ArtSrc(slug))
              // the rendered file is the one publishing a video uploads
              && r.value.outputPath == PublishVideo.VideoPath(slug)
  {
    match AlbumSlug(argv)
    case None => Err(USAGE)
    case Some(albumSlug) =>
      var props := Props(AlbumName(albumSlug), albumSlug, AudioSrc(albumSlug), ArtSrc(albumSlug));
      Ok(Job(COMPOSITION, props, props, "h264", OutputPath(albumSlug)))
  }
}
