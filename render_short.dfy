/** `render-short.mjs`: render the vertical short of one album from the
    same assets as the full-length video. */
module RenderShort {

  import opened Common
  import opened AssetNaming
  import PublishShort
  import RenderVideo

  const COMPOSITION := "BreathingBloomShort"
  const USAGE := "Usage: npm run render:short -- --album=\"cognitive-bloom\""

  /** `out/${albumSlug}-short.mp4`. */
  function OutputPath(slug: string): string { "out/" + slug + "-short.mp4" }

  /** The script on its command line: the usage error (exit 1) without an
      `--album=` argument, else the render job for the album's slug. */
  function Render(argv: seq<string>): (r: Result<RenderVideo.Job>)
    ensures r.Err? <==> AlbumSlug(argv).None?
    ensures r.Err? ==> r.error == USAGE
    ensures r.Ok? ==>
              var slug := AlbumSlug(argv).value;
              && r.value.composition == COMPOSITION && r.value.codec == "h264"
              && r.value.selectProps == r.value.renderProps
              && r.value.renderProps == RenderVideo.Props(AlbumName(slug), slug, AudioSrc(slug), ArtSrc(slug))
              // the rendered file is the one publishing a short uploads
              && r.value.outputPath == PublishShort.VideoPath(slug)
  {
    match AlbumSlug(argv)
    case None => Err(USAGE)
    case Some(albumSlug) =>
      var props := RenderVideo.Props(AlbumName(albumSlug), albumSlug, AudioSrc(albumSlug), ArtSrc(albumSlug));
      Ok(RenderVideo.Job(COMPOSITION, props, props, "h264", OutputPath(albumSlug)))
  }

  /** On the same command line, the short is rendered exactly when the video
      is, from the same props, into a different file. */
  lemma SameAssetsAsVideo(argv: seq<string>)
    ensures Render(argv).Ok? <==> RenderVideo.Render(argv).Ok?
    ensures Render(argv).Ok? ==>
              && Render(argv).value.renderProps == RenderVideo.Render(argv).value.renderProps
              && Render(argv).value.outputPath != RenderVideo.Render(argv).value.outputPath
              && Render(argv).value.composition != RenderVideo.Render(argv).value.composition
  {
    if Render(argv).Ok? {
      var slug := AlbumSlug(argv).value;
      var v, s := RenderVideo.OutputPath(slug), OutputPath(slug);
      assert v[|v| - 9] == 'v' && s[|s| - 9] == 's';
    }
  }
}
