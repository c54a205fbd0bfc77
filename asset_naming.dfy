/** How the three render scripts turn their `--album=<slug>` argument into
    the slug, the asset file names and the display name of the album. */
module AssetNaming {

  import opened Common
  import opened Text

  const ALBUM_FLAG := "--album="
  const QUOTES: set<char> := {'\'', '"'}
  const AUDIO_SUFFIX := "-full-album.mp3"
  const ART_SUFFIX := ".webp"

  predicate IsAlbumArg(arg: string)
  {
    StartsWith(arg, ALBUM_FLAG)
  }

  /** `args.find(arg => arg.startsWith('--album='))`: the first argument
      carrying the flag, or none. */
  function FindAlbumArg(args: seq<string>): (r: Option<string>)
    ensures r.None? <==> forall i :: 0 <= i < |args| ==> !IsAlbumArg(args[i])
    ensures r.Some? ==> exists i :: 0 <= i < |args| && args[i] == r.value && IsAlbumArg(args[i])
                          && forall j :: 0 <= j < i ==> !IsAlbumArg(args[j])
  {
    if args == [] then None
    else if IsAlbumArg(args[0]) then Some(args[0])
    else
      var r := FindAlbumArg(args[1..]);
      assert r.Some? ==> exists i :: 1 <= i < |args| && args[i] == r.value && IsAlbumArg(args[i])
                                  && forall j :: 0 <= j < i ==> !IsAlbumArg(args[j]) by {
        if r.Some? {
          var i :| 0 <= i < |args[1..]| && args[1..][i] == r.value && IsAlbumArg(args[1..][i])
                   && forall j :: 0 <= j < i ==> !IsAlbumArg(args[1..][j]);
          assert forall j :: 1 <= j < i + 1 ==> !IsAlbumArg(args[j]) by {
            forall j | 1 <= j < i + 1 ensures !IsAlbumArg(args[j]) {
              assert args[j] == args[1..][j - 1];
            }
          }
        }
      }
      r
  }

  /** The text between the first and the second `=` of a flagged argument
      (up to its end if there is no second `=`). */
  function FlagValue(arg: string): (v: string)
    requires IsAlbumArg(arg)
    ensures '=' !in v
    ensures StartsWith(arg, ALBUM_FLAG + v)
    ensures |ALBUM_FLAG + v| == |arg| || arg[|ALBUM_FLAG + v|] == '='
  {
    var t := arg[|ALBUM_FLAG|..];
    assert arg == ALBUM_FLAG + t;
    match IndexOf(t, '=')
    case None => t
    case Some(k) =>
      assert (ALBUM_FLAG + t[..k]) == arg[..|ALBUM_FLAG| + k];
      t[..k]
  }

  /** `albumArg.split('=')[1].replace(/['"]/g, '')`. */
  function SlugOf(arg: string): (slug: string)
    requires IsAlbumArg(arg)
  {
    SplitOnFlag(arg);
    RemoveAll(Split(arg, '=')[1], QUOTES)
  }

  /** The second `=`-field of a flagged argument is `FlagValue`. */
  lemma SplitOnFlag(arg: string)
    requires IsAlbumArg(arg)
    ensures |Split(arg, '=')| >= 2 && Split(arg, '=')[1] == FlagValue(arg)
  {
    var t := arg[|ALBUM_FLAG|..];
    assert arg == "--album" + ['='] + t;
    IndexOfAfterPrefix("--album", t, '=');
    assert arg[..7] == "--album" && arg[8..] == t;
    match IndexOf(t, '=')
    case None =>
      assert Split(t, '=') == [t];
    case Some(k) =>
      assert Split(t, '=')[0] == t[..k];
  }

  /** The slug is the flag's value with every quote character removed. */
  lemma SlugIsUnquotedFlagValue(arg: string)
    requires IsAlbumArg(arg)
    ensures SlugOf(arg) == RemoveAll(FlagValue(arg), QUOTES)
    ensures forall i :: 0 <= i < |SlugOf(arg)| ==> SlugOf(arg)[i] !in QUOTES && SlugOf(arg)[i] != '='
  {
    SplitOnFlag(arg);
    var v := FlagValue(arg);
    RemoveAllKeepsAbsent(v, QUOTES, '=');
  }

  lemma {:induction false} RemoveAllKeepsAbsent(s: string, drop: set<char>, c: char)
    requires c !in s
    ensures c !in RemoveAll(s, drop)
  {
    if s != [] {
      assert c !in s[1..];
      RemoveAllKeepsAbsent(s[1..], drop, c);
    }
  }

  /** `albumSlug.replace(/-/g, ' ') + '-full-album.mp3'`. */
  function AudioFileName(slug: string): (name: string)
    ensures |name| == |slug| + |AUDIO_SUFFIX| && EndsWith(name, AUDIO_SUFFIX)
    ensures forall i :: 0 <= i < |slug| ==> name[i] != '-'
    ensures forall i :: 0 <= i < |slug| ==> name[i] == (if slug[i] == '-' then ' ' else slug[i])
  {
    ReplaceAll(slug, '-', ' ') + AUDIO_SUFFIX
  }

  /** `albumSlug.replace(/-/g, '_') + '.webp'`. */
  function ArtFileName(slug: string): (name: string)
    ensures |name| == |slug| + |ART_SUFFIX| && EndsWith(name, ART_SUFFIX)
    ensures forall i :: 0 <= i < |slug| ==> name[i] != '-'
    ensures forall i :: 0 <= i < |slug| ==> name[i] == (if slug[i] == '-' then '_' else slug[i])
  {
    ReplaceAll(slug, '-', '_') + ART_SUFFIX
  }

  /** `.map(word => word.charAt(0).toUpperCase() + word.slice(1))`. */
  function CapitalizeAll(words: seq<string>): (r: seq<string>)
    ensures |r| == |words|
    ensures forall k :: 0 <= k < |words| ==> r[k] == Capitalize(words[k])
  {
    if words == [] then [] else [Capitalize(words[0])] + CapitalizeAll(words[1..])
  }

  /** `albumSlug.split('-').map(capitalise).join(' ')`. */
  function AlbumName(slug: string): string
  {
    Join(CapitalizeAll(Split(slug, '-')), " ")
  }

  /** The album name, character by character: every `-` of the slug becomes
      a space, a character at the start of the slug or right after a `-` is
      upper-cased, every other character is kept. */
  function TitleCase(s: string): (r: string)
  {
    seq(|s|, i requires 0 <= i < |s| =>
      if s[i] == '-' then ' '
      else if i == 0 || s[i - 1] == '-' then ToUpper(s[i])
      else s[i])
  }

  /** The split-map-join pipeline computes the title case of the slug; in
      particular the name is exactly as long as the slug. */
  lemma {:induction false} AlbumNameIsTitleCase(slug: string)
    ensures AlbumName(slug) == TitleCase(slug)
    ensures |AlbumName(slug)| == |slug|
    decreases |slug|
  {
    match IndexOf(slug, '-')
    case None =>
      assert Split(slug, '-') == [slug];
      assert CapitalizeAll([slug]) == [Capitalize(slug)];
      assert forall i :: 0 <= i < |slug| ==> slug[i] != '-';
      assert Capitalize(slug) == TitleCase(slug);
    case Some(k) =>
      var rest := slug[k + 1..];
      assert Split(slug, '-') == [slug[..k]] + Split(rest, '-');
      var caps := CapitalizeAll(Split(rest, '-'));
      assert CapitalizeAll(Split(slug, '-')) == [Capitalize(slug[..k])] + caps;
      AlbumNameIsTitleCase(rest);
      assert Join(caps, " ") == TitleCase(rest);
      assert AlbumName(slug) == Capitalize(slug[..k]) + " " + TitleCase(rest);
      TitleCaseAtDash(slug, k);
  }

  /** Title case splits at the first `-`. */
  lemma TitleCaseAtDash(s: string, k: nat)
    requires k < |s| && s[k] == '-' && '-' !in s[..k]
    ensures TitleCase(s) == Capitalize(s[..k]) + " " + TitleCase(s[k + 1..])
  {
    var lhs, rhs := TitleCase(s), Capitalize(s[..k]) + " " + TitleCase(s[k + 1..]);
    assert |lhs| == |rhs|;
    forall i | 0 <= i < |s| ensures lhs[i] == rhs[i] {
      if i < k {
        assert s[..k][i] == s[i];
        if i > 0 { assert s[..k][i - 1] == s[i - 1]; }
      } else if i > k {
        assert s[k + 1..][i - k - 1] == s[i];
        if i > k + 1 { assert s[k + 1..][i - k - 2] == s[i - 1]; }
      }
    }
  }

  /** Without spaces in the slug, the album name has one word per
      `-`-separated piece of the slug: splitting it on spaces gives back the
      capitalised pieces. */
  lemma AlbumNameWords(slug: string)
    requires ' ' !in slug
    ensures Split(AlbumName(slug), ' ') == CapitalizeAll(Split(slug, '-'))
    ensures |Split(AlbumName(slug), ' ')| == |Split(slug, '-')|
  {
    var pieces := Split(slug, '-');
    var caps := CapitalizeAll(pieces);
    forall k | 0 <= k < |caps| ensures ' ' !in caps[k] {
      JoinSplit(slug, '-');
      assert ' ' !in pieces[k] by {
        if ' ' in pieces[k] {
          var j :| 0 <= j < |pieces[k]| && pieces[k][j] == ' ';
          JoinContains(pieces, k, j, "-");
          assert false;
        }
      }
      CapitalizeKeepsNoSpace(pieces[k]);
    }
    SplitJoin(caps, ' ');
  }

  /** Every character of a word occurs in their join. */
  lemma {:induction false} JoinContains(words: seq<string>, k: nat, j: nat, sep: string)
    requires k < |words| && j < |words[k]|
    ensures words[k][j] in Join(words, sep)
  {
    if |words| > 1 {
      if k == 0 {
        assert Join(words, sep) == words[0] + sep + Join(words[1..], sep);
        assert Join(words, sep)[j] == words[0][j];
      } else {
        JoinContains(words[1..], k - 1, j, sep);
        var t := Join(words[1..], sep);
        var i :| 0 <= i < |t| && t[i] == words[k][j];
        assert Join(words, sep) == words[0] + sep + t;
        assert Join(words, sep)[|words[0]| + |sep| + i] == t[i];
      }
    }
  }

  lemma CapitalizeKeepsNoSpace(w: string)
    requires ' ' !in w
    ensures ' ' !in Capitalize(w)
  {
    if w != [] {
      assert Capitalize(w) == [ToUpper(w[0])] + w[1..];
      assert w[0] != ' ';
      assert ' ' !in w[1..];
    }
  }

  /** `process.argv.slice(2)`. */
  function CliArgs(argv: seq<string>): seq<string>
  {
    if |argv| <= 2 then [] else argv[2..]
  }

  /** The album slug a render script takes from its command line, or none
      when no argument carries the flag. */
  function AlbumSlug(argv: seq<string>): (slug: Option<string>)
    ensures slug.None? <==> FindAlbumArg(CliArgs(argv)).None?
    ensures slug.Some? ==> IsAlbumArg(FindAlbumArg(CliArgs(argv)).value)
                           && slug.value == RemoveAll(FlagValue(FindAlbumArg(CliArgs(argv)).value), QUOTES)
  {
    match FindAlbumArg(CliArgs(argv))
    case None => None
    case Some(arg) =>
      assert exists i :: 0 <= i < |CliArgs(argv)| && CliArgs(argv)[i] == arg && IsAlbumArg(CliArgs(argv)[i]);
      SlugIsUnquotedFlagValue(arg);
      Some(SlugOf(arg))
  }

  /** `/albums/${audioFileName}`: the audio as the compositions load it. */
  function AudioSrc(slug: string): string { "/albums/" + AudioFileName(slug) }

  /** `/assets/albums/${artFileName}`: the cover art as the compositions load it. */
  function ArtSrc(slug: string): string { "/assets/albums/" + ArtFileName(slug) }
}
