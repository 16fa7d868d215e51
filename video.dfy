/** The stand-alone video routes (volley-sense/apps/api/app/routers/video.py): the ingest
    response derived from the upload's name, and the analysis acknowledgement. */
module VideoRoutes {
  import opened Base
  import opened Text
  import opened PyValues

  const SupportedExtensions: set<string> := {".mp4", ".mov", ".mkv", ".webm", ".avi"}

  datatype IngestResponse = IngestResponse(filename: string, mezzanine: string, proxy: string,
                                           thumbnails: seq<string>, status: string)

  datatype AnalyzeResponse = AnalyzeResponse(gameId: string, status: string)

  /** `file.filename or "upload.mp4"`. */
  function UploadName(filename: Option<string>): (r: string)
    ensures NonEmpty(filename) ==> r == filename.value
    ensures !NonEmpty(filename) ==> r == "upload.mp4"
  {
    if NonEmpty(filename) then filename.value else "upload.mp4"
  }

  /** The stem used in the URLs: the name's stem with every space turned into "-". */
  function UrlStem(name: string): (r: string)
    ensures ' ' !in r
    ensures |r| == |Stem(PathName(name))|
  {
    var stem := ReplaceChar(Stem(PathName(name)), ' ', '-');
    assert forall i :: 0 <= i < |stem| ==> stem[i] != ' ';
    stem
  }

  function Thumbnail(stem: string, index: nat): string
  {
    "/thumbnails/" + stem + "-" + NatToString(index) + ".jpg"
  }

  /** `ingest_video`: 415 for an unsupported lower-cased suffix; otherwise the queued response
      with the transcode and thumbnail URLs. */
  function IngestVideo(filename: Option<string>): (r: Result<IngestResponse>)
    ensures r.Err? <==> Lower(Suffix(PathName(UploadName(filename)))) !in SupportedExtensions
    ensures r.Err? ==> r.error == HttpError(415, "Unsupported format")
    ensures r.Ok? ==>
              var stem := UrlStem(UploadName(filename));
              && r.value.filename == UploadName(filename) && r.value.status == "queued"
              && r.value.mezzanine == "/transcode/" + stem + "-1080p30.mp4"
              && r.value.proxy == "/transcode/" + stem + "-720p30.mp4"
              && r.value.thumbnails == [Thumbnail(stem, 1), Thumbnail(stem, 2), Thumbnail(stem, 3)]
  {
    var name := UploadName(filename);
    if Lower(Suffix(PathName(name))) !in SupportedExtensions then Err(HttpError(415, "Unsupported format"))
    else
      var stem := UrlStem(name);
      Ok(IngestResponse(name, "/transcode/" + stem + "-1080p30.mp4", "/transcode/" + stem + "-720p30.mp4",
                        [Thumbnail(stem, 1), Thumbnail(stem, 2), Thumbnail(stem, 3)], "queued"))
  }

  /** The three thumbnail URLs of a stem are numbered 1, 2 and 3, and are distinct. */
  lemma ThumbnailsNumbered(stem: string)
    ensures Thumbnail(stem, 1) == "/thumbnails/" + stem + "-1.jpg"
    ensures Thumbnail(stem, 2) == "/thumbnails/" + stem + "-2.jpg"
    ensures Thumbnail(stem, 3) == "/thumbnails/" + stem + "-3.jpg"
    ensures forall i, j :: 1 <= i < j <= 3 ==> Thumbnail(stem, i) != Thumbnail(stem, j)
  {
    assert NatToString(1) == "1" && NatToString(2) == "2" && NatToString(3) == "3";
    var base := "/thumbnails/" + stem;
    assert Thumbnail(stem, 1) == base + ("-" + "1" + ".jpg") && "-" + "1" + ".jpg" == "-1.jpg";
    assert Thumbnail(stem, 2) == base + ("-" + "2" + ".jpg") && "-" + "2" + ".jpg" == "-2.jpg";
    assert Thumbnail(stem, 3) == base + ("-" + "3" + ".jpg") && "-" + "3" + ".jpg" == "-3.jpg";
    forall i, j | 1 <= i < j <= 3
      ensures Thumbnail(stem, i) != Thumbnail(stem, j)
    {
      assert Thumbnail(stem, i)[|base| + 1] == DigitChar(i);
      assert Thumbnail(stem, j)[|base| + 1] == DigitChar(j);
    }
  }

  /** A plain name `stem + ext`, with a non-empty stem and one final dot: its suffix is `ext`
      and its stem is `stem`. */
  lemma PlainName(stem: string, ext: string)
    requires stem != [] && |ext| >= 2 && ext[0] == '.' && '.' !in ext[1..] && '/' !in stem + ext
    ensures PathName(stem + ext) == stem + ext
    ensures Suffix(stem + ext) == ext && Stem(stem + ext) == stem
  {
    var name := stem + ext;
    SplitNoSeparator(name, '/');
    var i := RFind(name, '.');
    assert name[|stem|] == '.';
    assert forall j :: |stem| < j < |name| ==> name[j] == ext[1..][j - |stem| - 1];
    assert i == |stem|;
    assert name[i..] == ext && name[..i] == stem;
  }

  /** Without a name the upload is taken as "upload.mp4", which is accepted with stem
      "upload". */
  lemma DefaultNameAccepted()
    ensures UploadName(None) == "upload.mp4"
    ensures IngestVideo(None).Ok? && IngestVideo(None).value.filename == "upload.mp4"
    ensures UrlStem(UploadName(None)) == "upload"
  {
    DefaultSuffixSupported();
    DefaultStem();
  }

  lemma DefaultSuffixSupported()
    ensures Lower(Suffix(PathName("upload.mp4"))) in SupportedExtensions
  {
    DefaultNameParts();
    LowerFixed(".mp4");
  }

  lemma DefaultStem()
    ensures UrlStem("upload.mp4") == "upload"
  {
    DefaultNameParts();
    ReplaceAbsent("upload", ' ', '-');
  }

  lemma DefaultNameParts()
    ensures PathName("upload.mp4") == "upload.mp4" && Suffix("upload.mp4") == ".mp4" && Stem("upload.mp4") == "upload"
  {
    assert "upload.mp4" == "upload" + ".mp4";
    PlainName("upload", ".mp4");
  }

  /** A name is accepted exactly when its lower-cased suffix is a supported one. */
  lemma SuffixDecides(filename: Option<string>)
    ensures IngestVideo(filename).Ok? <==> Lower(Suffix(PathName(UploadName(filename)))) in SupportedExtensions
  {
  }

  /** `analyze_video`: echoes the game id, started. */
  function AnalyzeVideo(gameId: string): (r: AnalyzeResponse)
    ensures r.gameId == gameId && r.status == "started"
  {
    AnalyzeResponse(gameId, "started")
  }
}
