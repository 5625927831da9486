/** filters/blur_filter.py: `BlurFilter` keeps a radius of at least 1 and
    emits `boxblur=R:R`. */
module BlurFilter {
  import opened Wrappers
  import opened Text
  import opened Ffmpeg

  function ClampRadius(radius: int): (r: int)
    ensures r >= 1
    ensures radius >= 1 ==> r == radius
    ensures radius < 1 ==> r == 1
  {
    if radius < 1 then 1 else radius
  }

  function BoxBlurFilter(radius: int): (f: Filter)
    requires radius >= 1
    ensures f.stream == Video && StartsWith(f.text, "boxblur=")
  {
    Filter("boxblur=" + IntToString(radius) + ":" + IntToString(radius), Video)
  }

  /** Luma radius and chroma radius both read back as the clamped radius. */
  lemma BlurFilterRoundTrip(radius: int)
    ensures var r := ClampRadius(radius);
            ParseInts(Arguments(BoxBlurFilter(r).text, "boxblur")) == Some([r, r])
  {
    var r := ClampRadius(radius);
    var parts := IntStrings([r, r]);
    assert parts == [parts[0], parts[1]];
    JoinTwo(":", parts[0], parts[1]);
    assert BoxBlurFilter(r).text == "boxblur" + "=" + Join(":", parts);
    IntArgumentsRoundTrip("boxblur", [r, r]);
  }
}
