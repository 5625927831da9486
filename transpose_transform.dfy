/** pregatireOpperatii/transformations/transpose_transform.py: a mode name
    (any letter case) is mapped to ffmpeg's `transpose` argument, or to the
    bare `hflip`/`vflip` filter. */
module TransposeTransform {
  import opened Wrappers
  import opened Text
  import opened Ffmpeg

  datatype Transpose = Transpose(mode: string, ffmpegMode: string)

  const ModeMap: map<string, string> :=
    map["clock" := "1", "cclock" := "2", "clock_flip" := "3", "cclock_flip" := "0",
        "hflip" := "hflip", "vflip" := "vflip"]

  const InvalidModeMessage: string :=
    "Mode invalid. Foloseste: ['clock', 'cclock', 'clock_flip', 'cclock_flip', 'hflip', 'vflip']"

  /** The constructor: the lower-cased mode must be a key of the table. */
  function NewTranspose(mode: string): (r: Result<Transpose>)
    ensures r.Ok? <==> Lower(mode) in ModeMap
    ensures r.Ok? ==> r.value.mode == Lower(mode) && r.value.ffmpegMode == ModeMap[Lower(mode)]
    ensures r.Err? ==> r.error == ValueError(InvalidModeMessage)
  {
    var m := Lower(mode);
    if m in ModeMap then Ok(Transpose(m, ModeMap[m])) else Err(ValueError(InvalidModeMessage))
  }

  function TransposeFilter(t: Transpose): (f: Filter)
    ensures f.stream == Video
  {
    if t.ffmpegMode in ["hflip", "vflip"] then Filter(t.ffmpegMode, Video)
    else Filter("transpose=" + t.ffmpegMode, Video)
  }

  /** The filter a mode name produces, when it is accepted. */
  function ModeFilter(mode: string): Option<string> {
    match NewTranspose(mode)
    case Ok(t) => Some(TransposeFilter(t).text)
    case Err(_) => None
  }

  /** The whole table: what each accepted mode turns into. */
  lemma ModeFilterTable(mode: string)
    ensures Lower(mode) == "clock" ==> ModeFilter(mode) == Some("transpose=1")
    ensures Lower(mode) == "cclock" ==> ModeFilter(mode) == Some("transpose=2")
    ensures Lower(mode) == "clock_flip" ==> ModeFilter(mode) == Some("transpose=3")
    ensures Lower(mode) == "cclock_flip" ==> ModeFilter(mode) == Some("transpose=0")
    ensures Lower(mode) == "hflip" ==> ModeFilter(mode) == Some("hflip")
    ensures Lower(mode) == "vflip" ==> ModeFilter(mode) == Some("vflip")
    ensures ModeFilter(mode).None? <==> Lower(mode) !in ModeMap
  {
    var m := Lower(mode);
    if m == "hflip" || m == "vflip" {
      assert ModeMap[m] in ["hflip", "vflip"];
    } else if m in ModeMap {
      assert ModeMap[m] !in ["hflip", "vflip"];
      assert ModeFilter(mode) == Some("transpose=" + ModeMap[m]);
      if m == "clock" { assert "transpose=" + "1" == "transpose=1"; }
      else if m == "cclock" { assert "transpose=" + "2" == "transpose=2"; }
      else if m == "clock_flip" { assert "transpose=" + "3" == "transpose=3"; }
      else { assert "transpose=" + "0" == "transpose=0"; }
    }
  }

  /** Two mode names that differ after lower-casing give different filters. */
  lemma ModeFilterInjective(a: string, b: string)
    requires Lower(a) in ModeMap && Lower(b) in ModeMap && Lower(a) != Lower(b)
    ensures ModeFilter(a) != ModeFilter(b)
  {
    ModeFilterTable(a);
    ModeFilterTable(b);
  }
}
