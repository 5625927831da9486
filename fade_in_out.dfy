/** timing/fade_in_out.py: a fade-in at the start, a fade-out ending at the
    clip's end, or both. The clip length comes from an ffprobe run, which the
    model takes as a parameter. */
module FadeInOut {
  import opened Wrappers
  import opened Text
  import opened Ffmpeg

  datatype FadeKind = In | Out | Both

  /** `duration` is in whole seconds. */
  datatype Fade = Fade(duration: nat, kind: FadeKind)

  const InvalidTypeMessage: string := "Type trebuie sa fie 'in', 'out' sau 'both'"

  /** The outcome of `ffprobe -show_entries format=duration`: its exit code,
      the reported length in milliseconds, and its standard error. */
  datatype Probe = Probe(exitCode: int, lengthMs: int, stderr: string)

  /** The constructor: the duration is clamped at 0 and the type is matched
      without regard to letter case. */
  function NewFade(duration: int, kind: string): (r: Result<Fade>)
    ensures r.Ok? <==> Lower(kind) in {"in", "out", "both"}
    ensures r.Ok? ==> r.value.duration == (if duration < 0 then 0 else duration)
    ensures r.Ok? ==> (r.value.kind == In <==> Lower(kind) == "in")
    ensures r.Ok? ==> (r.value.kind == Out <==> Lower(kind) == "out")
    ensures r.Err? ==> r.error == ValueError(InvalidTypeMessage)
  {
    var d: nat := if duration < 0 then 0 else duration;
    var k := Lower(kind);
    if k == "in" then Ok(Fade(d, In))
    else if k == "out" then Ok(Fade(d, Out))
    else if k == "both" then Ok(Fade(d, Both))
    else Err(ValueError(InvalidTypeMessage))
  }

  /** `_get_video_duration`: a failing probe raises RuntimeError. */
  function VideoLength(probe: Probe): (r: Result<int>)
    ensures r.Ok? <==> probe.exitCode == 0
    ensures r.Ok? ==> r.value == probe.lengthMs
    ensures r.Err? ==> r.error == RuntimeError("Eroare ffprobe: " + probe.stderr)
  {
    if probe.exitCode != 0 then Err(RuntimeError("Eroare ffprobe: " + probe.stderr))
    else Ok(probe.lengthMs)
  }

  function FadeInText(d: nat): string {
    "fade=t=in:st=0:d=" + IntToString(d)
  }

  /** The fade-out starts `d` seconds before the probed end. */
  function FadeOutText(d: nat, lengthMs: int): string {
    "fade=t=out:st=" + DecimalText(lengthMs - 1000 * d) + ":d=" + IntToString(d)
  }

  /** `applyOperation`: the filter string, or the probe's error. */
  function FadeFilter(f: Fade, probe: Probe): (r: Result<Filter>)
    ensures r.Ok? ==> r.value.stream == Video
    ensures f.kind == Out && probe.exitCode == 0 ==>
              r == Ok(Filter(FadeOutText(f.duration, probe.lengthMs), Video))
    ensures f.kind == Both && probe.exitCode == 0 ==>
              r == Ok(Filter(FadeInText(f.duration) + "," + FadeOutText(f.duration, probe.lengthMs), Video))
  {
    if f.kind == In then Ok(Filter(FadeInText(f.duration), Video))
    else
      match VideoLength(probe)
      case Err(e) => Err(e)
      case Ok(len) =>
        if f.kind == Out then Ok(Filter(FadeOutText(f.duration, len), Video))
        else Ok(Filter(FadeInText(f.duration) + "," + FadeOutText(f.duration, len), Video))
  }

  /** A fade-in never runs the probe, so it cannot fail; the other two fail
      exactly when the probe does, with the probe's message. */
  lemma FadeFilterFailsOnlyOnProbe(f: Fade, probe: Probe)
    ensures f.kind == In ==> FadeFilter(f, probe) == Ok(Filter(FadeInText(f.duration), Video))
    ensures f.kind != In ==> (FadeFilter(f, probe).Err? <==> probe.exitCode != 0)
    ensures f.kind != In && probe.exitCode != 0 ==>
              FadeFilter(f, probe) == Err(RuntimeError("Eroare ffprobe: " + probe.stderr))
  {
  }

  /** "both" is the fade-in and the fade-out filters joined by a comma, and
      the two filters are told apart by their `t=` option. */
  lemma BothIsInThenOut(d: nat, probe: Probe)
    requires probe.exitCode == 0
    ensures var both := FadeFilter(Fade(d, Both), probe);
            var fin := FadeFilter(Fade(d, In), probe);
            var fout := FadeFilter(Fade(d, Out), probe);
            both.Ok? && fin.Ok? && fout.Ok? &&
            Split(both.value.text, ',') == [fin.value.text, fout.value.text]
  {
    var a, b := FadeInText(d), FadeOutText(d, probe.lengthMs);
    NoCommaInFades(d, probe.lengthMs);
    SplitAtFirst(a, ',', b);
    SplitWithoutSeparator(b, ',');
    assert a + "," + b == a + [','] + b;
  }

  lemma NoCommaInFades(d: nat, lengthMs: int)
    ensures ',' !in FadeInText(d) && ',' !in FadeOutText(d, lengthMs)
  {
    NoSeparatorInInt(d, ',');
    NoSeparatorInDecimal(lengthMs - 1000 * d, ',');
  }

  /** The fade-in's options read back as type `in`, start 0 and the
      duration. */
  lemma FadeInReadsBack(d: nat)
    ensures var parts := Split(FadeInText(d), ':');
            |parts| == 3 && parts[0] == "fade=t=in" && parts[1] == "st=0" &&
            OptionValue(parts[2], "d").Some? && ParseInt(OptionValue(parts[2], "d").value) == Some(d)
  {
    var ds := "d=" + IntToString(d);
    NoSeparatorInInt(d, ':');
    assert FadeInText(d) == "fade=t=in" + [':'] + "st=0" + [':'] + ds;
    SplitThree("fade=t=in", "st=0", ds, ':');
    OptionValueOf("d", IntToString(d));
    ParseIntOfIntToString(d);
  }

  /** The fade-out's options read back as type `out`, a start time that lies
      exactly the duration before the probed end, and the duration. */
  lemma FadeOutReadsBack(d: nat, lengthMs: int)
    ensures var parts := Split(FadeOutText(d, lengthMs), ':');
            |parts| == 3 && parts[0] == "fade=t=out" &&
            OptionValue(parts[1], "st").Some? && ParseDecimal(OptionValue(parts[1], "st").value) == Some(lengthMs - 1000 * d) &&
            OptionValue(parts[2], "d").Some? && ParseInt(OptionValue(parts[2], "d").value) == Some(d)
  {
    var k := lengthMs - 1000 * d;
    var start, ds := DecimalText(k), IntToString(d);
    FadeOutSplit(d, lengthMs);
    var parts := Split(FadeOutText(d, lengthMs), ':');
    assert parts[1] == "st=" + start && parts[2] == "d=" + ds;
    OptionValueOf("st", start);
    OptionValueOf("d", ds);
    ParseDecimalOfDecimalText(k);
    ParseIntOfIntToString(d);
  }

  lemma FadeOutSplit(d: nat, lengthMs: int)
    ensures Split(FadeOutText(d, lengthMs), ':')
            == ["fade=t=out", "st=" + DecimalText(lengthMs - 1000 * d), "d=" + IntToString(d)]
  {
    NoSeparatorInInt(d, ':');
    NoSeparatorInDecimal(lengthMs - 1000 * d, ':');
    FadeOutOptions(DecimalText(lengthMs - 1000 * d), IntToString(d));
  }

  lemma FadeOutOptions(start: string, ds: string)
    requires ':' !in start && ':' !in ds
    ensures Split("fade=t=out:st=" + start + ":d=" + ds, ':') == ["fade=t=out", "st=" + start, "d=" + ds]
  {
    assert "fade=t=out:st=" + start + ":d=" + ds == "fade=t=out" + [':'] + ("st=" + start) + [':'] + ("d=" + ds);
    SplitThree("fade=t=out", "st=" + start, "d=" + ds, ':');
  }
}
