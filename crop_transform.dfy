/** transformations/crop_transform.py: `CropTransform` clamps its
    parameters in the constructor and emits `crop=W:H:X:Y`. */
module CropTransform {
  import opened Wrappers
  import opened Text
  import opened Ffmpeg

  datatype Crop = Crop(x: int, y: int, width: int, height: int)

  /** The constructor: offsets at least 0, sizes at least 1, values already
      in range kept as given. */
  function NewCrop(x: int, y: int, width: int, height: int): (c: Crop)
    ensures c.x >= 0 && c.y >= 0 && c.width >= 1 && c.height >= 1
    ensures x >= 0 ==> c.x == x
    ensures y >= 0 ==> c.y == y
    ensures width >= 1 ==> c.width == width
    ensures height >= 1 ==> c.height == height
  {
    Crop(if x < 0 then 0 else x, if y < 0 then 0 else y,
         if width < 1 then 1 else width, if height < 1 then 1 else height)
  }

  predicate Clamped(c: Crop) { c.x >= 0 && c.y >= 0 && c.width >= 1 && c.height >= 1 }

  /** Re-constructing from a constructed crop changes nothing. */
  lemma NewCropIdempotent(x: int, y: int, width: int, height: int)
    ensures var c := NewCrop(x, y, width, height);
            NewCrop(c.x, c.y, c.width, c.height) == c
  {
  }

  /** `applyTransformation`: the filter text, sent as a video filter. */
  function CropFilter(c: Crop): (f: Filter)
    ensures f.stream == Video
    ensures StartsWith(f.text, "crop=")
  {
    Filter("crop=" + IntToString(c.width) + ":" + IntToString(c.height) + ":"
           + IntToString(c.x) + ":" + IntToString(c.y), Video)
  }

  /** The filter's arguments read back as width, height, x, y in that order. */
  lemma CropFilterRoundTrip(c: Crop)
    ensures ParseInts(Arguments(CropFilter(c).text, "crop")) == Some([c.width, c.height, c.x, c.y])
  {
    var vs := [c.width, c.height, c.x, c.y];
    var w, h, x, y := IntToString(c.width), IntToString(c.height), IntToString(c.x), IntToString(c.y);
    assert IntStrings(vs) == [w, h, x, y];
    JoinFour(":", w, h, x, y);
    var body := w + ":" + h + ":" + x + ":" + y;
    assert CropFilter(c).text == "crop=" + body;
    assert "crop" + "=" == "crop=";
    IntArgumentsRoundTrip("crop", vs);
  }
}
