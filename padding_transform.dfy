/** transformations/padding_transform.py: `PaddingTransform` clamps every
    side to at least 0 and emits `pad=iw+L+R:ih+T+B:L:T:color`. */
module PaddingTransform {
  import opened Wrappers
  import opened Text
  import opened Ffmpeg

  datatype Padding = Padding(top: int, bottom: int, left: int, right: int, color: string)

  function ClampSide(v: int): (r: int)
    ensures r >= 0
    ensures v >= 0 ==> r == v
    ensures v < 0 ==> r == 0
  {
    if v < 0 then 0 else v
  }

  /** The constructor: sides clamped, colour passed through unchanged. */
  function NewPadding(top: int, bottom: int, left: int, right: int, color: string): (p: Padding)
    ensures p.top >= 0 && p.bottom >= 0 && p.left >= 0 && p.right >= 0
    ensures p.top == ClampSide(top) && p.bottom == ClampSide(bottom)
    ensures p.left == ClampSide(left) && p.right == ClampSide(right)
    ensures p.color == color
  {
    Padding(ClampSide(top), ClampSide(bottom), ClampSide(left), ClampSide(right), color)
  }

  function PadFilter(p: Padding): (f: Filter)
    ensures f.stream == Video && StartsWith(f.text, "pad=")
  {
    var widthExpr := "iw+" + IntToString(p.left) + "+" + IntToString(p.right);
    var heightExpr := "ih+" + IntToString(p.top) + "+" + IntToString(p.bottom);
    var xExpr := IntToString(p.left);
    var yExpr := IntToString(p.top);
    Filter("pad=" + widthExpr + ":" + heightExpr + ":" + xExpr + ":" + yExpr + ":" + p.color, Video)
  }

  lemma PlusSplit(head: string, a: int, b: int)
    requires a >= 0 && b >= 0 && '+' !in head
    ensures Split(head + "+" + IntToString(a) + "+" + IntToString(b), '+')
            == [head, IntToString(a), IntToString(b)]
  {
    var sa, sb := IntToString(a), IntToString(b);
    NoSeparatorInInt(a, '+');
    NoSeparatorInInt(b, '+');
    assert [head, sa, sb][1..] == [sa, sb];
    JoinTwo("+", sa, sb);
    assert Join("+", [head, sa, sb]) == head + "+" + sa + "+" + sb;
    SplitJoin('+', [head, sa, sb]);
  }

  function PadParts(p: Padding): seq<string> {
    ["iw+" + IntToString(p.left) + "+" + IntToString(p.right),
     "ih+" + IntToString(p.top) + "+" + IntToString(p.bottom),
     IntToString(p.left), IntToString(p.top), p.color]
  }

  lemma PadTextIsJoin(p: Padding)
    ensures PadFilter(p).text == "pad=" + Join(":", PadParts(p))
  {
    var parts := PadParts(p);
    var we, he, l, t := parts[0], parts[1], parts[2], parts[3];
    assert parts[1..] == [he, l, t, p.color];
    JoinFour(":", he, l, t, p.color);
    calc {
      "pad=" + Join(":", parts);
      "pad=" + (we + ":" + (he + ":" + l + ":" + t + ":" + p.color));
      "pad=" + we + ":" + he + ":" + l + ":" + t + ":" + p.color;
    }
  }

  lemma PadArguments(p: Padding)
    requires p.top >= 0 && p.bottom >= 0 && p.left >= 0 && p.right >= 0
    requires ':' !in p.color
    ensures Arguments(PadFilter(p).text, "pad") == PadParts(p)
  {
    var parts := PadParts(p);
    NoSeparatorInInt(p.left, ':');
    NoSeparatorInInt(p.right, ':');
    NoSeparatorInInt(p.top, ':');
    NoSeparatorInInt(p.bottom, ':');
    assert ':' !in parts[0] && ':' !in parts[1];
    PadTextIsJoin(p);
    var text := PadFilter(p).text;
    assert text[|"pad"| + 1..] == Join(":", parts);
    SplitJoin(':', parts);
  }

  /** For a colour without `:`, the filter reads back as: output width
      `iw` plus left plus right, output height `ih` plus top plus bottom,
      the frame placed at (left, top), then the colour. */
  lemma PadFilterRoundTrip(p: Padding)
    requires p.top >= 0 && p.bottom >= 0 && p.left >= 0 && p.right >= 0
    requires ':' !in p.color
    ensures var args := Arguments(PadFilter(p).text, "pad");
            |args| == 5 &&
            Split(args[0], '+') == ["iw", IntToString(p.left), IntToString(p.right)] &&
            Split(args[1], '+') == ["ih", IntToString(p.top), IntToString(p.bottom)] &&
            ParseInt(args[2]) == Some(p.left) && ParseInt(args[3]) == Some(p.top) &&
            args[4] == p.color
  {
    PadArguments(p);
    assert PadParts(p)[0] == "iw" + "+" + IntToString(p.left) + "+" + IntToString(p.right);
    assert PadParts(p)[1] == "ih" + "+" + IntToString(p.top) + "+" + IntToString(p.bottom);
    PlusSplit("iw", p.left, p.right);
    PlusSplit("ih", p.top, p.bottom);
    ParseIntOfIntToString(p.left);
    ParseIntOfIntToString(p.top);
  }
}
