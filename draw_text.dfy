/** text_operation/draw_text.py: `DrawText` escapes the text for the
    filter-chain syntax, clamps size and opacity, and emits `drawtext=` with
    `:`-separated options. */
module DrawText {
  import opened Wrappers
  import opened Text
  import opened Ffmpeg

  /** Opacity is kept in thousandths (1000 = 1.0). */
  datatype DrawText = DrawText(text: string, x: int, y: int, font: string, size: int,
                               color: string, opacity: int)

  /** The constructor's `text.replace("'", "\\'").replace(":", "\\:")`. */
  function Escape(s: string): string {
    Replace(Replace(s, '\'', "\\'"), ':', "\\:")
  }

  function EscapeChar(ch: char): string {
    if ch == '\'' then "\\'" else if ch == ':' then "\\:" else [ch]
  }

  lemma EscapeCons(ch: char, rest: string)
    ensures Escape([ch] + rest) == EscapeChar(ch) + Escape(rest)
  {
    assert ([ch] + rest)[1..] == rest;
    var q := Replace([ch] + rest, '\'', "\\'");
    assert q == (if ch == '\'' then "\\'" else [ch]) + Replace(rest, '\'', "\\'");
    ReplaceAppend(if ch == '\'' then "\\'" else [ch], Replace(rest, '\'', "\\'"), ':', "\\:");
    if ch == '\'' {
      assert Replace("\\'", ':', "\\:") == "\\'" by {
        assert "\\'"[1..] == "'";
        assert Replace("'", ':', "\\:") == "'" by { assert "'"[1..] == []; }
      }
    } else {
      assert [ch][1..] == [];
    }
  }

  /** Reading the escaped text back: a backslash before `:` or `'` is dropped. */
  function Unescape(e: string): string
    decreases |e|
  {
    if e == [] then []
    else if |e| >= 2 && e[0] == '\\' && (e[1] == ':' || e[1] == '\'') then [e[1]] + Unescape(e[2..])
    else [e[0]] + Unescape(e[1..])
  }

  lemma {:induction false} EscapeFirstNotSeparator(s: string)
    ensures Escape(s) != [] ==> Escape(s)[0] != ':' && Escape(s)[0] != '\''
  {
    if s != [] {
      assert s == [s[0]] + s[1..];
      EscapeCons(s[0], s[1..]);
    } else {
      assert Escape(s) == [];
    }
  }

  /** Escaping loses nothing: unescaping gives the original text back. */
  lemma {:induction false} UnescapeEscape(s: string)
    ensures Unescape(Escape(s)) == s
  {
    if s == [] {
      assert Escape(s) == [];
    } else {
      var ch, rest := s[0], s[1..];
      assert s == [ch] + rest;
      EscapeCons(ch, rest);
      var e := Escape(s);
      UnescapeEscape(rest);
      if ch == '\'' || ch == ':' {
        assert e == ['\\', ch] + Escape(rest);
        assert e[2..] == Escape(rest);
      } else {
        assert e == [ch] + Escape(rest);
        assert e[1..] == Escape(rest);
        if ch == '\\' && |e| >= 2 {
          EscapeFirstNotSeparator(rest);
          assert e[1] == Escape(rest)[0];
        }
      }
    }
  }

  /** Every `:` and `'` of the escaped text is preceded by a backslash, so
      none of them ends the text option or the option list as `SplitOptions`
      reads them. */
  lemma {:induction false} EscapedSeparatorsArePreceded(s: string)
    ensures var e := Escape(s);
            forall i :: 0 <= i < |e| && (e[i] == ':' || e[i] == '\'') ==> i > 0 && e[i - 1] == '\\'
  {
    if s == [] {
      assert Escape(s) == [];
    } else {
      var ch, rest := s[0], s[1..];
      assert s == [ch] + rest;
      EscapeCons(ch, rest);
      EscapedSeparatorsArePreceded(rest);
      var e, er := Escape(s), Escape(rest);
      var k := |EscapeChar(ch)|;
      assert e == EscapeChar(ch) + er;
      forall i | 0 <= i < |e| && (e[i] == ':' || e[i] == '\'')
        ensures i > 0 && e[i - 1] == '\\'
      {
        if i >= k {
          assert e[i] == er[i - k];
          if i - k == 0 {
            EscapeFirstNotSeparator(rest);
            assert false;
          }
          assert e[i - 1] == er[i - k - 1];
        }
      }
    }
  }

  function ClampSize(size: int): (r: int)
    ensures r >= 1 && (size >= 1 ==> r == size) && (size < 1 ==> r == 1)
  {
    if size < 1 then 1 else size
  }

  /** `max(0.0, min(1.0, opacity))` in thousandths. */
  function ClampOpacity(o: int): (r: int)
    ensures 0 <= r <= 1000
    ensures 0 <= o <= 1000 ==> r == o
    ensures o < 0 ==> r == 0
    ensures o > 1000 ==> r == 1000
  {
    if o < 0 then 0 else if o > 1000 then 1000 else o
  }

  /** The constructor. */
  function NewDrawText(text: string, x: int, y: int, font: string, size: int,
                       color: string, opacity: int): (d: DrawText)
    ensures d.size >= 1 && 0 <= d.opacity <= 1000
    ensures d.size == ClampSize(size) && d.opacity == ClampOpacity(opacity)
    ensures d.text == Escape(text) && Unescape(d.text) == text
    ensures d.font == font && d.color == color && d.x == x && d.y == y
  {
    UnescapeEscape(text);
    DrawText(Escape(text), x, y, font, ClampSize(size), color, ClampOpacity(opacity))
  }

  /** The option list; `font=` comes last and only for a non-empty font. */
  function DrawTextParts(d: DrawText): (parts: seq<string>)
    ensures |parts| == (if d.font == "" then 5 else 6)
    ensures parts[0] == "text='" + d.text + "'"
    ensures parts[1] == "x=" + IntToString(d.x) && parts[2] == "y=" + IntToString(d.y)
    ensures parts[3] == "fontsize=" + IntToString(d.size)
    ensures parts[4] == "fontcolor=" + d.color + "@" + DecimalText(d.opacity)
    ensures d.font != "" ==> parts[5] == "font=" + d.font
  {
    ["text='" + d.text + "'",
     "x=" + IntToString(d.x),
     "y=" + IntToString(d.y),
     "fontsize=" + IntToString(d.size),
     "fontcolor=" + d.color + "@" + DecimalText(d.opacity)]
    + (if d.font != "" then ["font=" + d.font] else [])
  }

  function DrawTextFilter(d: DrawText): (f: Filter)
    ensures f.stream == Video && StartsWith(f.text, "drawtext=")
  {
    Filter("drawtext=" + Join(":", DrawTextParts(d)), Video)
  }

  // ---------------------------------------------------------------------
  // Reading the option list back

  /** How the filter's option list is read: `:` separates options unless a
      backslash escapes it; a backslash stays in the option together with
      the character it escapes. */
  function SplitOptions(s: string): (r: seq<string>)
    ensures |r| >= 1
    decreases |s|
  {
    if s == [] then [""]
    else if s[0] == '\\' && |s| >= 2 then
      var rest := SplitOptions(s[2..]);
      [s[..2] + rest[0]] + rest[1..]
    else if s[0] == ':' then [""] + SplitOptions(s[1..])
    else
      var rest := SplitOptions(s[1..]);
      [[s[0]] + rest[0]] + rest[1..]
  }

  /** Text that stays inside one option: every backslash escapes the
      character after it and no `:` stands alone. */
  predicate Plain(s: string)
    decreases |s|
  {
    if s == [] then true
    else if s[0] == '\\' then |s| >= 2 && Plain(s[2..])
    else s[0] != ':' && Plain(s[1..])
  }

  lemma {:induction false} PlainWithoutSpecials(s: string)
    requires ':' !in s && '\\' !in s
    ensures Plain(s)
    decreases |s|
  {
    if s != [] {
      PlainWithoutSpecials(s[1..]);
    }
  }

  lemma {:induction false} PlainAppend(a: string, b: string)
    requires Plain(a) && Plain(b)
    ensures Plain(a + b)
    decreases |a|
  {
    if a == [] {
      assert a + b == b;
    } else if a[0] == '\\' {
      PlainAppend(a[2..], b);
      assert (a + b)[2..] == a[2..] + b;
    } else {
      PlainAppend(a[1..], b);
      assert (a + b)[1..] == a[1..] + b;
    }
  }

  /** The escaped text of a text without backslashes stays inside its option. */
  lemma {:induction false} PlainEscape(s: string)
    requires '\\' !in s
    ensures Plain(Escape(s))
  {
    if s == [] {
      assert Escape(s) == [];
    } else {
      var ch, rest := s[0], s[1..];
      assert s == [ch] + rest;
      EscapeCons(ch, rest);
      PlainEscape(rest);
      var e := EscapeChar(ch);
      if ch == '\'' || ch == ':' {
        assert e[2..] == [];
      } else {
        assert e[1..] == [];
      }
      PlainAppend(e, Escape(rest));
    }
  }

  lemma {:induction false} SplitOptionsPlainPrefix(p: string, t: string)
    requires Plain(p)
    ensures SplitOptions(p + t) == [p + SplitOptions(t)[0]] + SplitOptions(t)[1..]
    decreases |p|
  {
    var rest := SplitOptions(t);
    if p == [] {
      assert p + t == t;
      assert p + rest[0] == rest[0];
      assert [rest[0]] + rest[1..] == rest;
    } else if p[0] == '\\' {
      assert (p + t)[2..] == p[2..] + t;
      assert (p + t)[..2] == p[..2];
      SplitOptionsPlainPrefix(p[2..], t);
      assert p[..2] + (p[2..] + rest[0]) == p + rest[0];
    } else {
      assert (p + t)[1..] == p[1..] + t;
      SplitOptionsPlainPrefix(p[1..], t);
      assert [p[0]] + (p[1..] + rest[0]) == p + rest[0];
    }
  }

  /** Joining options that each stay inside one option with `:` and
      reading the list back gives the options. */
  lemma {:induction false} SplitOptionsJoin(parts: seq<string>)
    requires |parts| > 0
    requires forall i :: 0 <= i < |parts| ==> Plain(parts[i])
    ensures SplitOptions(Join(":", parts)) == parts
  {
    if |parts| == 1 {
      SplitOptionsPlainPrefix(parts[0], "");
      assert parts[0] + "" == parts[0];
    } else {
      var tail := Join(":", parts[1..]);
      SplitOptionsJoin(parts[1..]);
      assert (":" + tail)[1..] == tail;
      assert SplitOptions(":" + tail) == [""] + parts[1..];
      assert Join(":", parts) == parts[0] + (":" + tail);
      SplitOptionsPlainPrefix(parts[0], ":" + tail);
      assert parts[0] + "" == parts[0];
    }
  }

  /** The text of a `text='...'` option with the escapes removed. */
  function TextOption(option: string): Option<string> {
    match OptionValue(option, "text")
    case Some(v) =>
      if |v| >= 2 && v[0] == '\'' && v[|v| - 1] == '\'' then Some(Unescape(v[1..|v| - 1])) else None
    case None => None
  }

  /** An integer option `key=n` read with Python's `int`. */
  function IntOption(option: string, key: string): Option<int> {
    match OptionValue(option, key)
    case Some(v) => ParseInt(v)
    case None => None
  }

  /** A `fontcolor=colour@opacity` option, the opacity in thousandths. */
  function ColorOption(option: string): Option<(string, int)> {
    match OptionValue(option, "fontcolor")
    case Some(v) =>
      var halves := Split(v, '@');
      if |halves| == 2 then
        match ParseDecimal(halves[1])
        case Some(o) => Some((halves[0], o))
        case None => None
      else None
    case None => None
  }

  lemma TextOptionOf(text: string)
    ensures TextOption("text='" + Escape(text) + "'") == Some(text)
  {
    var v := "'" + Escape(text) + "'";
    assert "text='" + Escape(text) + "'" == "text" + "=" + v;
    OptionValueOf("text", v);
    assert v[1..|v| - 1] == Escape(text);
    UnescapeEscape(text);
  }

  lemma IntOptionOf(key: string, n: int)
    ensures IntOption(key + "=" + IntToString(n), key) == Some(n)
  {
    OptionValueOf(key, IntToString(n));
    ParseIntOfIntToString(n);
  }

  lemma ColorOptionOf(color: string, opacity: int)
    requires '@' !in color
    ensures ColorOption("fontcolor=" + color + "@" + DecimalText(opacity)) == Some((color, opacity))
  {
    var v := color + "@" + DecimalText(opacity);
    assert "fontcolor=" + color + "@" + DecimalText(opacity) == "fontcolor" + "=" + v;
    OptionValueOf("fontcolor", v);
    NoSeparatorInDecimal(opacity, '@');
    SplitAtFirst(color, '@', DecimalText(opacity));
    SplitWithoutSeparator(DecimalText(opacity), '@');
    assert v == color + ['@'] + DecimalText(opacity);
    ParseDecimalOfDecimalText(opacity);
  }

  lemma PlainTextOption(text: string)
    requires '\\' !in text
    ensures Plain("text='" + Escape(text) + "'")
  {
    PlainEscape(text);
    PlainWithoutSpecials("text='");
    PlainWithoutSpecials("'");
    PlainAppend("text='", Escape(text));
    PlainAppend("text='" + Escape(text), "'");
  }

  lemma PlainIntOption(key: string, n: int)
    requires ':' !in key && '\\' !in key
    ensures Plain(key + "=" + IntToString(n))
  {
    NoSeparatorInInt(n, ':');
    NoSeparatorInInt(n, '\\');
    PlainWithoutSpecials(key + "=" + IntToString(n));
  }

  lemma PlainColorOption(color: string, opacity: int)
    requires ':' !in color && '\\' !in color
    ensures Plain("fontcolor=" + color + "@" + DecimalText(opacity))
  {
    NoSeparatorInDecimal(opacity, ':');
    NoSeparatorInDecimal(opacity, '\\');
    PlainWithoutSpecials("fontcolor=" + color + "@" + DecimalText(opacity));
  }

  /** Every option of a drawtext built from a text without backslashes and
      a colour and font without `:` or backslashes stays inside its option. */
  lemma PartsArePlain(d: DrawText, text: string)
    requires d.text == Escape(text) && '\\' !in text
    requires ':' !in d.color && '\\' !in d.color && ':' !in d.font && '\\' !in d.font
    ensures forall i :: 0 <= i < |DrawTextParts(d)| ==> Plain(DrawTextParts(d)[i])
  {
    var parts := DrawTextParts(d);
    forall i | 0 <= i < |parts| ensures Plain(parts[i]) {
      if i == 0 {
        PlainTextOption(text);
      } else if i == 1 {
        assert "x" + "=" == "x=";
        PlainIntOption("x", d.x);
      } else if i == 2 {
        assert "y" + "=" == "y=";
        PlainIntOption("y", d.y);
      } else if i == 3 {
        assert "fontsize" + "=" == "fontsize=";
        PlainIntOption("fontsize", d.size);
      } else if i == 4 {
        PlainColorOption(d.color, d.opacity);
      } else {
        PlainWithoutSpecials("font=" + d.font);
      }
    }
  }

  /** The filter reads back as what was asked for: its option list splits
      into exactly the parts, the text unescapes to the original, the
      position and the clamped size parse back, the colour and the clamped
      opacity read back, and the font comes last when there is one. */
  lemma DrawTextRoundTrip(text: string, x: int, y: int, font: string, size: int, color: string, opacity: int)
    requires '\\' !in text
    requires ':' !in color && '\\' !in color && '@' !in color
    requires ':' !in font && '\\' !in font
    ensures var d := NewDrawText(text, x, y, font, size, color, opacity);
            var v := OptionValue(DrawTextFilter(d).text, "drawtext");
            v.Some? && SplitOptions(v.value) == DrawTextParts(d)
    ensures var opts := DrawTextParts(NewDrawText(text, x, y, font, size, color, opacity));
            TextOption(opts[0]) == Some(text) &&
            IntOption(opts[1], "x") == Some(x) && IntOption(opts[2], "y") == Some(y) &&
            IntOption(opts[3], "fontsize") == Some(ClampSize(size)) &&
            ColorOption(opts[4]) == Some((color, ClampOpacity(opacity))) &&
            (font != "" <==> |opts| == 6) &&
            (font != "" ==> OptionValue(opts[5], "font") == Some(font))
  {
    var d := NewDrawText(text, x, y, font, size, color, opacity);
    FilterSplitsIntoParts(d, text);
    PartsReadBack(d, text, opacity);
  }

  lemma FilterSplitsIntoParts(d: DrawText, text: string)
    requires d.text == Escape(text) && '\\' !in text
    requires ':' !in d.color && '\\' !in d.color && ':' !in d.font && '\\' !in d.font
    ensures var v := OptionValue(DrawTextFilter(d).text, "drawtext");
            v.Some? && SplitOptions(v.value) == DrawTextParts(d)
  {
    var parts := DrawTextParts(d);
    PartsArePlain(d, text);
    SplitOptionsJoin(parts);
    OptionValueOf("drawtext", Join(":", parts));
  }

  lemma PartsReadBack(d: DrawText, text: string, opacity: int)
    requires d.text == Escape(text) && '@' !in d.color && d.opacity == ClampOpacity(opacity)
    ensures var opts := DrawTextParts(d);
            TextOption(opts[0]) == Some(text) &&
            IntOption(opts[1], "x") == Some(d.x) && IntOption(opts[2], "y") == Some(d.y) &&
            IntOption(opts[3], "fontsize") == Some(d.size) &&
            ColorOption(opts[4]) == Some((d.color, ClampOpacity(opacity))) &&
            (d.font != "" <==> |opts| == 6) &&
            (d.font != "" ==> OptionValue(opts[5], "font") == Some(d.font))
  {
    TextPartReadsBack(d, text);
    NumberPartsReadBack(d);
    ColorPartReadsBack(d);
    if d.font != "" {
      assert "font" + "=" == "font=";
      OptionValueOf("font", d.font);
    }
  }

  lemma TextPartReadsBack(d: DrawText, text: string)
    requires d.text == Escape(text)
    ensures TextOption(DrawTextParts(d)[0]) == Some(text)
  {
    TextOptionOf(text);
  }

  lemma NumberPartsReadBack(d: DrawText)
    ensures var opts := DrawTextParts(d);
            IntOption(opts[1], "x") == Some(d.x) && IntOption(opts[2], "y") == Some(d.y) &&
            IntOption(opts[3], "fontsize") == Some(d.size)
  {
    assert "x" + "=" == "x=";
    IntOptionOf("x", d.x);
    assert "y" + "=" == "y=";
    IntOptionOf("y", d.y);
    assert "fontsize" + "=" == "fontsize=";
    IntOptionOf("fontsize", d.size);
  }

  lemma ColorPartReadsBack(d: DrawText)
    requires '@' !in d.color
    ensures ColorOption(DrawTextParts(d)[4]) == Some((d.color, d.opacity))
  {
    ColorOptionOf(d.color, d.opacity);
  }
}
