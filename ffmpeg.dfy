/** What a filter object hands to the transcoding engine: the filter-chain
    text and whether it goes to `-vf` (video) or `-af` (audio). Also the
    reading side used by the round-trip lemmas: the `:`-separated arguments
    that follow `name=`. */
module Ffmpeg {
  import opened Wrappers
  import opened Text

  datatype Stream = Video | Audio

  datatype Filter = Filter(text: string, stream: Stream)

  /** The `:`-separated argument list of a filter written `name=a:b:...`. */
  function Arguments(text: string, name: string): seq<string>
    requires StartsWith(text, name + "=")
  {
    Split(text[|name| + 1..], ':')
  }

  /** The value of one option written `key=value`, or `None` when the
      option has another key. */
  function OptionValue(option: string, key: string): (r: Option<string>)
    ensures r.Some? <==> StartsWith(option, key + "=")
    ensures r.Some? ==> option == key + "=" + r.value
  {
    if StartsWith(option, key + "=") then
      assert option == option[..|key| + 1] + option[|key| + 1..];
      Some(option[|key| + 1..])
    else None
  }

  lemma OptionValueOf(key: string, value: string)
    ensures OptionValue(key + "=" + value, key) == Some(value)
  {
    var option := key + "=" + value;
    assert option[..|key| + 1] == key + "=";
    assert option[|key| + 1..] == value;
  }

  /** Every part parsed with Python's `int`. */
  function ParseInts(parts: seq<string>): Option<seq<int>> {
    if parts == [] then Some([])
    else
      match (ParseInt(parts[0]), ParseInts(parts[1..]))
      case (Some(v), Some(vs)) => Some([v] + vs)
      case _ => None
  }

  /** `name=` followed by integer arguments joined with `:` reads back as
      exactly those integers. */
  lemma {:induction false} IntArgumentsRoundTrip(name: string, values: seq<int>)
    requires |values| > 0
    ensures StartsWith(name + "=" + Join(":", IntStrings(values)), name + "=")
    ensures Arguments(name + "=" + Join(":", IntStrings(values)), name) == IntStrings(values)
    ensures ParseInts(IntStrings(values)) == Some(values)
  {
    var text := name + "=" + Join(":", IntStrings(values));
    assert text[..|name| + 1] == name + "=";
    assert text[|name| + 1..] == Join(":", IntStrings(values));
    forall i | 0 <= i < |values| ensures ':' !in IntStrings(values)[i] {
      NoSeparatorInInt(values[i], ':');
    }
    SplitJoin(':', IntStrings(values));
    ParseIntsOfIntStrings(values);
  }

  function IntStrings(values: seq<int>): (r: seq<string>)
    ensures |r| == |values|
    ensures forall i :: 0 <= i < |values| ==> r[i] == IntToString(values[i])
  {
    seq(|values|, i requires 0 <= i < |values| => IntToString(values[i]))
  }

  lemma {:induction false} ParseIntsOfIntStrings(values: seq<int>)
    ensures ParseInts(IntStrings(values)) == Some(values)
  {
    if values != [] {
      ParseIntOfIntToString(values[0]);
      assert IntStrings(values)[1..] == IntStrings(values[1..]);
      ParseIntsOfIntStrings(values[1..]);
      assert [values[0]] + values[1..] == values;
    }
  }
}
