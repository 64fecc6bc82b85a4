/**
 * The name under which the annotated final stage is written after every
 * pipeline run: "output_contours_" + the wall-clock time formatted with
 * `strftime("%Y%m%d_%H%M%S")` + ".jpg". The clock is an input here (a
 * `Timestamp` record) and the disk write itself is not modelled.
 */
module Exporter {
  import opened Wrappers
  import opened Numerals

  /** A `datetime` truncated to the second, as `strftime` sees it. */
  datatype Timestamp = Timestamp(year: nat, month: nat, day: nat, hour: nat, minute: nat, second: nat)

  /** The ranges Python's `datetime` guarantees for its fields. */
  predicate ValidTimestamp(t: Timestamp) {
    1 <= t.year <= 9999 && 1 <= t.month <= 12 && 1 <= t.day <= 31 &&
    t.hour < 24 && t.minute < 60 && t.second < 60
  }

  const Prefix: string := "output_contours_"
  const Suffix: string := ".jpg"

  /** `%Y%m%d`: the date in eight digits. */
  function DatePart(t: Timestamp): (s: string)
    requires ValidTimestamp(t)
    ensures |s| == 8 && AllDigits(s)
  {
    Padded(t.year, 4) + Padded(t.month, 2) + Padded(t.day, 2)
  }

  /** `%H%M%S`: the time of day in six digits. */
  function TimePart(t: Timestamp): (s: string)
    requires ValidTimestamp(t)
    ensures |s| == 6 && AllDigits(s)
  {
    Padded(t.hour, 2) + Padded(t.minute, 2) + Padded(t.second, 2)
  }

  /** `strftime("%Y%m%d_%H%M%S")`: fifteen characters, every field zero-padded. */
  function Stamp(t: Timestamp): (s: string)
    requires ValidTimestamp(t)
    ensures |s| == 15 && s[8] == '_'
    ensures AllDigits(s[..8]) && AllDigits(s[9..])
  {
    var s := DatePart(t) + "_" + TimePart(t);
    assert s[..8] == DatePart(t) && s[9..] == TimePart(t);
    s
  }

  /** The export filename built from the time of the run. */
  function OutputPath(t: Timestamp): (path: string)
    requires ValidTimestamp(t)
    ensures |path| == |Prefix| + 15 + |Suffix|
    ensures path[..|Prefix|] == Prefix && path[|path| - |Suffix|..] == Suffix
  {
    Prefix + Stamp(t) + Suffix
  }

  /** The number written in `s[i..j]`, when that slice is all digits. */
  function FieldAt(s: string, i: nat, j: nat): Option<nat>
    requires i <= j <= |s|
  {
    if AllDigits(s[i..j]) then Some(DigitsValue(s[i..j])) else None
  }

  /** Three numbers written one after the other in widths `w1`, `w2` and the rest of `s`. */
  function ThreeFields(s: string, w1: nat, w2: nat): Option<(nat, nat, nat)>
    requires w1 + w2 <= |s|
  {
    var a, b, c := FieldAt(s, 0, w1), FieldAt(s, w1, w1 + w2), FieldAt(s, w1 + w2, |s|);
    if a.None? || b.None? || c.None? then None else Some((a.value, b.value, c.value))
  }

  /** Reads a `strftime("%Y%m%d_%H%M%S")` stamp back; `None` for anything else. */
  function ParseStamp(s: string): Option<Timestamp> {
    if |s| != 15 || s[8] != '_' then None
    else
      var date, time := ThreeFields(s[..8], 4, 2), ThreeFields(s[9..], 2, 2);
      if date.None? || time.None? then None
      else Some(Timestamp(date.value.0, date.value.1, date.value.2, time.value.0, time.value.1, time.value.2))
  }

  /**
   * Recovers the timestamp from an export filename; `None` for any string that
   * is not "output_contours_YYYYMMDD_HHMMSS.jpg".
   */
  function ParseOutputPath(path: string): Option<Timestamp> {
    if |path| != |Prefix| + 15 + |Suffix| || path[..|Prefix|] != Prefix ||
       path[|Prefix| + 15..] != Suffix then None
    else ParseStamp(path[|Prefix|..|Prefix| + 15])
  }

  /** Where each of three concatenated strings sits in the result. */
  lemma ConcatSlices(a: string, b: string, c: string)
    ensures var s := a + b + c;
            s[0..|a|] == a && s[|a|..|a| + |b|] == b && s[|a| + |b|..|s|] == c
  {
  }

  /** Three digit strings written one after the other are read back in order. */
  lemma ThreeFieldsOfDigits(a: string, b: string, c: string)
    requires AllDigits(a) && AllDigits(b) && AllDigits(c)
    ensures ThreeFields(a + b + c, |a|, |b|) == Some((DigitsValue(a), DigitsValue(b), DigitsValue(c)))
  {
    ConcatSlices(a, b, c);
  }

  /** Three zero-padded fields written one after the other are read back in order. */
  lemma ThreeFieldsRoundTrip(x: nat, w1: nat, y: nat, w2: nat, z: nat, w3: nat)
    requires x < Pow10(w1) && y < Pow10(w2) && z < Pow10(w3)
    ensures ThreeFields(Padded(x, w1) + Padded(y, w2) + Padded(z, w3), w1, w2) == Some((x, y, z))
  {
    ThreeFieldsOfDigits(Padded(x, w1), Padded(y, w2), Padded(z, w3));
    PaddedRoundTrip(x, w1);
    PaddedRoundTrip(y, w2);
    PaddedRoundTrip(z, w3);
  }

  /** Each field of the stamp can be read back from its fixed position. */
  lemma StampRoundTrip(t: Timestamp)
    requires ValidTimestamp(t)
    ensures ParseStamp(Stamp(t)) == Some(t)
  {
    var s := Stamp(t);
    assert s[..8] == DatePart(t) && s[9..] == TimePart(t);
    ThreeFieldsRoundTrip(t.year, 4, t.month, 2, t.day, 2);
    ThreeFieldsRoundTrip(t.hour, 2, t.minute, 2, t.second, 2);
  }

  /** The filename carries the whole timestamp: reading it back gives the time of the run. */
  lemma OutputPathRoundTrip(t: Timestamp)
    requires ValidTimestamp(t)
    ensures ParseOutputPath(OutputPath(t)) == Some(t)
  {
    var path := OutputPath(t);
    assert path[|Prefix|..|Prefix| + 15] == Stamp(t);
    assert path[|Prefix| + 15..] == Suffix;
    StampRoundTrip(t);
  }

  /** Two runs at different seconds export under different names. */
  lemma OutputPathInjective(t1: Timestamp, t2: Timestamp)
    requires ValidTimestamp(t1) && ValidTimestamp(t2)
    ensures OutputPath(t1) == OutputPath(t2) <==> t1 == t2
  {
    OutputPathRoundTrip(t1);
    OutputPathRoundTrip(t2);
  }
}
