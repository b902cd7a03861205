/** Splitting a Telegram text into segments (src/eva_ai/notifications/service.py). Telegram counts UTF-16
    code units: two for a character above U+FFFF (section 2.1 of RFC 2781), one for any other. */
module TextSplitter {
  const SEGMENT_UNITS: nat := 4000

  function Width(c: char): (w: nat) {
    if c as int < 0x1_0000 then 1 else 2
  }

  function Units(s: string): nat {
    if s == "" then 0 else Units(s[..|s| - 1]) + Width(s[|s| - 1])
  }

  function Concat(segments: seq<string>): string {
    if segments == [] then "" else Concat(segments[..|segments| - 1]) + segments[|segments| - 1]
  }

  predicate WithinBound(segments: seq<string>) {
    forall i :: 0 <= i < |segments| ==> Units(segments[i]) <= SEGMENT_UNITS
  }

  predicate NoneEmpty(segments: seq<string>) {
    forall i :: 0 <= i < |segments| ==> segments[i] != ""
  }

  /** No segment could have taken the first character of the next one. */
  predicate Full(segments: seq<string>) {
    forall i :: 0 < i < |segments| ==> Overflows(segments, i)
  }

  predicate Overflows(segments: seq<string>, i: nat)
    requires 0 < i < |segments|
  {
    segments[i] != "" && Units(segments[i - 1] + [segments[i][0]]) > SEGMENT_UNITS
  }

  // ----- Counting units -------------------------------------------------------------------------------

  lemma {:induction false} UnitsConcat(s: string, t: string)
    ensures Units(s + t) == Units(s) + Units(t)
    decreases |t|
  {
    if t == "" {
      assert s + t == s;
    } else {
      assert (s + t)[..|s + t| - 1] == s + t[..|t| - 1];
      UnitsConcat(s, t[..|t| - 1]);
    }
  }

  /** A wider slice counts no fewer units. */
  lemma UnitsOfSlice(s: string, a: nat, b: nat, c: nat, d: nat)
    requires c <= a <= b <= d <= |s|
    ensures Units(s[a..b]) <= Units(s[c..d])
  {
    assert s[c..b] == s[c..a] + s[a..b];
    UnitsConcat(s[c..a], s[a..b]);
    assert s[c..d] == s[c..b] + s[b..d];
    UnitsConcat(s[c..b], s[b..d]);
  }

  // ----- Fewest segments --------------------------------------------------------------------------------

  lemma ConcatTake(segments: seq<string>, k: nat)
    requires k < |segments|
    ensures Concat(segments[..k + 1]) == Concat(segments[..k]) + segments[k]
  {
    assert segments[..k + 1][..k] == segments[..k];
  }

  lemma {:induction false} ConcatPrefix(segments: seq<string>, k: nat)
    requires k <= |segments|
    ensures Concat(segments[..k]) <= Concat(segments)
    decreases |segments| - k
  {
    if k == |segments| {
      assert segments[..k] == segments;
    } else {
      ConcatTake(segments, k);
      ConcatPrefix(segments, k + 1);
    }
  }

  /** Where the `k`-th segment ends in the text. */
  function End(segments: seq<string>, k: nat): nat
    requires k <= |segments|
  {
    |Concat(segments[..k])|
  }

  /** Segment `k` is the slice of the text between its ends. */
  lemma SegmentIsSlice(segments: seq<string>, k: nat)
    requires k < |segments|
    ensures End(segments, k) + |segments[k]| == End(segments, k + 1) <= |Concat(segments)|
    ensures Concat(segments)[End(segments, k)..End(segments, k + 1)] == segments[k]
  {
    ConcatTake(segments, k);
    ConcatPrefix(segments, k + 1);
    assert Concat(segments)[..End(segments, k + 1)] == Concat(segments[..k + 1]);
  }

  /** A full segment and the next character do not fit. */
  lemma FullOverflows(full: seq<string>, k: nat)
    requires Full(full) && 0 < k < |full|
    ensures End(full, k - 1) <= End(full, k) < |Concat(full)|
    ensures Units(Concat(full)[End(full, k - 1)..End(full, k) + 1]) > SEGMENT_UNITS
  {
    assert Overflows(full, k);
    var text, a, b := Concat(full), End(full, k - 1), End(full, k);
    SegmentIsSlice(full, k - 1);
    SegmentIsSlice(full, k);
    assert text[b] == text[b..End(full, k + 1)][0] == full[k][0];
    assert text[a..b + 1] == text[a..b] + [text[b]];
  }

  /** However another split goes, its first `k` segments reach no further than the full ones. */
  lemma {:induction false} FullReachesFurthest(full: seq<string>, other: seq<string>, k: nat)
    requires Full(full) && WithinBound(other) && Concat(full) == Concat(other)
    requires k <= |other| && k < |full|
    ensures End(other, k) <= End(full, k)
    decreases k
  {
    if k > 0 {
      FullReachesFurthest(full, other, k - 1);
      FullOverflows(full, k);
      SegmentIsSlice(other, k - 1);
      if End(full, k) < End(other, k) {
        UnitsOfSlice(Concat(full), End(full, k - 1), End(full, k) + 1, End(other, k - 1), End(other, k));
      }
    }
  }

  lemma FullIsFewest(full: seq<string>, other: seq<string>)
    requires full != [] && Full(full) && NoneEmpty(full) && WithinBound(other) && Concat(full) == Concat(other)
    ensures |full| <= |other|
  {
    if |other| < |full| {
      FullReachesFurthest(full, other, |other|);
      assert other[..|other|] == other;
      SegmentIsSlice(full, |other|);
    }
  }

  // ----- The splitter -----------------------------------------------------------------------------------

  lemma Append(segments: seq<string>, s: string)
    requires Full(segments) && WithinBound(segments) && s != "" && Units(s) <= SEGMENT_UNITS
    requires segments != [] ==> Units(segments[|segments| - 1] + [s[0]]) > SEGMENT_UNITS
    ensures Full(segments + [s]) && WithinBound(segments + [s]) && Concat(segments + [s]) == Concat(segments) + s
  {
    var more := segments + [s];
    assert more[..|segments|] == segments;
    forall i | 0 < i < |more|
      ensures Overflows(more, i)
    {
      if i < |segments| {
        assert Overflows(segments, i);
      }
    }
  }

  lemma OneMore(s: string, start: nat, index: nat)
    requires start <= index < |s|
    ensures Units(s[start..index + 1]) == Units(s[start..index]) + Width(s[index])
    ensures Units(s[start..index] + [s[index]]) == Units(s[start..index]) + Width(s[index])
    ensures start == index ==> Units(s[start..index]) == 0
  {
    assert start == index ==> s[start..index] == "";
    assert s[start..index + 1] == s[start..index] + [s[index]];
    assert (s[start..index] + [s[index]])[..index - start] == s[start..index];
  }

  /** What has been cut off so far, with a segment from `start` being filled. */
  predicate Cut(value: string, segments: seq<string>, start: nat)
    requires start <= |value|
  {
    && Concat(segments) == value[..start]
    && WithinBound(segments) && NoneEmpty(segments) && Full(segments)
    && (segments != [] ==> start < |value| && Units(segments[|segments| - 1] + [value[start]]) > SEGMENT_UNITS)
  }

  lemma NothingCut(value: string)
    ensures Cut(value, [], 0) && Units(value[0..0]) == 0
    ensures Concat([""]) == "" && WithinBound([""])
  {
    assert [""][..0] == [] && value[0..0] == "";
  }

  lemma CutOne(value: string, segments: seq<string>, start: nat, end: nat)
    requires start < end <= |value| && Cut(value, segments, start) && Units(value[start..end]) <= SEGMENT_UNITS
    ensures var more := segments + [value[start..end]];
            && Concat(more) == value[..end] && WithinBound(more) && NoneEmpty(more) && Full(more)
            && (end < |value| && Units(value[start..end] + [value[end]]) > SEGMENT_UNITS ==> Cut(value, more, end))
  {
    Append(segments, value[start..end]);
    assert value[..end] == value[..start] + value[start..end];
  }

  /** The last segment completes a split no other can beat. */
  lemma CutLast(value: string, segments: seq<string>, start: nat)
    requires start < |value| && Cut(value, segments, start) && Units(value[start..]) <= SEGMENT_UNITS
    ensures var more := segments + [value[start..]];
            Concat(more) == value && WithinBound(more) && NoneEmpty(more) && Full(more) && Fewest(value, more)
  {
    assert value[start..|value|] == value[start..] && value[..|value|] == value;
    CutOne(value, segments, start, |value|);
    FullIsFewestOfAll(value, segments + [value[start..]]);
  }

  /** No other split within the bound uses fewer segments. */
  ghost predicate Fewest(value: string, segments: seq<string>) {
    forall other: seq<string> :: Concat(other) == value && WithinBound(other) ==> |segments| <= |other|
  }

  lemma FullIsFewestOfAll(value: string, full: seq<string>)
    requires full != [] && Full(full) && NoneEmpty(full) && Concat(full) == value
    ensures Fewest(value, full)
  {
    forall other: seq<string> | Concat(other) == value && WithinBound(other)
      ensures |full| <= |other|
    {
      FullIsFewest(full, other);
    }
  }

  /** The loop over the characters, with `start` and `units` of the segment being filled. */
  method SplitTelegramText(value: string) returns (segments: seq<string>)
    ensures Concat(segments) == value && WithinBound(segments)
    ensures if value == "" then segments == [""] else NoneEmpty(segments) && Fewest(value, segments)
  {
    segments := [];
    var start, units := 0, 0;
    NothingCut(value);
    for index := 0 to |value|
      invariant start <= index && (index > 0 ==> start < index)
      invariant Cut(value, segments, start)
      invariant units == Units(value[start..index]) <= SEGMENT_UNITS
    {
      var width := Width(value[index]);
      OneMore(value, start, index);
      if units + width > SEGMENT_UNITS {
        CutOne(value, segments, start, index);
        segments := segments + [value[start..index]];
        start := index;
        units := 0;
        OneMore(value, start, index);
      }
      units := units + width;
    }
    assert value[start..|value|] == value[start..];
    if value == "" {
      assert value[start..] == "";
    } else {
      CutLast(value, segments, start);
    }
    segments := segments + [value[start..]];
  }
}
