/** The now-playing title built from an ICY `StreamTitle` value (TrackTitle.swift). */
module TrackTitles {

  /** What the player shows: the part before the first separator and the rest. */
  datatype TrackTitle = TrackTitle(title: string, subtitle: string)

  /** The separator `makeFrom` splits on. */
  const Separator: char := '-'

  /** `makeEmpty()`: the title shown before any metadata has arrived. */
  function MakeEmpty(): (t: TrackTitle)
    ensures t.title == "" && t.subtitle == ""
  {
    TrackTitle("", "")
  }

  /** Position of the first separator in `s`. */
  function FirstSeparator(s: string): (i: nat)
    requires Separator in s
    ensures i < |s| && s[i] == Separator && Separator !in s[..i]
  {
    if s[0] == Separator then 0
    else
      var j := FirstSeparator(s[1..]);
      assert s[..j + 1] == [s[0]] + s[1..][..j];
      j + 1
  }

  /** `components(separatedBy: "-")`: the pieces between separators, empty pieces included. */
  function Components(s: string): (parts: seq<string>)
    ensures |parts| >= 1
    ensures forall k :: 0 <= k < |parts| ==> Separator !in parts[k]
    decreases |s|
  {
    if Separator !in s then [s]
    else
      var i := FirstSeparator(s);
      [s[..i]] + Components(s[i + 1..])
  }

  /** `joined(separator:)`: the pieces with `sep` between each two neighbours. */
  function Join(parts: seq<string>, sep: string): string
  {
    if |parts| == 0 then ""
    else if |parts| == 1 then parts[0]
    else parts[0] + sep + Join(parts[1..], sep)
  }

  /** `makeFrom(streamTitle:)`: split on the separator; no trimming anywhere. */
  function MakeFrom(streamTitle: string): TrackTitle
  {
    var components := Components(streamTitle);
    if |components| >= 2 then TrackTitle(components[0], Join(components[1..], " "))
    else TrackTitle(streamTitle, "")
  }

  /** Reference definition: `s` with every separator replaced by a space. */
  function ReplaceSeparators(s: string): (r: string)
  {
    seq(|s|, i requires 0 <= i < |s| => if s[i] == Separator then ' ' else s[i])
  }

  /** There are at least two components exactly when the string holds a separator. */
  lemma {:induction false} ComponentsCount(s: string)
    ensures |Components(s)| >= 2 <==> Separator in s
  {
  }

  /** Joining the components with the separator gives back the original string. */
  lemma {:induction false} ComponentsJoinRoundTrip(s: string)
    ensures Join(Components(s), [Separator]) == s
    decreases |s|
  {
    if Separator in s {
      var i := FirstSeparator(s);
      var rest := Components(s[i + 1..]);
      ComponentsJoinRoundTrip(s[i + 1..]);
      assert ([s[..i]] + rest)[1..] == rest;
      assert s == s[..i] + [Separator] + s[i + 1..];
    }
  }

  /** A string without separators is unchanged by `ReplaceSeparators`. */
  lemma ReplaceSeparatorsIdentity(s: string)
    requires Separator !in s
    ensures ReplaceSeparators(s) == s
  {
  }

  /** `ReplaceSeparators` distributes over a split at a separator. */
  lemma ReplaceSeparatorsSplit(s: string, i: nat)
    requires i < |s| && s[i] == Separator
    ensures ReplaceSeparators(s) == ReplaceSeparators(s[..i]) + " " + ReplaceSeparators(s[i + 1..])
  {
  }

  /** Joining the components with a space replaces every separator by a space. */
  lemma {:induction false} JoinWithSpace(s: string)
    ensures Join(Components(s), " ") == ReplaceSeparators(s)
    decreases |s|
  {
    if Separator !in s {
      ReplaceSeparatorsIdentity(s);
    } else {
      var i := FirstSeparator(s);
      var rest := Components(s[i + 1..]);
      JoinWithSpace(s[i + 1..]);
      assert ([s[..i]] + rest)[1..] == rest;
      ReplaceSeparatorsIdentity(s[..i]);
      ReplaceSeparatorsSplit(s, i);
    }
  }

  /** Without a separator the whole string is the title and the subtitle is empty. */
  lemma MakeFromWithoutSeparator(s: string)
    requires Separator !in s
    ensures MakeFrom(s) == TrackTitle(s, "")
  {
  }

  /**
   * With a separator, the title is the untrimmed prefix before the first one and
   * the subtitle is the rest with every further separator turned into a space.
   */
  lemma MakeFromWithSeparator(s: string)
    requires Separator in s
    ensures var t := MakeFrom(s);
      && |t.title| < |s|
      && t.title == s[..|t.title|]
      && Separator !in t.title
      && s[|t.title|] == Separator
      && t.subtitle == ReplaceSeparators(s[|t.title| + 1..])
      && |t.title| + 1 + |t.subtitle| == |s|
  {
    var i := FirstSeparator(s);
    var rest := Components(s[i + 1..]);
    assert Components(s) == [s[..i]] + rest;
    assert (Components(s))[1..] == rest;
    JoinWithSpace(s[i + 1..]);
  }

  /** Neither field of a parsed title ever contains the separator. */
  lemma MakeFromHasNoSeparator(s: string)
    ensures Separator !in MakeFrom(s).title && Separator !in MakeFrom(s).subtitle
  {
    if Separator in s {
      MakeFromWithSeparator(s);
      var t := MakeFrom(s);
      var tail := s[|t.title| + 1..];
      assert forall k :: 0 <= k < |t.subtitle| ==> t.subtitle[k] == ReplaceSeparators(tail)[k];
    }
  }

  /** The empty stream title parses to the empty title. */
  lemma MakeFromEmptyString()
    ensures MakeFrom("") == MakeEmpty()
  {
  }

  /**
   * A stream title parses to the empty title only when it is empty or a single
   * separator, so a non-empty metadata value other than "-" never blanks the title.
   */
  lemma MakeFromIsEmptyExactly(s: string)
    ensures MakeFrom(s) == MakeEmpty() <==> s == "" || s == [Separator]
  {
    if Separator in s {
      MakeFromWithSeparator(s);
      var t := MakeFrom(s);
      if t == MakeEmpty() {
        assert |s| == 1;
        assert s == [s[0]];
      }
    } else {
      MakeFromWithoutSeparator(s);
    }
  }
}
