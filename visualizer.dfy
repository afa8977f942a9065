// VoiceInk-ios/AudioVisualizerView.swift: eight bars drawn from the tail of
// the recorder's level history.
module Visualizer {

  const BarCount: int := 8
  const MinHeight: real := 4.0

  function Max(a: int, b: int): int { if a >= b then a else b }
  function Min(a: int, b: int): int { if a <= b then a else b }

  /** `max(0, min(1, level))`. */
  function Clamp01(x: real): (c: real)
    ensures 0.0 <= c <= 1.0
    ensures 0.0 <= x <= 1.0 ==> c == x
  {
    if x < 0.0 then 0.0 else if x > 1.0 then 1.0 else x
  }

  /** The history index bar `index` reads: every `step`-th level counted
      back from the newest. */
  function SourceIndex(count: int, index: int): int
    requires count > 0
  {
    var span := Max(1, Min(count, BarCount));
    var step := Max(1, count / span);
    Max(0, count - 1 - index * step)
  }

  /** For any bar from 0 up the read stays inside the history, bar 0 reads
      the newest level, and a later bar never reads a newer level than an
      earlier one. */
  lemma SourceIndexInRange(count: int, index: int, later: int)
    requires count > 0 && 0 <= index <= later
    ensures 0 <= SourceIndex(count, index) < count
    ensures SourceIndex(count, 0) == count - 1
    ensures SourceIndex(count, later) <= SourceIndex(count, index)
  {
    var span := Max(1, Min(count, BarCount));
    var step := Max(1, count / span);
    assert index * step <= later * step by {
      assert (later - index) * step >= 0;
    }
  }

  /** `height(for:in:)`: 4 points for an empty history, otherwise 4 plus
      the clamped level's share of the rest of the view's height. */
  function Height(levels: seq<real>, index: int, maxHeight: real): (h: real)
    requires index >= 0
  {
    if levels == [] then MinHeight
    else
      SourceIndexInRange(|levels|, index, index);
      var level := levels[SourceIndex(|levels|, index)];
      MinHeight + (maxHeight - MinHeight) * Clamp01(level)
  }

  /** With a view at least 4 points tall every bar is between 4 points and
      the view's height; a silent history draws flat bars. */
  lemma HeightBounded(levels: seq<real>, index: int, maxHeight: real)
    requires index >= 0 && maxHeight >= MinHeight
    ensures MinHeight <= Height(levels, index, maxHeight) <= maxHeight
    ensures levels == [] ==> Height(levels, index, maxHeight) == MinHeight
  {
    if levels != [] {
      var c := Clamp01(levels[SourceIndex(|levels|, index)]);
      var span := maxHeight - MinHeight;
      assert Height(levels, index, maxHeight) == MinHeight + span * c;
      ScaleWithin(span, c);
    }
  }

  /** A share of a non-negative span lies within the span. */
  lemma ScaleWithin(span: real, c: real)
    requires span >= 0.0 && 0.0 <= c <= 1.0
    ensures 0.0 <= span * c <= span
  {
    assert span * c <= span * 1.0 by {
      assert span * (1.0 - c) >= 0.0;
    }
  }

  /** `barWidth(in:)`: the width less 16 points of padding, shared by the
      eight bars less 3 points of spacing, and never under 2 points. */
  function BarWidth(width: real): (w: real)
    ensures w >= 2.0
    ensures (width - 16.0) / 8.0 - 3.0 >= 2.0 ==> w == (width - 16.0) / 8.0 - 3.0
  {
    var share := (width - 16.0) / (BarCount as real) - 3.0;
    if share >= 2.0 then share else 2.0
  }
}
