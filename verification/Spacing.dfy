/**
 Instants kept a minimum gap apart, and how many of them fit in a window. The reservation
 limiter and the time-windowed tables of the state store both promise a gap; the bounds
 on windows follow from the gap alone.
 */
module Spacing {

  /** Every later instant is at least `gap` after every earlier one. */
  ghost predicate Spaced(times: seq<int>, gap: int) {
    forall i, j | 0 <= i < j < |times| :: times[j] - times[i] >= gap
  }

  /** The instants of `times` in the half-open window [start, start + length). */
  function InWindow(times: seq<int>, start: int, length: int): (inside: seq<int>)
  {
    if times == [] then []
    else
      var front := InWindow(times[..|times| - 1], start, length);
      var last := times[|times| - 1];
      if start <= last < start + length then front + [last] else front
  }

  lemma {:induction false} InWindowMembers(times: seq<int>, start: int, length: int)
    ensures forall x :: x in InWindow(times, start, length) <==> x in times && start <= x < start + length
  {
    if times != [] {
      InWindowMembers(times[..|times| - 1], start, length);
      assert times == times[..|times| - 1] + [times[|times| - 1]];
    }
  }

  lemma InWindowBounds(times: seq<int>, start: int, length: int)
    ensures forall i | 0 <= i < |InWindow(times, start, length)| ::
            start <= InWindow(times, start, length)[i] < start + length
  {
    InWindowMembers(times, start, length);
    var inside := InWindow(times, start, length);
    forall i | 0 <= i < |inside| ensures start <= inside[i] < start + length {
      assert inside[i] in inside;
    }
  }

  lemma {:induction false} InWindowSpaced(times: seq<int>, gap: int, start: int, length: int)
    requires Spaced(times, gap)
    ensures Spaced(InWindow(times, start, length), gap)
  {
    if times != [] {
      var front := times[..|times| - 1];
      InWindowSpaced(front, gap, start, length);
      InWindowMembers(front, start, length);
      forall x | x in InWindow(front, start, length) ensures times[|times| - 1] - x >= gap {
        var i :| 0 <= i < |front| && front[i] == x;
        assert times[i] == x;
      }
      var inside, kept := InWindow(times, start, length), InWindow(front, start, length);
      forall i, j | 0 <= i < j < |inside| ensures inside[j] - inside[i] >= gap {
        assert inside[i] == kept[i] && kept[i] in kept;
      }
    }
  }

  /** Spaced instants spread out at least linearly. */
  lemma {:induction false} SpreadAtLeast(times: seq<int>, gap: int, n: nat)
    requires Spaced(times, gap) && n < |times|
    ensures times[n] - times[0] >= n * gap
  {
    if n > 0 {
      SpreadAtLeast(times, gap, n - 1);
      assert times[n] - times[n - 1] >= gap;
    }
  }

  /** A quotient bound: `n * gap` below `length` leaves `n` at most (length - 1) / gap. */
  lemma QuotientBound(n: int, gap: int, length: int)
    requires gap > 0 && n * gap <= length
    ensures n <= length / gap
  {
    var quotient := length / gap;
    assert length < (quotient + 1) * gap;
    assert n * gap < (quotient + 1) * gap;
  }

  /** Spaced instants within `span` of the first: at most span / gap more of them. */
  lemma CountWithin(times: seq<int>, gap: int, span: nat)
    requires gap > 0 && Spaced(times, gap) && times != []
    requires times[|times| - 1] - times[0] <= span
    ensures |times| <= span / gap + 1
  {
    SpreadAtLeast(times, gap, |times| - 1);
    QuotientBound(|times| - 1, gap, span);
  }

  /** A half-open window of positive `length` holds at most ceil(length / gap) spaced instants. */
  lemma WindowBound(times: seq<int>, gap: int, start: int, length: int)
    requires gap > 0 && length > 0 && Spaced(times, gap)
    ensures |InWindow(times, start, length)| <= (length - 1) / gap + 1
  {
    hide InWindow, Spaced;
    var inside := InWindow(times, start, length);
    InWindowSpaced(times, gap, start, length);
    InWindowBounds(times, start, length);
    if inside == [] {
      QuotientBound(0, gap, length - 1);
    } else {
      CountWithin(inside, gap, length - 1);
    }
  }

  /** A closed window [start, start + length] holds at most floor(length / gap) + 1 of them. */
  lemma ClosedWindowBound(times: seq<int>, gap: int, start: int, length: nat)
    requires gap > 0 && Spaced(times, gap)
    ensures |InWindow(times, start, length + 1)| <= length / gap + 1
  {
    WindowBound(times, gap, start, length + 1);
  }
}
