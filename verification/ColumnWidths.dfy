/**
 Table column widths of the PDF renderer. When the table fits, spare room is spread in proportion; when it
 does not, columns that fit an equal share keep their width and the rest share what is left, round by round.
 The result is one level: every column gets the lesser of its need and that level, and the page is filled.
 */
module ColumnWidths {

  function Sum(s: seq<real>): real
    decreases |s|
  {
    if s == [] then 0.0 else Sum(s[..|s| - 1]) + s[|s| - 1]
  }

  function Least(x: real, y: real): real {
    if x <= y then x else y
  }

  function Times(x: real, y: real): real {
    x * y
  }

  /** Everyone gets what they need, up to the level. */
  function Levelled(desired: seq<real>, level: real): seq<real> {
    seq(|desired|, i requires 0 <= i < |desired| => Least(desired[i], level))
  }

  function Scaled(s: seq<real>, scale: real): seq<real> {
    seq(|s|, i requires 0 <= i < |s| => Times(s[i], scale))
  }

  ghost predicate Positive(s: seq<real>) {
    forall i :: 0 <= i < |s| ==> s[i] > 0.0
  }

  // ---------------------------------------------------------------- sums

  lemma {:induction false} SumUpdate(s: seq<real>, i: nat, v: real)
    requires i < |s|
    ensures Sum(s[i := v]) == Sum(s) - s[i] + v
    decreases |s|
  {
    var n := |s| - 1;
    if i == n {
      assert s[i := v][..n] == s[..n];
    } else {
      SumUpdate(s[..n], i, v);
      assert s[i := v][..n] == s[..n][i := v];
    }
  }

  lemma {:induction false} SumScaled(s: seq<real>, scale: real)
    ensures Sum(Scaled(s, scale)) == Times(Sum(s), scale)
    decreases |s|
  {
    TimesAdds(0.0, 0.0, scale);
    if s != [] {
      var n := |s| - 1;
      SumScaled(s[..n], scale);
      assert Scaled(s, scale)[..n] == Scaled(s[..n], scale);
      TimesAdds(Sum(s[..n]), s[n], scale);
    }
    hide Times;
  }

  lemma TimesAdds(a: real, b: real, scale: real)
    ensures Times(a + b, scale) == Times(a, scale) + Times(b, scale)
    ensures Times(0.0, scale) == 0.0 && Times(1.0, scale) == scale
    ensures b > 0.0 && scale > 0.0 ==> Times(b, scale) > 0.0
  {}

  lemma {:induction false} SumPositive(s: seq<real>)
    requires Positive(s)
    ensures Sum(s) >= 0.0 && (s != [] ==> Sum(s) > 0.0)
    decreases |s|
  {
    if s != [] {
      SumPositive(s[..|s| - 1]);
    }
  }

  lemma {:induction false} SumZeros(s: seq<real>)
    requires forall i :: 0 <= i < |s| ==> s[i] == 0.0
    ensures Sum(s) == 0.0
    decreases |s|
  {
    if s != [] {
      SumZeros(s[..|s| - 1]);
    }
  }

  // ---------------------------------------------------------------- columns still pending

  /** A list of column numbers, none twice. */
  ghost predicate Columns(pending: seq<nat>, count: nat) {
    && (forall k :: 0 <= k < |pending| ==> pending[k] < count)
    && (forall j, k :: 0 <= j < k < |pending| ==> pending[j] != pending[k])
  }

  function At(desired: seq<real>, i: nat): real {
    if i < |desired| then desired[i] else 0.0
  }

  /** The total need of some columns. */
  function Need(desired: seq<real>, pending: seq<nat>): real
    decreases |pending|
  {
    if pending == [] then 0.0
    else Need(desired, pending[..|pending| - 1]) + At(desired, pending[|pending| - 1])
  }

  /** filter: the pending columns that fit a share, or those that do not. */
  function Fitting(desired: seq<real>, pending: seq<nat>, share: real, fits: bool): seq<nat>
    decreases |pending|
  {
    if pending == [] then []
    else
      var last := pending[|pending| - 1];
      Fitting(desired, pending[..|pending| - 1], share, fits) + if (At(desired, last) <= share) == fits then [last] else []
  }

  lemma {:induction false} FittingAre(desired: seq<real>, pending: seq<nat>, share: real, fits: bool)
    ensures forall i: nat :: i in Fitting(desired, pending, share, fits) <==> i in pending && (At(desired, i) <= share) == fits
    decreases |pending|
  {
    if pending != [] {
      FittingAre(desired, pending[..|pending| - 1], share, fits);
      assert pending == pending[..|pending| - 1] + [pending[|pending| - 1]];
    }
  }

  lemma {:induction false} FittingKeepsColumns(desired: seq<real>, pending: seq<nat>, share: real, fits: bool)
    requires Columns(pending, |desired|)
    ensures Columns(Fitting(desired, pending, share, fits), |desired|)
    decreases |pending|
  {
    if pending != [] {
      var n := |pending| - 1;
      FittingKeepsColumns(desired, pending[..n], share, fits);
      FittingAre(desired, pending[..n], share, fits);
      var most := Fitting(desired, pending[..n], share, fits);
      forall k | 0 <= k < |most|
        ensures most[k] != pending[n]
      {
        assert most[k] in pending[..n];
      }
    }
  }

  /** Those that fit and those that do not share out the need and the count. */
  lemma {:induction false} FittingSplits(desired: seq<real>, pending: seq<nat>, share: real)
    ensures var fits, rest := Fitting(desired, pending, share, true), Fitting(desired, pending, share, false);
            |fits| + |rest| == |pending| && Need(desired, fits) + Need(desired, rest) == Need(desired, pending)
    decreases |pending|
  {
    if pending != [] {
      var n := |pending| - 1;
      FittingSplits(desired, pending[..n], share);
      NeedAppend(desired, Fitting(desired, pending[..n], share, true), pending[n]);
      NeedAppend(desired, Fitting(desired, pending[..n], share, false), pending[n]);
      assert Fitting(desired, pending[..n], share, true) + [] == Fitting(desired, pending[..n], share, true);
      assert Fitting(desired, pending[..n], share, false) + [] == Fitting(desired, pending[..n], share, false);
    }
  }

  lemma NeedAppend(desired: seq<real>, pending: seq<nat>, i: nat)
    ensures Need(desired, pending + [i]) == Need(desired, pending) + At(desired, i)
  {
    assert (pending + [i])[..|pending|] == pending;
  }

  /** n equal shares. */
  function Shares(n: nat, share: real): real {
    Times(n as real, share)
  }

  lemma SharesAdd(m: nat, n: nat, share: real)
    ensures Shares(m + n, share) == Shares(m, share) + Shares(n, share)
    ensures Shares(0, share) == 0.0 && Shares(1, share) == share
  {
    TimesAdds(m as real, n as real, share);
    hide Times;
  }

  /** Dividing the room gives equal shares of it. */
  lemma SharesOfRoom(room: real, n: nat, share: real)
    requires n > 0
    ensures Shares(n, room / n as real) == room
    ensures room >= Shares(n, share) ==> room / n as real >= share
    ensures room > 0.0 ==> room / n as real > 0.0
  {
    var q, m := room / n as real, n as real;
    assert q * m == room;
    if q < share {
      assert (share - q) * m > 0.0;
      assert share * m == q * m + (share - q) * m;
    }
  }

  /** Columns that fit an equal share need no more than that many shares. */
  lemma {:induction false} NeedOfFitting(desired: seq<real>, pending: seq<nat>, share: real)
    requires forall i <- pending :: At(desired, i) <= share
    ensures Need(desired, pending) <= Shares(|pending|, share)
    decreases |pending|
  {
    SharesAdd(0, 0, share);
    if pending != [] {
      NeedOfFitting(desired, pending[..|pending| - 1], share);
      SharesAdd(|pending| - 1, 1, share);
      assert pending[|pending| - 1] in pending;
    }
    hide Shares;
  }

  /** The room is short: somebody pending needs more than there is. */
  ghost predicate Short(desired: seq<real>, pending: seq<nat>, room: real) {
    pending != [] && Columns(pending, |desired|) && 0.0 < room < Need(desired, pending)
  }

  /** One round of a short room: some columns may fit, not all; it stays short, and the next share is no smaller. */
  lemma RoundStaysShort(desired: seq<real>, pending: seq<nat>, room: real)
    requires Short(desired, pending, room)
    ensures var share := room / |pending| as real;
            var fits, rest := Fitting(desired, pending, share, true), Fitting(desired, pending, share, false);
            var left := room - Need(desired, fits);
            Short(desired, rest, left) && left / |rest| as real >= share > 0.0 && |fits| + |rest| == |pending|
  {
    hide Shares, Need, Columns;
    var share := room / |pending| as real;
    var fits, rest := Fitting(desired, pending, share, true), Fitting(desired, pending, share, false);
    SharesOfRoom(room, |pending|, 0.0);
    FittingSplits(desired, pending, share);
    FittingKeepsColumns(desired, pending, share, false);
    FittingAre(desired, pending, share, true);
    NeedOfFitting(desired, fits, share);
    SharesAdd(|fits|, |rest|, share);
    hide Fitting;
    if rest == [] {
      assert Need(desired, rest) == 0.0 by { NeedOfNone(desired); }
    } else {
      SharesArePositive(|rest|, share);
      SharesOfRoom(room - Need(desired, fits), |rest|, share);
    }
  }

  lemma SharesArePositive(n: nat, share: real)
    requires n > 0 && share > 0.0
    ensures Shares(n, share) > 0.0
  {
    TimesAdds(0.0, n as real, share);
  }

  lemma NeedOfNone(desired: seq<real>)
    ensures Need(desired, []) == 0.0
  {}

  function Indices(n: nat): (r: seq<nat>)
    ensures |r| == n && forall i :: 0 <= i < n ==> r[i] == i
  {
    seq(n, i requires 0 <= i < n => i)
  }

  lemma {:induction false} NeedOfFirst(desired: seq<real>, n: nat)
    requires n <= |desired|
    ensures Columns(Indices(n), |desired|) && Need(desired, Indices(n)) == Sum(desired[..n])
  {
    if n > 0 {
      NeedOfFirst(desired, n - 1);
      assert Indices(n)[..n - 1] == Indices(n - 1);
      assert desired[..n][..n - 1] == desired[..n - 1];
    }
  }

  // ---------------------------------------------------------------- the allocator

  /** Settled columns have what they need, which is at most the level; pending ones have nothing yet. */
  ghost predicate Dealt(out: seq<real>, desired: seq<real>, pending: seq<nat>, level: real) {
    && |out| == |desired|
    && forall i: nat :: i < |desired| ==> if i in pending then out[i] == 0.0 else out[i] == desired[i] <= level
  }

  method ColumnWidths(desired: seq<real>, width: real) returns (widths: seq<real>)
    requires width > 0.0 && Positive(desired)
    ensures desired == [] ==> widths == []
    ensures desired != [] ==> Sum(widths) == width
    ensures 0.0 < Sum(desired) <= width ==> widths == Scaled(desired, width / Sum(desired))
    ensures Sum(desired) > width ==> exists level: real :: level > 0.0 && widths == Levelled(desired, level)
  {
    var sum := Sum(desired);
    SumPositive(desired);
    if sum <= width {
      if desired == [] {
        return [];
      }
      SumScaled(desired, width / sum);
      return Scaled(desired, width / sum);
    }
    widths := ShareOut(desired, width);
    hide *;
  }

  /** The rounds, when the table is wider than the page. */
  method ShareOut(desired: seq<real>, width: real) returns (widths: seq<real>)
    requires 0.0 < width < Sum(desired)
    ensures Sum(widths) == width && exists level: real :: level > 0.0 && widths == Levelled(desired, level)
  {
    hide *;
    var out := new real[|desired|](_ => 0.0);
    var pending, room := Indices(|desired|), width;
    ghost var level := 0.0;
    StartShort(out[..], desired, width);
    while true
      invariant Short(desired, pending, room) && pending != []
      invariant Sum(out[..]) + room == width
      invariant 0.0 <= level <= room / |pending| as real
      invariant Dealt(out[..], desired, pending, level)
      decreases |pending|
    {
      var share := room / |pending| as real;
      RoundStaysShort(desired, pending, room);
      var fits, rest := Fitting(desired, pending, share, true), Fitting(desired, pending, share, false);
      assert rest != [] by { ShortHasPending(desired, rest, room - Need(desired, fits)); }
      if fits == [] {
        break;
      }
      FitsHaveNone(out[..], desired, pending, level, share, room);
      ghost var before := out[..];
      room := Settle(out, desired, fits, room);
      DealtNext(before, out[..], desired, pending, level, share);
      pending, level := rest, share;
    }
    var share := room / |pending| as real;
    PendingHaveNone(out[..], desired, pending, level, room);
    ghost var before := out[..];
    FillPending(out, pending, share);
    SharesOfRoom(room, |pending|, 0.0);
    assert share > 0.0 by { ShortHasPending(desired, pending, room); }
    widths := out[..];
    DealtAtLast(before, widths, desired, pending, level, share);
  }

  lemma ShortHasPending(desired: seq<real>, pending: seq<nat>, room: real)
    requires Short(desired, pending, room)
    ensures pending != [] && room / |pending| as real > 0.0
  {
    SharesOfRoom(room, |pending|, 0.0);
  }

  lemma StartShort(out: seq<real>, desired: seq<real>, width: real)
    requires |out| == |desired| && (forall i :: 0 <= i < |out| ==> out[i] == 0.0) && 0.0 < width < Sum(desired)
    ensures var all := Indices(|desired|);
            && Short(desired, all, width) && all != [] && Dealt(out, desired, all, 0.0) && Sum(out) == 0.0
            && width / |all| as real >= 0.0
  {
    var all := Indices(|desired|);
    SumZeros(out);
    NeedOfFirst(desired, |desired|);
    assert desired[..|desired|] == desired;
    forall i: nat | i < |desired|
      ensures i in all
    {
      assert all[i] == i;
    }
    ShortHasPending(desired, all, width);
  }

  lemma FitsHaveNone(out: seq<real>, desired: seq<real>, pending: seq<nat>, level: real, share: real, room: real)
    requires Short(desired, pending, room) && Dealt(out, desired, pending, level)
    ensures var fits := Fitting(desired, pending, share, true);
            |out| == |desired| && Columns(fits, |out|) && forall k :: 0 <= k < |fits| ==> fits[k] < |out| && out[fits[k]] == 0.0
  {
    FittingAre(desired, pending, share, true);
    FittingKeepsColumns(desired, pending, share, true);
    var fits := Fitting(desired, pending, share, true);
    hide Fitting;
    forall k | 0 <= k < |fits|
      ensures fits[k] < |out| && out[fits[k]] == 0.0
    {
      assert fits[k] in fits;
    }
  }

  lemma PendingHaveNone(out: seq<real>, desired: seq<real>, pending: seq<nat>, level: real, room: real)
    requires Short(desired, pending, room) && Dealt(out, desired, pending, level)
    ensures |out| == |desired| && Columns(pending, |out|)
    ensures forall k :: 0 <= k < |pending| ==> pending[k] < |out| && out[pending[k]] == 0.0
  {
    forall k | 0 <= k < |pending|
      ensures pending[k] < |out| && out[pending[k]] == 0.0
    {
      assert pending[k] in pending;
    }
  }

  lemma DealtNext(before: seq<real>, after: seq<real>, desired: seq<real>, pending: seq<nat>, level: real, share: real)
    requires Dealt(before, desired, pending, level) && level <= share && |after| == |desired|
    requires var fits := Fitting(desired, pending, share, true);
             forall i: nat :: i < |desired| ==> after[i] == if i in fits then desired[i] else before[i]
    ensures Dealt(after, desired, Fitting(desired, pending, share, false), share)
  {
    FittingAre(desired, pending, share, true);
    FittingAre(desired, pending, share, false);
    hide Fitting;
  }

  lemma DealtAtLast(before: seq<real>, after: seq<real>, desired: seq<real>, pending: seq<nat>, level: real, share: real)
    requires Dealt(before, desired, pending, level) && level <= share && |after| == |desired|
    requires Fitting(desired, pending, share, true) == []
    requires forall i: nat :: i < |desired| ==> after[i] == if i in pending then share else before[i]
    ensures after == Levelled(desired, share)
  {
    FittingAre(desired, pending, share, true);
    hide Fitting;
    forall i: nat | i < |desired|
      ensures after[i] == Least(desired[i], share)
    {
      assert i !in Fitting(desired, pending, share, true);
    }
  }

  /** Gives the fitting columns what they need, out of the room. */
  method Settle(out: array<real>, desired: seq<real>, fits: seq<nat>, room: real) returns (left: real)
    requires out.Length == |desired| && Columns(fits, out.Length)
    requires forall k :: 0 <= k < |fits| ==> fits[k] < out.Length && out[..][fits[k]] == 0.0
    modifies out
    ensures left == room - Need(desired, fits) && Sum(out[..]) + left == old(Sum(out[..])) + room
    ensures forall i: nat :: i < |desired| ==> out[..][i] == if i in fits then desired[i] else old(out[..])[i]
  {
    hide Sum;
    left := room;
    for k := 0 to |fits|
      invariant left == room - Need(desired, fits[..k])
      invariant Sum(out[..]) + left == old(Sum(out[..])) + room
      invariant forall i: nat :: i < |desired| ==> out[i] == if i in fits[..k] then desired[i] else old(out[i])
    {
      var i := fits[k];
      assert fits[..k + 1] == fits[..k] + [i];
      NeedAppend(desired, fits[..k], i);
      SumUpdate(out[..], i, desired[i]);
      assert i !in fits[..k] && old(out[..])[fits[k]] == 0.0;
      ghost var was := out[..];
      out[i] := desired[i];
      assert out[..] == was[i := desired[i]];
      left := left - desired[i];
    }
    assert fits[..|fits|] == fits;
  }

  /** Gives every pending column one share. */
  method FillPending(out: array<real>, pending: seq<nat>, share: real)
    requires Columns(pending, out.Length)
    requires forall k :: 0 <= k < |pending| ==> pending[k] < out.Length && out[..][pending[k]] == 0.0
    modifies out
    ensures Sum(out[..]) == old(Sum(out[..])) + Shares(|pending|, share)
    ensures forall i: nat :: i < out.Length ==> out[..][i] == if i in pending then share else old(out[..])[i]
  {
    hide Sum, Shares;
    SharesAdd(0, 0, share);
    for k := 0 to |pending|
      invariant Sum(out[..]) == old(Sum(out[..])) + Shares(k, share)
      invariant forall i: nat :: i < out.Length ==> out[i] == if i in pending[..k] then share else old(out[i])
    {
      var i := pending[k];
      assert pending[..k + 1] == pending[..k] + [i];
      SumUpdate(out[..], i, share);
      SharesAdd(k, 1, share);
      assert i !in pending[..k] && old(out[..])[pending[k]] == 0.0;
      ghost var was := out[..];
      out[i] := share;
      assert out[..] == was[i := share];
    }
    assert pending[..|pending|] == pending;
  }

  // ---------------------------------------------------------------- there is only one such level

  lemma {:induction false} LevelMonotone(desired: seq<real>, low: real, high: real)
    requires low <= high
    ensures Sum(Levelled(desired, low)) <= Sum(Levelled(desired, high))
    ensures Sum(Levelled(desired, low)) == Sum(Levelled(desired, high)) ==> Levelled(desired, low) == Levelled(desired, high)
    decreases |desired|
  {
    if desired != [] {
      var n := |desired| - 1;
      LevelMonotone(desired[..n], low, high);
      assert Levelled(desired, low) == Levelled(desired[..n], low) + [Least(desired[n], low)];
      assert Levelled(desired, high) == Levelled(desired[..n], high) + [Least(desired[n], high)];
      assert Levelled(desired, low)[..n] == Levelled(desired[..n], low);
      assert Levelled(desired, high)[..n] == Levelled(desired[..n], high);
    }
  }

  /** Filling the page to a level leaves no choice: any level that does gives the same widths. */
  lemma WidthsAreUnique(desired: seq<real>, width: real, a: real, b: real)
    requires Sum(Levelled(desired, a)) == width && Sum(Levelled(desired, b)) == width
    ensures Levelled(desired, a) == Levelled(desired, b)
  {
    if a <= b {
      LevelMonotone(desired, a, b);
    } else {
      LevelMonotone(desired, b, a);
    }
  }
}
