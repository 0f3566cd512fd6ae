/**
 * The string operations of the Swift standard library that the price code
 * uses: `split(separator:)` (empty pieces omitted) followed by `joined()`,
 * and `split(separator:maxSplits:omittingEmptySubsequences: false)`.
 */
module Text {

  /** Number of occurrences of `c` in `s`. */
  function Count(s: string, c: char): nat
  {
    if s == [] then 0 else (if s[0] == c then 1 else 0) + Count(s[1..], c)
  }

  /** Index of the first occurrence of `c` in `s`. */
  function IndexOf(s: string, c: char): (i: nat)
    requires c in s
    ensures i < |s| && s[i] == c && c !in s[..i]
  {
    if s[0] == c then 0
    else
      var j := IndexOf(s[1..], c);
      assert s[..j + 1] == [s[0]] + s[1..][..j];
      j + 1
  }

  /** The characters of `s` other than `c`, in their order. */
  function Remove(s: string, c: char): string
  {
    if s == [] then [] else (if s[0] == c then [] else [s[0]]) + Remove(s[1..], c)
  }

  /** Concatenation of the pieces: Swift's `joined()` on a sequence of substrings. */
  function Joined(pieces: seq<string>): string
  {
    if pieces == [] then [] else pieces[0] + Joined(pieces[1..])
  }

  /** `s.split(separator: c)`: the maximal runs between separators, empty runs omitted. */
  function SplitOmittingEmpty(s: string, c: char): (pieces: seq<string>)
    ensures forall k :: 0 <= k < |pieces| ==> |pieces[k]| > 0
    decreases |s|
  {
    if c !in s then (if s == [] then [] else [s])
    else
      var i := IndexOf(s, c);
      (if i == 0 then [] else [s[..i]]) + SplitOmittingEmpty(s[i + 1..], c)
  }

  /**
   * `s.split(separator: ",").joined()`: the idiom that removes grouping
   * commas. It is `s` with every comma deleted.
   */
  function StripCommas(s: string): (r: string)
    ensures r == Remove(s, ',')
  {
    JoinedSplitIsRemove(s, ',');
    Joined(SplitOmittingEmpty(s, ','))
  }

  /**
   * `s.split(separator: c, maxSplits: maxSplits, omittingEmptySubsequences: false)`:
   * cuts at the first `maxSplits` separators; the rest stays in the last piece.
   */
  function SplitKeepingEmpty(s: string, c: char, maxSplits: nat): (pieces: seq<string>)
    ensures |pieces| >= 1
    decreases maxSplits
  {
    if maxSplits == 0 || c !in s then [s]
    else
      var i := IndexOf(s, c);
      [s[..i]] + SplitKeepingEmpty(s[i + 1..], c, maxSplits - 1)
  }

  /** The pieces joined back with `c` between neighbours. */
  function JoinedWith(pieces: seq<string>, c: char): string
    requires |pieces| >= 1
  {
    if |pieces| == 1 then pieces[0] else pieces[0] + [c] + JoinedWith(pieces[1..], c)
  }

  function Min(a: nat, b: nat): nat { if a <= b then a else b }

  lemma {:induction false} CountConcat(a: string, b: string, c: char)
    ensures Count(a + b, c) == Count(a, c) + Count(b, c)
  {
    if a == [] {
      assert a + b == b;
    } else {
      assert (a + b)[1..] == a[1..] + b;
      CountConcat(a[1..], b, c);
    }
  }

  lemma {:induction false} CountAbsent(s: string, c: char)
    ensures Count(s, c) == 0 <==> c !in s
  {
    if s != [] {
      CountAbsent(s[1..], c);
      assert s == [s[0]] + s[1..];
    }
  }

  /** Splitting `s` at its first `c`: the counts of the two sides. */
  lemma CountAround(s: string, c: char)
    requires c in s
    ensures Count(s, c) == 1 + Count(s[IndexOf(s, c) + 1..], c)
  {
    var i := IndexOf(s, c);
    assert s == s[..i] + ([c] + s[i + 1..]);
    CountConcat(s[..i], [c] + s[i + 1..], c);
    CountConcat([c], s[i + 1..], c);
    CountAbsent(s[..i], c);
  }

  lemma {:induction false} RemoveConcat(a: string, b: string, c: char)
    ensures Remove(a + b, c) == Remove(a, c) + Remove(b, c)
  {
    if a == [] {
      assert a + b == b;
    } else {
      assert (a + b)[1..] == a[1..] + b;
      RemoveConcat(a[1..], b, c);
    }
  }

  lemma {:induction false} RemoveAbsent(s: string, c: char)
    requires c !in s
    ensures Remove(s, c) == s
  {
    if s != [] {
      RemoveAbsent(s[1..], c);
    }
  }

  /**
   * `Remove` keeps every character but `c`, in order: none of `c` is left,
   * the length drops by the number of `c`, and removing twice is removing once.
   */
  lemma {:induction false} RemoveSpec(s: string, c: char)
    ensures c !in Remove(s, c)
    ensures |Remove(s, c)| == |s| - Count(s, c)
    ensures Remove(Remove(s, c), c) == Remove(s, c)
  {
    if s != [] {
      RemoveSpec(s[1..], c);
      var head := if s[0] == c then [] else [s[0]];
      RemoveConcat(head, Remove(s[1..], c), c);
    }
    RemoveAbsent(Remove(s, c), c);
  }

  lemma {:induction false} JoinedConcat(a: seq<string>, b: seq<string>)
    ensures Joined(a + b) == Joined(a) + Joined(b)
  {
    if a == [] {
      assert a + b == b;
    } else {
      assert (a + b)[1..] == a[1..] + b;
      JoinedConcat(a[1..], b);
    }
  }

  /** Removing `c` from `s` keeps the text before the first `c` as it is. */
  lemma RemoveAtFirst(s: string, c: char)
    requires c in s
    ensures Remove(s, c) == s[..IndexOf(s, c)] + Remove(s[IndexOf(s, c) + 1..], c)
  {
    var i := IndexOf(s, c);
    var before, after := s[..i], s[i + 1..];
    SplitAtFirst(s, c);
    RemoveConcat(before, [c], c);
    RemoveOnly(c);
    RemoveAbsent(before, c);
    var removedHead := Remove(before + [c], c);
    assert removedHead == before;
    RemoveConcat(before + [c], after, c);
  }

  /** Every piece of a split without empty pieces is free of the separator. */
  lemma {:induction false} SplitOmittingEmptyPieces(s: string, c: char)
    ensures forall k :: 0 <= k < |SplitOmittingEmpty(s, c)| ==> c !in SplitOmittingEmpty(s, c)[k]
    decreases |s|
  {
    if c in s {
      var i := IndexOf(s, c);
      var head: seq<string> := if i == 0 then [] else [s[..i]];
      var rest := SplitOmittingEmpty(s[i + 1..], c);
      assert SplitOmittingEmpty(s, c) == head + rest;
      SplitOmittingEmptyPieces(s[i + 1..], c);
    }
  }

  /** Splitting without empty pieces and joining again removes exactly the separators. */
  lemma {:induction false} JoinedSplitIsRemove(s: string, c: char)
    ensures Joined(SplitOmittingEmpty(s, c)) == Remove(s, c)
    decreases |s|
  {
    var pieces := SplitOmittingEmpty(s, c);
    if c !in s {
      RemoveAbsent(s, c);
      if s != [] {
        assert pieces == [s];
        assert Joined(pieces) == s + Joined([]);
      }
    } else {
      var i := IndexOf(s, c);
      var before, after := s[..i], s[i + 1..];
      var head: seq<string> := if i == 0 then [] else [before];
      var rest := SplitOmittingEmpty(after, c);
      assert pieces == head + rest;
      JoinedConcat(head, rest);
      JoinedSplitIsRemove(after, c);
      var joinedRest := Joined(rest);
      assert joinedRest == Remove(after, c);
      assert Joined(head) == before;
      assert Joined(pieces) == before + joinedRest;
      RemoveAtFirst(s, c);
    }
  }

  /**
   * Stripping grouping commas leaves no comma, keeps every other character
   * in its order, and is idempotent.
   */
  lemma StripCommasSpec(s: string)
    ensures StripCommas(s) == Remove(s, ',')
    ensures ',' !in StripCommas(s)
    ensures |StripCommas(s)| == |s| - Count(s, ',')
    ensures StripCommas(StripCommas(s)) == StripCommas(s)
    ensures ',' !in s ==> StripCommas(s) == s
  {
    JoinedSplitIsRemove(s, ',');
    RemoveSpec(s, ',');
    JoinedSplitIsRemove(Remove(s, ','), ',');
    if ',' !in s {
      RemoveAbsent(s, ',');
    }
  }

  /** Commas are stripped piecewise: `StripCommas(a + b)` is the two halves stripped. */
  lemma StripCommasConcat(a: string, b: string)
    ensures StripCommas(a + b) == StripCommas(a) + StripCommas(b)
  {
    StripCommasSpec(a + b);
    StripCommasSpec(a);
    StripCommasSpec(b);
    RemoveConcat(a, b, ',');
  }

  /** Splitting with at most `m` cuts gives `min(count, m) + 1` pieces. */
  lemma {:induction false} SplitKeepingEmptyLength(s: string, c: char, m: nat)
    ensures |SplitKeepingEmpty(s, c, m)| == Min(Count(s, c), m) + 1
    decreases m
  {
    if c !in s {
      CountAbsent(s, c);
    } else if m > 0 {
      var i := IndexOf(s, c);
      var rest := SplitKeepingEmpty(s[i + 1..], c, m - 1);
      assert SplitKeepingEmpty(s, c, m) == [s[..i]] + rest;
      CountAround(s, c);
      SplitKeepingEmptyLength(s[i + 1..], c, m - 1);
    } else {
      CountAbsent(s, c);
    }
  }

  /** Joining the pieces with `c` gives `s` back. */
  lemma {:induction false} SplitKeepingEmptyJoin(s: string, c: char, m: nat)
    ensures JoinedWith(SplitKeepingEmpty(s, c, m), c) == s
    decreases m
  {
    var pieces := SplitKeepingEmpty(s, c, m);
    if c in s && m > 0 {
      var i := IndexOf(s, c);
      var before, after := s[..i], s[i + 1..];
      var rest := SplitKeepingEmpty(after, c, m - 1);
      assert pieces == [before] + rest;
      SplitKeepingEmptyJoin(after, c, m - 1);
      JoinedWithCons(before, rest, c);
      var joinedRest := JoinedWith(rest, c);
      assert joinedRest == after;
      assert JoinedWith(pieces, c) == before + [c] + joinedRest;
      SplitAtFirst(s, c);
    } else {
      assert pieces == [s];
    }
  }

  /** `s` is the text before its first `c`, that `c`, and the text after it. */
  lemma SplitAtFirst(s: string, c: char)
    requires c in s
    ensures s == s[..IndexOf(s, c)] + [c] + s[IndexOf(s, c) + 1..]
  {
  }

  /** Joining `[x] + rest` puts `c` between `x` and the joined rest. */
  lemma JoinedWithCons(x: string, rest: seq<string>, c: char)
    requires |rest| >= 1
    ensures JoinedWith([x] + rest, c) == x + [c] + JoinedWith(rest, c)
  {
    assert ([x] + rest)[1..] == rest;
  }

  /** Every piece but the last is free of `c`. */
  lemma {:induction false} SplitKeepingEmptyPieces(s: string, c: char, m: nat)
    ensures forall k :: 0 <= k < |SplitKeepingEmpty(s, c, m)| - 1 ==> c !in SplitKeepingEmpty(s, c, m)[k]
    decreases m
  {
    if c in s && m > 0 {
      var i := IndexOf(s, c);
      var rest := SplitKeepingEmpty(s[i + 1..], c, m - 1);
      assert SplitKeepingEmpty(s, c, m) == [s[..i]] + rest;
      SplitKeepingEmptyPieces(s[i + 1..], c, m - 1);
    }
  }

  /** Removing `c` from a text that holds only `c` leaves nothing. */
  lemma RemoveOnly(c: char)
    ensures Remove([c], c) == []
  {
    assert [c][1..] == [];
  }

  /** A comma between `a` and `b` is stripped like any other. */
  lemma StripCommasDropsComma(a: string, b: string)
    ensures StripCommas(a + [','] + b) == StripCommas(a + b)
  {
    JoinedSplitIsRemove(a + [','] + b, ',');
    JoinedSplitIsRemove(a + b, ',');
    RemoveConcat(a + [','], b, ',');
    RemoveConcat(a, [','], ',');
    RemoveConcat(a, b, ',');
    RemoveOnly(',');
  }

  /**
   * Splitting with at most `m` cuts, empty pieces kept, gives `min(count, m) + 1`
   * pieces, all but the last free of `c`, and joining them with `c` gives `s` back.
   */
  lemma SplitKeepingEmptySpec(s: string, c: char, m: nat)
    ensures |SplitKeepingEmpty(s, c, m)| == Min(Count(s, c), m) + 1
    ensures JoinedWith(SplitKeepingEmpty(s, c, m), c) == s
    ensures forall k :: 0 <= k < |SplitKeepingEmpty(s, c, m)| - 1 ==> c !in SplitKeepingEmpty(s, c, m)[k]
  {
    SplitKeepingEmptyLength(s, c, m);
    SplitKeepingEmptyJoin(s, c, m);
    SplitKeepingEmptyPieces(s, c, m);
  }

  /** The first `c` of `a + [c] + b` is the one after `a` when `a` has none. */
  lemma IndexOfAfter(a: string, c: char, b: string)
    requires c !in a
    ensures c in a + [c] + b && IndexOf(a + [c] + b, c) == |a|
  {
    var s := a + [c] + b;
    assert s[|a|] == c;
  }
}
