/** The date-index update at the end of the entry point: the dates of this
    run's snapshots and the lines already in the index file are merged as a
    set and written back sorted newest first (`sorted(datelist, reverse=True)`,
    joined by newlines). Reading and writing the file are left to the caller:
    the old text comes in, the new text goes out. */
module Index {

  // ---- Python string order ---------------------------------------------------------

  /** `a < b` on Python strings: lexicographic by code point, a proper prefix first. */
  predicate Less(a: string, b: string)
  {
    if a == [] then b != []
    else if b == [] then false
    else a[0] < b[0] || (a[0] == b[0] && Less(a[1..], b[1..]))
  }

  lemma {:induction false} LessIrreflexive(a: string)
    ensures !Less(a, a)
  {
    if a != [] {
      LessIrreflexive(a[1..]);
    }
  }

  lemma {:induction false} LessTransitive(a: string, b: string, c: string)
    requires Less(a, b) && Less(b, c)
    ensures Less(a, c)
  {
    if a != [] && a[0] == b[0] && b[0] == c[0] {
      LessTransitive(a[1..], b[1..], c[1..]);
    }
  }

  lemma {:induction false} LessTotal(a: string, b: string)
    requires a != b
    ensures Less(a, b) || Less(b, a)
  {
    if a != [] && b != [] && a[0] == b[0] {
      assert a == [a[0]] + a[1..] && b == [b[0]] + b[1..];
      LessTotal(a[1..], b[1..]);
    }
  }

  // ---- strictly descending sequences ---------------------------------------------------

  /** Newest first, no date twice. */
  predicate StrictlyDescending(s: seq<string>)
  {
    forall i, j :: 0 <= i < j < |s| ==> Less(s[j], s[i])
  }

  function Elems(s: seq<string>): set<string>
  {
    set x | x in s
  }

  lemma ElemsEmpty(s: seq<string>)
    ensures Elems(s) == {} <==> s == []
  {
    if s != [] {
      assert s[0] in Elems(s);
    }
  }

  lemma ElemsCons(x: string, s: seq<string>)
    ensures Elems([x] + s) == {x} + Elems(s)
  {
    assert forall y :: y in [x] + s <==> y == x || y in s;
  }

  /** Insert `x` into its place in a strictly descending sequence (nothing
      changes when it is already there). */
  function InsertDescending(s: seq<string>, x: string): (r: seq<string>)
    requires StrictlyDescending(s)
    ensures StrictlyDescending(r)
    ensures Elems(r) == Elems(s) + {x}
    ensures |r| == if x in s then |s| else |s| + 1
  {
    if s == [] then [x]
    else if s[0] == x then s
    else if Less(s[0], x) then
      assert forall j :: 0 < j < |s| ==> Less(s[j], x) by {
        forall j | 0 < j < |s| ensures Less(s[j], x) {
          LessTransitive(s[j], s[0], x);
        }
      }
      assert x !in s by {
        forall j | 0 <= j < |s| ensures s[j] != x {
          if j > 0 {
            if s[j] == x {
              LessIrreflexive(x);
            }
          }
        }
      }
      [x] + s
    else
      LessTotal(s[0], x);
      var rest := InsertDescending(s[1..], x);
      assert s == [s[0]] + s[1..];
      ElemsCons(s[0], s[1..]);
      ElemsCons(s[0], rest);
      assert forall y :: y in rest ==> Less(y, s[0]) by {
        forall y | y in rest ensures Less(y, s[0]) {
          assert y in Elems(rest);
        }
      }
      assert (x in s) == (x in s[1..]);
      [s[0]] + rest
  }

  /** A strictly descending sequence with the same elements as another strictly
      descending sequence is that sequence: the written index depends only on
      the set of dates. */
  lemma {:induction false} DescendingUnique(a: seq<string>, b: seq<string>)
    requires StrictlyDescending(a) && StrictlyDescending(b)
    requires Elems(a) == Elems(b)
    ensures a == b
  {
    ElemsEmpty(a);
    ElemsEmpty(b);
    if a != [] && b != [] {
      assert a[0] in Elems(b) && b[0] in Elems(a);
      if a[0] != b[0] {
        var i :| 0 <= i < |b| && b[i] == a[0];
        var j :| 0 <= j < |a| && a[j] == b[0];
        assert i > 0 && j > 0;
        LessTransitive(a[0], b[0], a[0]);
        LessIrreflexive(a[0]);
      }
      assert a[0] !in a[1..] by {
        forall k | 0 <= k < |a[1..]| ensures a[1..][k] != a[0] {
          assert Less(a[k + 1], a[0]);
          if a[k + 1] == a[0] {
            LessIrreflexive(a[0]);
          }
        }
      }
      assert b[0] !in b[1..] by {
        forall k | 0 <= k < |b[1..]| ensures b[1..][k] != b[0] {
          assert Less(b[k + 1], b[0]);
          if b[k + 1] == b[0] {
            LessIrreflexive(b[0]);
          }
        }
      }
      assert a == [a[0]] + a[1..] && b == [b[0]] + b[1..];
      assert Elems(a[1..]) == Elems(a) - {a[0]};
      assert Elems(b[1..]) == Elems(b) - {b[0]};
      DescendingUnique(a[1..], b[1..]);
    }
  }

  // ---- the merge ----------------------------------------------------------------------

  /** `sorted(s, reverse=True)` of a set of strings. */
  method SortedDescending(s: set<string>) returns (r: seq<string>)
    ensures StrictlyDescending(r)
    ensures Elems(r) == s
    ensures |r| == |s|
  {
    r := [];
    var rest := s;
    while rest != {}
      invariant StrictlyDescending(r)
      invariant Elems(r) + rest == s
      invariant Elems(r) !! rest
      invariant |r| + |rest| == |s|
      decreases |rest|
    {
      var x :| x in rest;
      assert x !in r by {
        assert x !in Elems(r);
      }
      r := InsertDescending(r, x);
      rest := rest - {x};
    }
  }

  /** `datelist.add(date)` for each new date, `datelist.update(old lines)`, then
      the sorted list that is written back. */
  method MergeIndex(newDates: seq<string>, oldLines: seq<string>) returns (lines: seq<string>)
    ensures Elems(lines) == Elems(newDates) + Elems(oldLines)
    ensures StrictlyDescending(lines)
  {
    var datelist: set<string> := {};
    for i := 0 to |newDates|
      invariant datelist == Elems(newDates[..i])
    {
      assert newDates[..i + 1] == newDates[..i] + [newDates[i]];
      datelist := datelist + {newDates[i]};
    }
    assert newDates[..|newDates|] == newDates;
    datelist := datelist + Elems(oldLines);
    lines := SortedDescending(datelist);
  }

  /** A strictly descending list has no date twice. */
  lemma DescendingHasNoDuplicates(s: seq<string>)
    requires StrictlyDescending(s)
    ensures forall i, j :: 0 <= i < j < |s| ==> s[i] != s[j]
  {
    forall i, j | 0 <= i < j < |s| ensures s[i] != s[j] {
      if s[i] == s[j] {
        LessIrreflexive(s[i]);
      }
    }
  }

  /** Merging dates already listed changes nothing: re-running the same day
      writes back the same index. */
  lemma MergeIsStable(newDates: seq<string>, lines: seq<string>, merged: seq<string>)
    requires StrictlyDescending(lines) && Elems(newDates) <= Elems(lines)
    requires StrictlyDescending(merged) && Elems(merged) == Elems(newDates) + Elems(lines)
    ensures merged == lines
  {
    DescendingUnique(merged, lines);
  }

  // ---- the file text -----------------------------------------------------------------

  /** `"\n".join(lines)`. */
  function Join(lines: seq<string>): string
  {
    if lines == [] then ""
    else if |lines| == 1 then lines[0]
    else lines[0] + "\n" + Join(lines[1..])
  }

  /** `text.splitlines()`, for text whose only line break is "\n": no element
      for a final line break, none at all for the empty text. */
  function SplitLines(text: string): seq<string>
    decreases |text|
  {
    if text == [] then []
    else if '\n' in text then
      var k := FirstNewline(text, 0);
      [text[..k]] + SplitLines(text[k + 1..])
    else [text]
  }

  function FirstNewline(text: string, from: nat): (k: nat)
    requires from <= |text| && '\n' in text[from..]
    ensures from <= k < |text| && text[k] == '\n'
    ensures forall i :: from <= i < k ==> text[i] != '\n'
    decreases |text| - from
  {
    if text[from] == '\n' then from
    else
      assert text[from..] == [text[from]] + text[from + 1..];
      FirstNewline(text, from + 1)
  }

  predicate IsLine(s: string)
  {
    '\n' !in s
  }

  /** A line followed by a line break is split off as the first line. */
  lemma SplitFirst(a: string, tail: string)
    requires IsLine(a)
    ensures SplitLines(a + "\n" + tail) == [a] + SplitLines(tail)
  {
    var t := a + "\n" + tail;
    assert t[|a|] == '\n';
    var k := FirstNewline(t, 0);
    assert forall i :: 0 <= i < |a| ==> t[i] == a[i];
    assert k == |a|;
    assert t[..k] == a;
    assert t[k + 1..] == tail;
  }

  /** Reading back what was written gives the same lines, provided none of
      them holds a line break and the last one is not empty. */
  lemma {:induction false} SplitJoin(lines: seq<string>)
    requires forall i :: 0 <= i < |lines| ==> IsLine(lines[i])
    requires lines != [] ==> lines[|lines| - 1] != []
    ensures SplitLines(Join(lines)) == lines
  {
    if |lines| > 1 {
      SplitFirst(lines[0], Join(lines[1..]));
      SplitJoin(lines[1..]);
      assert lines == [lines[0]] + lines[1..];
    }
  }

  lemma {:induction false} SplitLinesAreLines(text: string)
    ensures forall i :: 0 <= i < |SplitLines(text)| ==> IsLine(SplitLines(text)[i])
    decreases |text|
  {
    if text != [] && '\n' in text {
      var k := FirstNewline(text, 0);
      assert forall i :: 0 <= i < k ==> text[..k][i] == text[i];
      SplitLinesAreLines(text[k + 1..]);
    }
  }

  /** The entry point's index update on the file's text. */
  method UpdateIndex(newDates: seq<string>, oldText: string) returns (newText: string)
    ensures var lines := SplitLines(newText);
            (forall i :: 0 <= i < |newDates| ==> IsLine(newDates[i]) && newDates[i] != []) &&
            (forall i :: 0 <= i < |SplitLines(oldText)| ==> SplitLines(oldText)[i] != []) ==>
              Elems(lines) == Elems(newDates) + Elems(SplitLines(oldText)) && StrictlyDescending(lines)
  {
    var oldLines := SplitLines(oldText);
    var lines := MergeIndex(newDates, oldLines);
    newText := Join(lines);
    if (forall i :: 0 <= i < |newDates| ==> IsLine(newDates[i]) && newDates[i] != []) &&
       (forall i :: 0 <= i < |oldLines| ==> oldLines[i] != []) {
      SplitLinesAreLines(oldText);
      forall i | 0 <= i < |lines| ensures IsLine(lines[i]) && lines[i] != [] {
        assert lines[i] in Elems(lines);
      }
      SplitJoin(lines);
    }
  }
}
