/** The few `java.lang.String` operations the generator and the templates
    rely on, stated exactly: `split("\\.")`, `replaceAll("\\.", "/")`,
    `toUpperCase` on one character, and the decimal rendering of an `int`
    or of a possibly-null string inside a concatenation. */
module JavaStrings {
  import opened Base

  /** All the '.'-separated segments of `s`, empty ones included. */
  function Segments(s: string): (parts: seq<string>)
    ensures |parts| >= 1
    decreases |s|
  {
    if |s| == 0 then [""]
    else
      var init := Segments(s[..|s| - 1]);
      var c := s[|s| - 1];
      if c == '.' then init + [""]
      else init[..|init| - 1] + [init[|init| - 1] + [c]]
  }

  /** The inverse of `Segments`: the parts glued back with '.'. */
  function JoinDots(parts: seq<string>): string
    requires |parts| >= 1
  {
    if |parts| == 1 then parts[0]
    else JoinDots(parts[..|parts| - 1]) + "." + parts[|parts| - 1]
  }

  /** `String.split` drops the empty strings at the end of the result. */
  function DropTrailingEmpty(parts: seq<string>): (r: seq<string>)
    ensures r <= parts
  {
    if |parts| > 0 && parts[|parts| - 1] == "" then DropTrailingEmpty(parts[..|parts| - 1])
    else parts
  }

  /** `s.split("\\.")`: an input with no match at all (only the empty string
      here, as every other input either has a '.' or is returned whole)
      gives the one-element array `[s]`. */
  function SplitOnDot(s: string): seq<string> {
    if s == "" then [s] else DropTrailingEmpty(Segments(s))
  }

  /** `parts[parts.length - 1]` for `parts = s.split("\\.")`; `None` stands for
      the `ArrayIndexOutOfBoundsException` raised when the split is empty. */
  function LastOfSplit(s: string): Option<string> {
    var parts := SplitOnDot(s);
    if |parts| == 0 then None else Some(parts[|parts| - 1])
  }

  /** `s.replaceAll("\\.", "/")` and its like: every `from` becomes `to`. */
  function ReplaceChar(s: string, from: char, to: char): string {
    seq(|s|, i requires 0 <= i < |s| => if s[i] == from then to else s[i])
  }

  /** `Character.toUpperCase` on the ASCII letters; other characters unchanged. */
  function ToUpperAscii(c: char): char {
    if 'a' <= c <= 'z' then (c as int - 32) as char else c
  }

  function DigitChar(d: nat): char
    requires d < 10
  {
    "0123456789"[d]
  }

  function NatToString(n: nat): string
    decreases n
  {
    if n < 10 then [DigitChar(n)] else NatToString(n / 10) + [DigitChar(n % 10)]
  }

  /** `Integer.toString(i)`, as used by `"…" + i`. */
  function IntToString(i: int): string {
    if i < 0 then "-" + NatToString(-i) else NatToString(i)
  }

  /** `String.valueOf(s)`, as used by `"…" + s`: a null string reads "null". */
  function StringValueOf(s: Option<string>): string {
    match s
    case None => "null"
    case Some(v) => v
  }

  // ---------------------------------------------------------------------
  // Segments and their inverse

  lemma {:induction false} SegmentsJoin(s: string)
    ensures JoinDots(Segments(s)) == s
    decreases |s|
  {
    if |s| > 0 {
      var t := s[..|s| - 1];
      SegmentsJoin(t);
      assert s == t + [s[|s| - 1]];
      SegmentsJoinStep(t, s[|s| - 1]);
    }
  }

  /** One more character keeps `JoinDots` and `Segments` inverse. */
  lemma SegmentsJoinStep(t: string, c: char)
    requires JoinDots(Segments(t)) == t
    ensures JoinDots(Segments(t + [c])) == t + [c]
  {
    var s := t + [c];
    assert s[..|s| - 1] == t;
    var parts := Segments(t);
    if c == '.' {
      JoinDotsSnoc(parts, "");
    } else {
      var init := parts[..|parts| - 1];
      var last := parts[|parts| - 1];
      assert parts == init + [last];
      JoinDotsExtendLast(init, last, c);
    }
  }

  /** Gluing one more part. */
  lemma JoinDotsSnoc(parts: seq<string>, x: string)
    requires |parts| >= 1
    ensures JoinDots(parts + [x]) == JoinDots(parts) + "." + x
  {
    assert (parts + [x])[..|parts|] == parts;
  }

  /** Extending the last part by one character extends the glued string by it. */
  lemma JoinDotsExtendLast(init: seq<string>, last: string, c: char)
    ensures JoinDots(init + [last + [c]]) == JoinDots(init + [last]) + [c]
  {
    if init == [] {
      assert init + [last + [c]] == [last + [c]];
      assert init + [last] == [last];
    } else {
      JoinDotsSnoc(init, last + [c]);
      JoinDotsSnoc(init, last);
      var j := JoinDots(init);
      assert j + "." + (last + [c]) == (j + "." + last) + [c];
    }
  }

  lemma {:induction false} SegmentsDotFree(s: string)
    ensures forall k :: 0 <= k < |Segments(s)| ==> '.' !in Segments(s)[k]
    decreases |s|
  {
    if |s| > 0 {
      var t := s[..|s| - 1];
      SegmentsDotFree(t);
    }
  }

  /** Appending ".c" with a dot-free `c` adds exactly one segment. */
  lemma {:induction false} SegmentsAppendSegment(p: string, c: string)
    requires '.' !in c
    ensures Segments(p + "." + c) == Segments(p) + [c]
    decreases |c|
  {
    if |c| == 0 {
      assert p + "." + c == p + ".";
      assert (p + ".")[..|p|] == p;
    } else {
      var c' := c[..|c| - 1];
      SegmentsAppendSegment(p, c');
      assert (p + "." + c)[..|p + "." + c| - 1] == p + "." + c';
      assert c' + [c[|c| - 1]] == c;
    }
  }

  lemma {:induction false} SegmentsOfDotFree(s: string)
    requires '.' !in s
    ensures Segments(s) == [s]
    decreases |s|
  {
    if |s| > 0 {
      var t := s[..|s| - 1];
      SegmentsOfDotFree(t);
      assert t + [s[|s| - 1]] == s;
    }
  }

  lemma {:induction false} SegmentsOfDots(s: string)
    requires forall i :: 0 <= i < |s| ==> s[i] == '.'
    ensures forall k :: 0 <= k < |Segments(s)| ==> Segments(s)[k] == ""
    decreases |s|
  {
    if |s| > 0 {
      SegmentsOfDots(s[..|s| - 1]);
    }
  }

  /** A glued string with a character other than '.' has a non-empty part. */
  lemma {:induction false} JoinNonDot(parts: seq<string>, i: nat)
    requires |parts| >= 1 && i < |JoinDots(parts)| && JoinDots(parts)[i] != '.'
    ensures exists k :: 0 <= k < |parts| && parts[k] != ""
    decreases |parts|
  {
    if |parts| == 1 {
      assert parts[0] != "";
    } else {
      var init := parts[..|parts| - 1];
      var j := JoinDots(init);
      if i < |j| {
        assert j[i] == JoinDots(parts)[i];
        JoinNonDot(init, i);
        var k :| 0 <= k < |init| && init[k] != "";
        assert parts[k] == init[k];
      } else {
        assert i != |j|;
        assert parts[|parts| - 1] != "";
      }
    }
  }

  lemma {:induction false} DropTrailingEmptyAllEmpty(parts: seq<string>)
    ensures DropTrailingEmpty(parts) == [] <==> forall k :: 0 <= k < |parts| ==> parts[k] == ""
    decreases |parts|
  {
    if |parts| > 0 && parts[|parts| - 1] == "" {
      var init := parts[..|parts| - 1];
      DropTrailingEmptyAllEmpty(init);
      assert (forall k :: 0 <= k < |parts| ==> parts[k] == "") <==>
             (forall k :: 0 <= k < |init| ==> init[k] == "");
    } else if |parts| > 0 {
      assert parts[|parts| - 1] != "";
    }
  }

  // ---------------------------------------------------------------------
  // What the last segment of a split is

  /** A name without a '.' is its own class name. */
  lemma LastOfSplitDotFree(s: string)
    requires '.' !in s
    ensures LastOfSplit(s) == Some(s)
  {
    if s != "" {
      SegmentsOfDotFree(s);
    }
  }

  /** A qualified name `p.c` whose last part `c` is non-empty yields `c`. */
  lemma LastOfSplitQualified(p: string, c: string)
    requires c != "" && '.' !in c
    ensures LastOfSplit(p + "." + c) == Some(c)
  {
    SegmentsAppendSegment(p, c);
    var parts := Segments(p) + [c];
    assert DropTrailingEmpty(parts) == parts;
  }

  /** The segment returned never contains a '.'. */
  lemma LastOfSplitDotFreeResult(s: string)
    ensures LastOfSplit(s).Some? ==> '.' !in LastOfSplit(s).value
  {
    if s != "" {
      SegmentsDotFree(s);
      var parts := DropTrailingEmpty(Segments(s));
      if |parts| > 0 {
        assert parts[|parts| - 1] == Segments(s)[|parts| - 1];
      }
    }
  }

  /** The split is empty, and indexing it throws, exactly when the name is
      non-empty and made of dots only. */
  lemma LastOfSplitUndefined(s: string)
    ensures LastOfSplit(s).None? <==> (|s| > 0 && forall i :: 0 <= i < |s| ==> s[i] == '.')
  {
    if s != "" {
      var parts := Segments(s);
      DropTrailingEmptyAllEmpty(parts);
      if forall i :: 0 <= i < |s| ==> s[i] == '.' {
        SegmentsOfDots(s);
      } else {
        var i :| 0 <= i < |s| && s[i] != '.';
        SegmentsJoin(s);
        JoinNonDot(parts, i);
      }
    }
  }

  // ---------------------------------------------------------------------
  // Character replacement

  /** Replacing '.' by '/' is undone by replacing '/' by '.', provided the
      original held no '/'. */
  lemma ReplaceCharInverse(s: string, from: char, to: char)
    requires to !in s
    ensures ReplaceChar(ReplaceChar(s, from, to), to, from) == s
  {
  }
}
