/** Joining strings with a separator (JavaScript's `Array.prototype.join`)
    and its inverse, splitting on a separator character. The prompt is a
    text of lines; these lemmas are what let the model read the lines back
    out of it. */
module Text {

  function Join(parts: seq<string>, sep: string): string {
    if |parts| == 0 then ""
    else if |parts| == 1 then parts[0]
    else parts[0] + sep + Join(parts[1..], sep)
  }

  /** Splits `s` at every occurrence of `c`; `n` occurrences give `n + 1`
      pieces, none of which contains `c`. */
  function Split(s: string, c: char): (r: seq<string>)
    ensures |r| >= 1
    ensures forall k :: 0 <= k < |r| ==> c !in r[k]
  {
    if |s| == 0 then [""]
    else
      var rest := Split(s[1..], c);
      if s[0] == c then [""] + rest else [[s[0]] + rest[0]] + rest[1..]
  }

  /** A piece free of `c`, followed by `c`, splits off as one line. */
  lemma {:induction false} SplitAfterLine(line: string, c: char, t: string)
    requires c !in line
    ensures Split(line + [c] + t, c) == [line] + Split(t, c)
  {
    if |line| == 0 {
      assert line + [c] + t == [c] + t;
      assert ([c] + t)[1..] == t;
    } else {
      SplitAfterLine(line[1..], c, t);
      var s := line + [c] + t;
      assert s[0] == line[0] && s[1..] == line[1..] + [c] + t;
      var rest := Split(s[1..], c);
      assert rest == [line[1..]] + Split(t, c);
      assert rest[0] == line[1..] && rest[1..] == Split(t, c);
      assert [line[0]] + line[1..] == line;
    }
  }

  /** A text free of `c` is a single piece. */
  lemma {:induction false} SplitSingle(line: string, c: char)
    requires c !in line
    ensures Split(line, c) == [line]
  {
    if |line| > 0 {
      SplitSingle(line[1..], c);
      assert [line[0]] + line[1..] == line;
    }
  }

  /** Joining lines free of `c` with `c` and splitting again gives back
      the lines. */
  lemma {:induction false} SplitJoin(lines: seq<string>, c: char)
    requires |lines| >= 1
    requires forall k :: 0 <= k < |lines| ==> c !in lines[k]
    ensures Split(Join(lines, [c]), c) == lines
  {
    if |lines| == 1 {
      SplitSingle(lines[0], c);
    } else {
      SplitJoin(lines[1..], c);
      SplitAfterLine(lines[0], c, Join(lines[1..], [c]));
      assert [lines[0]] + lines[1..] == lines;
    }
  }

  /** Joining a part in front of a non-empty list. */
  lemma JoinCons(x: string, rest: seq<string>, sep: string)
    requires |rest| >= 1
    ensures Join([x] + rest, sep) == x + sep + Join(rest, sep)
  {
    assert ([x] + rest)[1..] == rest;
  }

  /** Joining two non-empty lists is joining their joins. */
  lemma {:induction false} JoinAppend(a: seq<string>, b: seq<string>, sep: string)
    requires |a| >= 1 && |b| >= 1
    ensures Join(a + b, sep) == Join(a, sep) + sep + Join(b, sep)
  {
    if |a| == 1 {
      assert (a + b)[1..] == b;
    } else {
      assert (a + b)[1..] == a[1..] + b;
      JoinAppend(a[1..], b, sep);
    }
  }

  /** Where the `i`-th part starts in `Join(parts, sep)`. */
  function Offset(parts: seq<string>, sep: string, i: nat): nat
    requires i <= |parts|
  {
    if i == 0 then 0 else |parts[0]| + |sep| + Offset(parts[1..], sep, i - 1)
  }

  /** The joined text from the `i`-th part's offset on is the join of
      the parts from `i` on. */
  lemma {:induction false} JoinFrom(parts: seq<string>, sep: string, i: nat)
    requires i < |parts|
    ensures Offset(parts, sep, i) <= |Join(parts, sep)|
    ensures Join(parts, sep)[Offset(parts, sep, i)..] == Join(parts[i..], sep)
  {
    if i > 0 {
      JoinFrom(parts[1..], sep, i - 1);
      var d := |parts[0]| + |sep|;
      assert Join(parts, sep) == parts[0] + sep + Join(parts[1..], sep);
      assert Join(parts, sep)[d..] == Join(parts[1..], sep);
      assert parts[1..][i - 1..] == parts[i..];
    }
  }

  /** Every part appears verbatim in the joined text at its offset,
      followed by the separator when another part comes after it, and the
      next part starts right there: the parts appear in order and do not
      overlap. */
  lemma JoinPartAt(parts: seq<string>, sep: string, i: nat)
    requires i < |parts|
    ensures Offset(parts, sep, i) + |parts[i]| <= |Join(parts, sep)|
    ensures Join(parts, sep)[Offset(parts, sep, i)..Offset(parts, sep, i) + |parts[i]|] == parts[i]
    ensures i + 1 < |parts| ==>
      Offset(parts, sep, i + 1) == Offset(parts, sep, i) + |parts[i]| + |sep|
      && Offset(parts, sep, i + 1) <= |Join(parts, sep)|
      && Join(parts, sep)[Offset(parts, sep, i) + |parts[i]|..Offset(parts, sep, i + 1)] == sep
  {
    JoinFrom(parts, sep, i);
    OffsetStep(parts, sep, i);
    var o := Offset(parts, sep, i);
    var j := Join(parts, sep);
    var tail := Join(parts[i..], sep);
    assert j[o..] == tail;
    if i + 1 < |parts| {
      assert tail == parts[i] + sep + Join(parts[i + 1..], sep) by {
        assert parts[i..][1..] == parts[i + 1..];
      }
      assert j[o..o + |parts[i]|] == tail[..|parts[i]|];
      assert j[o + |parts[i]|..o + |parts[i]| + |sep|] == tail[|parts[i]|..|parts[i]| + |sep|];
    } else {
      assert tail == parts[i];
    }
  }

  lemma {:induction false} OffsetStep(parts: seq<string>, sep: string, i: nat)
    requires i < |parts|
    ensures Offset(parts, sep, i + 1) == Offset(parts, sep, i) + |parts[i]| + |sep|
  {
    if i > 0 {
      OffsetStep(parts[1..], sep, i - 1);
    }
  }

  /** A slice of the middle piece of `pre + mid + post`, read at the
      shifted positions, is that slice of the middle piece. */
  lemma SliceOfMiddle(pre: string, mid: string, post: string, a: nat, b: nat)
    requires a <= b <= |mid|
    ensures (pre + mid + post)[|pre| + a..|pre| + b] == mid[a..b]
  {
    var whole := pre + mid + post;
    assert forall k :: |pre| + a <= k < |pre| + b ==> whole[k] == mid[k - |pre|];
  }
}
