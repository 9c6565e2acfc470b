/** The review list the batch handler sends:
    `bulkReviews.split('\n').filter(r => r.trim())`. */
module BulkInput {
  import opened Text

  predicate NoNewline(s: string) { forall i :: 0 <= i < |s| ==> s[i] != '\n' }

  /** `split('\n')`: the pieces between line feeds; the empty string gives
      one empty piece. */
  function SplitLines(s: string): (r: seq<string>)
    ensures |r| >= 1
  {
    if |s| == 0 then [""]
    else
      var rest := SplitLines(s[1..]);
      if s[0] == '\n' then [""] + rest
      else [[s[0]] + rest[0]] + rest[1..]
  }

  /** `join('\n')`, the inverse of the split. */
  function JoinLines(r: seq<string>): string
    requires |r| >= 1
  {
    if |r| == 1 then r[0] else r[0] + "\n" + JoinLines(r[1..])
  }

  /** Putting a character in front of the first piece puts it in front of
      the joined string. */
  lemma JoinExtendFirst(c: char, r: seq<string>)
    requires |r| >= 1
    ensures JoinLines([[c] + r[0]] + r[1..]) == [c] + JoinLines(r)
  {
  }

  /** Splitting loses nothing: joining the pieces gives back the input. */
  lemma {:induction false} JoinSplit(s: string)
    ensures JoinLines(SplitLines(s)) == s
    decreases |s|
  {
    if |s| > 0 {
      var rest := SplitLines(s[1..]);
      JoinSplit(s[1..]);
      assert s == [s[0]] + s[1..];
      if s[0] == '\n' {
        assert ([""] + rest)[1..] == rest;
        assert JoinLines([""] + rest) == "" + "\n" + JoinLines(rest);
      } else {
        JoinExtendFirst(s[0], rest);
      }
    }
  }

  lemma {:induction false} SplitPrefix(x: string, t: string)
    requires NoNewline(x)
    ensures SplitLines(x + t) == [x + SplitLines(t)[0]] + SplitLines(t)[1..]
    decreases |x|
  {
    if |x| == 0 {
      var r := SplitLines(t);
      assert x + t == t;
      assert x + r[0] == r[0];
      assert r == [r[0]] + r[1..];
    } else {
      assert (x + t)[1..] == x[1..] + t;
      SplitPrefix(x[1..], t);
      assert [x[0]] + (x[1..] + SplitLines(t)[0]) == x + SplitLines(t)[0];
    }
  }

  /** Joining pieces free of line feeds and splitting again gives the pieces
      back. */
  lemma {:induction false} SplitJoin(r: seq<string>)
    requires |r| >= 1
    requires forall k :: 0 <= k < |r| ==> NoNewline(r[k])
    ensures SplitLines(JoinLines(r)) == r
    decreases |r|
  {
    if |r| == 1 {
      SplitPrefix(r[0], "");
      assert r[0] + "" == r[0];
    } else {
      var j := JoinLines(r[1..]);
      SplitJoin(r[1..]);
      assert r[0] + "\n" + j == r[0] + ("\n" + j);
      SplitPrefix(r[0], "\n" + j);
      assert ("\n" + j)[1..] == j;
      assert SplitLines("\n" + j) == [""] + r[1..];
      assert r[0] + "" == r[0];
    }
  }

  /** `filter(r => r.trim())`: the non-blank lines, in order, untrimmed. */
  function KeepNonBlank(lines: seq<string>): (r: seq<string>)
    ensures |r| <= |lines|
  {
    if |lines| == 0 then []
    else (if IsBlank(lines[0]) then [] else [lines[0]]) + KeepNonBlank(lines[1..])
  }

  /** The filter keeps order: filtering a concatenation is concatenating
      the filtered parts. */
  lemma {:induction false} KeepNonBlankAppend(a: seq<string>, b: seq<string>)
    ensures KeepNonBlank(a + b) == KeepNonBlank(a) + KeepNonBlank(b)
    decreases |a|
  {
    if |a| == 0 {
      assert a + b == b;
    } else {
      var head := if IsBlank(a[0]) then [] else [a[0]];
      assert (a + b)[0] == a[0];
      assert (a + b)[1..] == a[1..] + b;
      assert KeepNonBlank(a + b) == head + KeepNonBlank(a[1..] + b);
      KeepNonBlankAppend(a[1..], b);
    }
  }

  /** A line survives the filter exactly when it is not blank. */
  lemma KeepNonBlankLine(line: string)
    ensures KeepNonBlank([line]) == if IsBlank(line) then [] else [line]
  {
  }

  lemma {:induction false} KeepNonBlankEmpty(lines: seq<string>)
    ensures KeepNonBlank(lines) == [] <==> forall k :: 0 <= k < |lines| ==> IsBlank(lines[k])
    decreases |lines|
  {
    if |lines| > 0 {
      KeepNonBlankEmpty(lines[1..]);
      assert forall k :: 1 <= k < |lines| ==> lines[k] == lines[1..][k - 1];
    }
  }

  lemma AllSpaceConcat(x: string, y: string)
    ensures AllSpace(x + y) <==> AllSpace(x) && AllSpace(y)
  {
    if AllSpace(x) && AllSpace(y) {
      forall i | 0 <= i < |x + y| ensures JsSpace((x + y)[i]) {
        if i >= |x| { assert (x + y)[i] == y[i - |x|]; }
      }
    }
    if AllSpace(x + y) {
      forall i | 0 <= i < |y| ensures JsSpace(y[i]) {
        assert y[i] == (x + y)[|x| + i];
      }
      forall i | 0 <= i < |x| ensures JsSpace(x[i]) {
        assert x[i] == (x + y)[i];
      }
    }
  }

  lemma {:induction false} AllSpaceJoin(r: seq<string>)
    requires |r| >= 1
    ensures AllSpace(JoinLines(r)) <==> forall k :: 0 <= k < |r| ==> AllSpace(r[k])
    decreases |r|
  {
    if |r| > 1 {
      AllSpaceJoin(r[1..]);
      var j := JoinLines(r[1..]);
      assert JoinLines(r) == r[0] + ("\n" + j);
      AllSpaceConcat(r[0], "\n" + j);
      AllSpaceConcat("\n", j);
      assert forall k :: 1 <= k < |r| ==> r[k] == r[1..][k - 1];
    }
  }

  /** The list of reviews a batch request carries: empty exactly when the
      whole input is blank. */
  function ReviewList(s: string): (r: seq<string>)
    ensures r == [] <==> IsBlank(s)
  {
    ReviewListEmpty(s);
    KeepNonBlank(SplitLines(s))
  }

  /** The filtered split is empty exactly when the whole input is blank. */
  lemma ReviewListEmpty(s: string)
    ensures KeepNonBlank(SplitLines(s)) == [] <==> IsBlank(s)
  {
    var pieces := SplitLines(s);
    KeepNonBlankEmpty(pieces);
    JoinSplit(s);
    AllSpaceJoin(pieces);
    BlankIff(s);
    forall k | 0 <= k < |pieces| ensures IsBlank(pieces[k]) <==> AllSpace(pieces[k]) {
      BlankIff(pieces[k]);
    }
  }

  function RequestReviews(s: string): (r: seq<string>)
    requires !IsBlank(s)
    ensures r == ReviewList(s) && |r| > 0
  {
    ReviewListEmpty(s);
    ReviewList(s)
  }

  /** No piece of the split contains a line feed. */
  lemma {:induction false} SplitLinesNoNewline(s: string)
    ensures forall k :: 0 <= k < |SplitLines(s)| ==> NoNewline(SplitLines(s)[k])
    decreases |s|
  {
    if |s| > 0 {
      SplitLinesNoNewline(s[1..]);
    }
  }

  /** The filter keeps only lines of its input, and only non-blank ones. */
  lemma {:induction false} KeepNonBlankMembers(lines: seq<string>)
    ensures forall k :: 0 <= k < |KeepNonBlank(lines)| ==>
      !IsBlank(KeepNonBlank(lines)[k]) && KeepNonBlank(lines)[k] in lines
    decreases |lines|
  {
    if |lines| > 0 {
      KeepNonBlankMembers(lines[1..]);
    }
  }

  /** Every review sent is a whole line of the input (no line feed in it),
      not blank, and left untrimmed. */
  lemma ReviewListLines(s: string)
    ensures forall k :: 0 <= k < |ReviewList(s)| ==>
      ReviewList(s)[k] in SplitLines(s) && NoNewline(ReviewList(s)[k]) && !IsBlank(ReviewList(s)[k])
  {
    SplitLinesNoNewline(s);
    KeepNonBlankMembers(SplitLines(s));
  }
}
