/** The training-side text normaliser (`clean_text` in
    backend/train_model.py): lower-case, then delete every character that is
    neither a lower-case ASCII letter nor white space. */
module Preprocess {
  import opened Text

  /** The character class `[a-z\s]` that survives the substitution. */
  predicate Allowed(c: char) { IsLower(c) || PySpace(c) }

  /** `re.sub(r"[^a-z\s]", "", s)`: keeps the allowed characters, in order. */
  function RemoveDisallowed(s: string): (r: string)
    ensures |r| <= |s|
    ensures forall i :: 0 <= i < |r| ==> Allowed(r[i])
  {
    if |s| == 0 then ""
    else (if Allowed(s[0]) then [s[0]] else "") + RemoveDisallowed(s[1..])
  }

  /** `clean_text`: the two steps in the order the source takes them. */
  function CleanText(t: string): (r: string)
    ensures |r| <= |t|
    ensures forall i :: 0 <= i < |r| ==> IsLower(r[i]) || PySpace(r[i])
  {
    RemoveDisallowed(LowerString(t))
  }

  /** A character survives cleaning exactly when it is a letter or white space. */
  predicate Survives(c: char) { IsLetter(c) || PySpace(c) }

  lemma LowerAllowed(c: char)
    ensures Allowed(Lower(c)) <==> Survives(c)
  {
  }

  /** Every character of the output is `a`-`z` or white space. */
  lemma CleanTextAlphabet(t: string)
    ensures forall i :: 0 <= i < |CleanText(t)| ==> IsLower(CleanText(t)[i]) || PySpace(CleanText(t)[i])
  {
  }

  lemma {:induction false} RemoveDisallowedAppend(a: string, b: string)
    ensures RemoveDisallowed(a + b) == RemoveDisallowed(a) + RemoveDisallowed(b)
    decreases |a|
  {
    if |a| == 0 {
      assert a + b == b;
    } else {
      assert (a + b)[1..] == a[1..] + b;
      RemoveDisallowedAppend(a[1..], b);
    }
  }

  /** Cleaning distributes over concatenation: the kept characters stay in
      their original relative order. */
  lemma CleanTextAppend(a: string, b: string)
    ensures CleanText(a + b) == CleanText(a) + CleanText(b)
  {
    assert LowerString(a + b) == LowerString(a) + LowerString(b);
    RemoveDisallowedAppend(LowerString(a), LowerString(b));
  }

  /** On one character: a letter or white space becomes its lower-case form,
      anything else (a digit, punctuation) is deleted. */
  lemma CleanTextChar(c: char)
    ensures CleanText([c]) == if Survives(c) then [Lower(c)] else []
  {
  }

  lemma {:induction false} RemoveDisallowedKeepsAllowed(s: string)
    requires forall i :: 0 <= i < |s| ==> Allowed(s[i])
    ensures RemoveDisallowed(s) == s
    decreases |s|
  {
    if |s| > 0 {
      RemoveDisallowedKeepsAllowed(s[1..]);
    }
  }

  /** Cleaning twice is cleaning once. */
  lemma CleanTextIdempotent(t: string)
    ensures CleanText(CleanText(t)) == CleanText(t)
  {
    var c := CleanText(t);
    assert LowerString(c) == c;
    RemoveDisallowedKeepsAllowed(c);
  }

  lemma {:induction false} RemoveDisallowedLength(s: string)
    ensures |RemoveDisallowed(s)| == |s| <==> forall i :: 0 <= i < |s| ==> Allowed(s[i])
    decreases |s|
  {
    if |s| > 0 {
      RemoveDisallowedLength(s[1..]);
      if forall i :: 0 <= i < |s| ==> Allowed(s[i]) {
        assert forall i :: 0 <= i < |s[1..]| ==> Allowed(s[1..][i]);
      } else if Allowed(s[0]) {
        var i :| 0 <= i < |s| && !Allowed(s[i]);
        assert !Allowed(s[1..][i - 1]);
      }
    }
  }

  /** The output is never longer than the input, and is as long exactly when
      every input character is a letter or white space. */
  lemma CleanTextLength(t: string)
    ensures |CleanText(t)| <= |t|
    ensures |CleanText(t)| == |t| <==> forall i :: 0 <= i < |t| ==> Survives(t[i])
  {
    RemoveDisallowedLength(LowerString(t));
    forall i | 0 <= i < |t| ensures Allowed(LowerString(t)[i]) <==> Survives(t[i]) {
      LowerAllowed(t[i]);
    }
  }
}
