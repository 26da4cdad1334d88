/** `Util::tokenize`, for delimiters of any length. */
module Tokenizer {

  /** `text.find(delim)`, with the length of the text instead of `npos`. */
  function Find(text: string, delim: string): (pos: nat)
    ensures pos <= |text|
  {
    if text == [] || delim <= text then 0 else 1 + Find(text[1..], delim)
  }

  ghost predicate OccursAt(text: string, delim: string, at: int) {
    0 <= at && at + |delim| <= |text| && text[at..at + |delim|] == delim
  }

  ghost predicate Occurs(text: string, delim: string) { exists at :: OccursAt(text, delim, at) }

  /** Every token ends at the next occurrence of the delimiter and the next token
      starts one character after that. */
  function Split(text: string, delim: string): (tokens: seq<string>)
    ensures tokens != []
    decreases |text|
  {
    var pos := Find(text, delim);
    if pos == |text| then [text] else [text[..pos]] + Split(text[pos + 1..], delim)
  }

  function NonEmpty(tokens: seq<string>): seq<string> {
    if tokens == [] then []
    else (if tokens[0] == [] then [] else [tokens[0]]) + NonEmpty(tokens[1..])
  }

  function Kept(tokens: seq<string>, trimEmpty: bool): seq<string> {
    if trimEmpty then NonEmpty(tokens) else tokens
  }

  function Join(tokens: seq<string>, delim: string): string {
    if tokens == [] then [] else if |tokens| == 1 then tokens[0]
    else tokens[0] + delim + Join(tokens[1..], delim)
  }

  // -------------------------------------------------------------- the program

  method Tokenize(text: string, tokens: seq<string>, delim: string, trimEmpty: bool) returns (out: seq<string>)
    ensures out == tokens + Kept(Split(text, delim), trimEmpty)
  {
    hide Split, Find, Kept;
    out := tokens;
    var length := |text|;
    var lastPos := 0;
    ghost var rest := Split(text, delim);
    assert text[0..] == text;
    while lastPos < length + 1
      invariant 0 <= lastPos <= length + 1
      invariant rest == if lastPos <= length then Split(text[lastPos..], delim) else []
      invariant out + Kept(rest, trimEmpty) == tokens + Kept(Split(text, delim), trimEmpty)
    {
      var pos := lastPos + Find(text[lastPos..], delim);
      var token := text[lastPos..pos];
      ghost var next := if pos == length then [] else Split(text[pos + 1..], delim);
      OneToken(text, delim, lastPos, pos);
      KeptFirst(token, next, trimEmpty);
      ghost var kept := if token != [] || !trimEmpty then [token] else [];
      assert out + (kept + Kept(next, trimEmpty)) == (out + kept) + Kept(next, trimEmpty);
      if pos != lastPos || !trimEmpty {
        out := out + [token];
      }
      rest := next;
      lastPos := pos + 1;
    }
    KeptNothing(trimEmpty);
  }

  lemma KeptNothing(trimEmpty: bool)
    ensures Kept([], trimEmpty) == []
  {
  }

  lemma KeptFirst(token: string, next: seq<string>, trimEmpty: bool)
    ensures Kept([token] + next, trimEmpty)
         == (if token != [] || !trimEmpty then [token] else []) + Kept(next, trimEmpty)
  {
    assert ([token] + next)[1..] == next;
  }

  lemma OneToken(text: string, delim: string, lastPos: int, pos: int)
    requires 0 <= lastPos <= |text| && pos == lastPos + Find(text[lastPos..], delim)
    ensures Split(text[lastPos..], delim)
         == [text[lastPos..pos]] + if pos == |text| then [] else Split(text[pos + 1..], delim)
  {
    hide Find;
    var suffix := text[lastPos..];
    assert suffix[..pos - lastPos] == text[lastPos..pos];
    if pos < |text| {
      assert suffix[pos - lastPos + 1..] == text[pos + 1..];
    } else {
      assert suffix == text[lastPos..pos];
    }
  }

  // ------------------------------------------------------------------ finding

  /** `Find` gives the first occurrence. */
  lemma {:induction false} FindIsFirst(text: string, delim: string)
    ensures var pos := Find(text, delim);
            && (pos < |text| ==> OccursAt(text, delim, pos))
            && (forall at :: 0 <= at < pos ==> !OccursAt(text, delim, at))
  {
    var pos := Find(text, delim);
    if text == [] || delim <= text {
    } else {
      FindIsFirst(text[1..], delim);
      forall at | 0 <= at < pos ensures !OccursAt(text, delim, at) {
        if at > 0 { ShiftOccurrence(text, delim, at); }
      }
      if pos < |text| { ShiftOccurrence(text, delim, pos); }
    }
  }

  lemma ShiftOccurrence(text: string, delim: string, at: int)
    requires at >= 1 && text != []
    ensures OccursAt(text, delim, at) <==> OccursAt(text[1..], delim, at - 1)
  {
    var end := at + |delim|;
    if end <= |text| {
      var here, there := text[at..end], text[1..][at - 1..end - 1];
      assert |here| == |there| && forall n :: 0 <= n < |here| ==> here[n] == text[at + n] == there[n];
      assert here == there;
    }
  }

  lemma NotFoundMeansAbsent(text: string, delim: string)
    requires delim != []
    ensures Find(text, delim) == |text| <==> !Occurs(text, delim)
  {
    FindIsFirst(text, delim);
    if Find(text, delim) == |text| {
      forall at ensures !OccursAt(text, delim, at) {}
    }
  }

  lemma OccursInFront(text: string, delim: string, pos: nat, at: int)
    requires pos <= |text| && delim != []
    ensures OccursAt(text[..pos], delim, at) ==> OccursAt(text, delim, at) && at < pos
  {
    if 0 <= at && at + |delim| <= pos {
      var end := at + |delim|;
      var inner, outer := text[..pos][at..end], text[at..end];
      assert |inner| == |outer| && forall n :: 0 <= n < |inner| ==> inner[n] == text[at + n] == outer[n];
      assert inner == outer;
    }
  }

  // --------------------------------------------------------------- properties

  /** No token contains the delimiter. */
  lemma {:induction false} TokensAvoidDelimiter(text: string, delim: string, k: nat)
    requires delim != [] && k < |Split(text, delim)|
    ensures !Occurs(Split(text, delim)[k], delim)
    decreases |text|
  {
    var pos := Find(text, delim);
    if k > 0 {
      TokensAvoidDelimiter(text[pos + 1..], delim, k - 1);
    } else {
      FindIsFirst(text, delim);
      forall at ensures !OccursAt(text[..pos], delim, at) {
        OccursInFront(text, delim, pos, at);
      }
    }
  }

  /** Joining the untrimmed tokens gives a text of this length back. */
  lemma {:induction false} JoinLength(text: string, delim: string)
    ensures |Join(Split(text, delim), delim)| == |text| + (|Split(text, delim)| - 1) * (|delim| - 1)
    decreases |text|
  {
    hide Find, Join;
    var pos := Find(text, delim);
    if pos < |text| {
      var rest := text[pos + 1..];
      JoinLength(rest, delim);
      JoinFirst(text, delim);
      OneMore(|Split(rest, delim)|, |delim| - 1);
    } else {
      JoinAlone(text, delim);
    }
  }

  lemma OneMore(n: int, d: int)
    ensures n * d == (n - 1) * d + d
  {
  }

  lemma JoinAlone(token: string, delim: string)
    ensures Join([token], delim) == token
  {
  }

  lemma {:induction false} JoinSingle(text: string, delim: string)
    requires |delim| == 1
    ensures Join(Split(text, delim), delim) == text
    decreases |text|
  {
    hide Find, Split, Join;
    var pos := Find(text, delim);
    if pos < |text| {
      JoinSingle(text[pos + 1..], delim);
      JoinFirst(text, delim);
      FindIsFirst(text, delim);
      assert OccursAt(text, delim, pos);
      assert text == text[..pos] + text[pos..pos + 1] + text[pos + 1..];
    } else {
      Unsplit(text, delim);
    }
  }

  lemma Unsplit(text: string, delim: string)
    requires Find(text, delim) == |text|
    ensures Split(text, delim) == [text] && Join(Split(text, delim), delim) == text
  {
  }

  lemma SplitTwice(text: string, delim: string)
    requires Find(text, delim) < |text|
    ensures |Split(text, delim)| >= 2
  {
    hide Find;
  }

  /** Joining undoes splitting exactly when the delimiter is one character long
      or nothing was split. For longer delimiters the scan resumes inside the
      occurrence it has just found. */
  lemma JoinSplit(text: string, delim: string)
    ensures Join(Split(text, delim), delim) == text
       <==> |delim| == 1 || Find(text, delim) == |text|
  {
    hide Find, Split, Join;
    if |delim| == 1 {
      JoinSingle(text, delim);
    } else if Find(text, delim) == |text| {
      Unsplit(text, delim);
    } else {
      SplitTwice(text, delim);
      JoinLength(text, delim);
      NotZero(|Split(text, delim)| - 1, |delim| - 1);
    }
  }

  lemma NotZero(n: int, d: int)
    requires n >= 1 && d != 0 && d >= -1
    ensures n * d != 0
  {
    if d > 0 { assert (n - 1) * d >= 0; }
  }

  lemma JoinFirst(text: string, delim: string)
    requires Find(text, delim) < |text|
    ensures var pos := Find(text, delim);
            Join(Split(text, delim), delim) == text[..pos] + delim + Join(Split(text[pos + 1..], delim), delim)
  {
    assert Split(text, delim)[1..] == Split(text[Find(text, delim) + 1..], delim);
  }

  /** Trimming works token by token. */
  lemma {:induction false} NonEmptyConcat(a: seq<string>, b: seq<string>)
    ensures NonEmpty(a + b) == NonEmpty(a) + NonEmpty(b)
  {
    hide NonEmpty;
    if a == [] {
      KeptNothing(true);
      assert a + b == b && [] + NonEmpty(b) == NonEmpty(b);
    } else {
      var rest := a[1..];
      NonEmptyConcat(rest, b);
      KeptFirst(a[0], rest, true);
      KeptFirst(a[0], rest + b, true);
      var kept := if a[0] == [] then [] else [a[0]];
      assert a == [a[0]] + rest && a + b == [a[0]] + (rest + b);
      assert kept + (NonEmpty(rest) + NonEmpty(b)) == (kept + NonEmpty(rest)) + NonEmpty(b);
    }
  }

  /** The trimmed tokens are the others in the same order: each of them stands
      behind the trimmed tokens of what precedes it. */
  lemma TrimmedPosition(tokens: seq<string>, k: nat)
    requires k < |tokens| && tokens[k] != []
    ensures var place := |NonEmpty(tokens[..k])|;
            place < |NonEmpty(tokens)| && NonEmpty(tokens)[place] == tokens[k]
  {
    hide NonEmpty;
    assert tokens == tokens[..k] + ([tokens[k]] + tokens[k + 1..]);
    NonEmptyConcat(tokens[..k], [tokens[k]] + tokens[k + 1..]);
    KeptFirst(tokens[k], tokens[k + 1..], true);
  }

  /** And there are no more of them: as many as non-empty tokens, none empty. */
  lemma {:induction false} TrimmedCount(tokens: seq<string>, t: string)
    ensures multiset(NonEmpty(tokens))[t] == if t == [] then 0 else multiset(tokens)[t]
  {
    if tokens != [] {
      TrimmedCount(tokens[1..], t);
      assert tokens == [tokens[0]] + tokens[1..];
    }
  }

  // --------------------------------------------------- texts with known tokens

  /** The first occurrence of a character that the front of the text avoids. */
  lemma {:induction false} FindAfter(front: string, c: char, rest: string)
    requires forall k :: 0 <= k < |front| ==> front[k] != c
    ensures Find(front + [c] + rest, [c]) == |front|
  {
    var text := front + [c] + rest;
    if front != [] {
      FindAfter(front[1..], c, rest);
      assert text[1..] == front[1..] + [c] + rest;
      assert text[0] != c;
    }
  }

  lemma {:induction false} FindNone(text: string, c: char)
    requires forall k :: 0 <= k < |text| ==> text[k] != c
    ensures Find(text, [c]) == |text|
  {
    if text != [] {
      FindNone(text[1..], c);
      assert text[0] != c;
    }
  }

  lemma SplitFirst(front: string, c: char, rest: string)
    requires forall k :: 0 <= k < |front| ==> front[k] != c
    ensures Split(front + [c] + rest, [c]) == [front] + Split(rest, [c])
  {
    var text := front + [c] + rest;
    FindAfter(front, c, rest);
    assert text[..|front|] == front && text[|front| + 1..] == rest;
  }
}
