/** `Socket`: sending a text by several system calls, and reading lines from the chunks
    in which the text of the peer arrives. */
module Sockets {
  import opened Tokenizer
  import Sequences

  // ----------------------------------------------------------------- sending

  /** What reached the peer, and the value that `Socket::write` returns. */
  datatype Written = Written(text: string, result: int)

  /** `calls` are the values reported by the system calls one after the other: how many
      characters were taken, zero, or an error. After the last of them the
      connection fails. */
  function Write(text: string, calls: seq<int>): (w: Written)
    decreases |calls|
  {
    var taken := if calls == [] then -1 else calls[0];
    if taken <= 0 then Written("", taken)
    else if taken >= |text| then Written(text, |text|)
    else
      var others := Write(text[taken..], calls[1..]);
      Written(text[..taken] + others.text, After(taken, others.result))
  }

  /** What the `call`-th system call reports when `size` characters are left. */
  function Reported(size: nat, calls: seq<int>, call: nat): (result: int)
    ensures result <= size
  {
    if call >= |calls| then -1 else if calls[call] > size then size else calls[call]
  }

  /** The value returned when `sent` characters had been sent before. */
  function After(sent: nat, result: int): int { if result <= 0 then result else sent + result }

  /** One turn of the loop in `write`. */
  lemma WriteNext(text: string, sent: nat, calls: seq<int>, call: nat, before: string)
    requires sent <= |text| && call <= |calls|
    ensures var w, result := Write(text[sent..], calls[call..]), Reported(|text| - sent, calls, call);
            && (result <= 0 ==> w.result == result && before + w.text == before)
            && (result > 0 && sent + result == |text| ==>
                  w.result == result && before + w.text == before + text[sent..sent + result])
            && (0 < result < |text| - sent ==>
                  var others := Write(text[sent + result..], calls[call + 1..]);
                  && before + w.text == before + text[sent..sent + result] + others.text
                  && After(sent, w.result) == After(sent + result, others.result))
  {
    var left, tail, result := text[sent..], calls[call..], Reported(|text| - sent, calls, call);
    if call < |calls| { assert tail[0] == calls[call] && tail[1..] == calls[call + 1..]; }
    if result <= 0 {
      Sequences.Nothing(before);
    } else if sent + result == |text| {
      assert text[sent..sent + result] == left;
    } else {
      assert left[..result] == text[sent..sent + result] && left[result..] == text[sent + result..];
      Sequences.Assoc(before, left[..result], Write(left[result..], tail[1..]).text);
    }
  }

  /** A positive result means that the whole text was sent; otherwise a proper part of
      it was. */
  lemma {:induction false} WriteIsWhole(text: string, calls: seq<int>)
    requires text != ""
    ensures Write(text, calls).text <= text
    ensures Write(text, calls).result > 0 <==> Write(text, calls).text == text
    ensures Write(text, calls).result > 0 ==> Write(text, calls).result == |text|
    decreases |calls|
  {
    var taken := if calls == [] then -1 else calls[0];
    if 0 < taken < |text| {
      WriteIsWhole(text[taken..], calls[1..]);
      assert text == text[..taken] + text[taken..];
    }
  }

  /** Only a system call that takes nothing makes `write` return zero. */
  lemma {:induction false} ZeroIsReported(text: string, calls: seq<int>)
    requires Write(text, calls).result == 0
    ensures text == "" || 0 in calls
    decreases |calls|
  {
    if calls != [] && 0 < calls[0] < |text| { ZeroIsReported(text[calls[0]..], calls[1..]); }
  }

  function Total(taken: seq<int>): int { if taken == [] then 0 else taken[0] + Total(taken[1..]) }

  predicate AllPositive(taken: seq<int>) { forall k :: 0 <= k < |taken| ==> taken[k] > 0 }

  lemma {:induction false} TotalPositive(taken: seq<int>)
    requires AllPositive(taken)
    ensures Total(taken) >= 0 && (taken != [] ==> Total(taken) > 0)
  {
    if taken != [] { TotalPositive(taken[1..]); }
  }

  /** The first call that takes nothing ends the sending: what was taken before has been
      sent, and its value is returned. */
  lemma {:induction false} WriteStops(text: string, taken: seq<int>, failed: int, more: seq<int>)
    requires AllPositive(taken) && Total(taken) < |text| && failed <= 0
    ensures 0 <= Total(taken) && Write(text, taken + [failed] + more) == Written(text[..Total(taken)], failed)
    decreases |taken|
  {
    TotalPositive(taken);
    var calls := taken + [failed] + more;
    if taken != [] {
      TotalPositive(taken[1..]);
      assert calls[0] == taken[0] && calls[1..] == taken[1..] + [failed] + more;
      WriteStops(text[taken[0]..], taken[1..], failed, more);
      assert text[..Total(taken)] == text[..taken[0]] + text[taken[0]..][..Total(taken[1..])];
    }
  }

  /** When the calls have taken the whole text the sending ends. */
  lemma {:induction false} WriteEnds(text: string, taken: seq<int>, last: int, more: seq<int>)
    requires AllPositive(taken) && Total(taken) < |text| <= Total(taken) + last
    ensures Write(text, taken + [last] + more) == Written(text, |text|)
    decreases |taken|
  {
    var calls := taken + [last] + more;
    if taken != [] {
      TotalPositive(taken[1..]);
      assert calls[0] == taken[0] && calls[1..] == taken[1..] + [last] + more;
      WriteEnds(text[taken[0]..], taken[1..], last, more);
      assert text == text[..taken[0]] + text[taken[0]..];
    }
  }

  // ----------------------------------------------------------- lines and chunks

  /** The lines of a text; the last one may lack its newline. */
  function LinesOf(text: string): seq<string>
    decreases |text|
  {
    if text == "" then []
    else
      var pos := Find(text, "\n");
      [text[..pos]] + if pos == |text| then [] else LinesOf(text[pos + 1..])
  }

  /** What `readLine` gives one after the other: a line ends at a newline or where its
      chunk ends. */
  function ChunkLines(chunks: seq<string>): seq<string> {
    if chunks == [] then [] else LinesOf(chunks[0]) + ChunkLines(chunks[1..])
  }

  function Joined(chunks: seq<string>): string {
    if chunks == [] then "" else chunks[0] + Joined(chunks[1..])
  }

  predicate EndsLine(text: string) { text != "" && text[|text| - 1] == '\n' }

  /** A chunk has at least one character. */
  predicate Received(chunks: seq<string>) { forall k :: 0 <= k < |chunks| ==> chunks[k] != "" }

  /** No chunk but the last ends inside a line. */
  predicate CutAtLines(chunks: seq<string>) { forall k :: 0 <= k < |chunks| - 1 ==> EndsLine(chunks[k]) }

  lemma LinesFirst(front: string, rest: string)
    requires Inline(front)
    ensures LinesOf(front + "\n" + rest) == [front] + LinesOf(rest)
  {
    hide Find;
    var text := front + ['\n'] + rest;
    assert front + "\n" + rest == text;
    FindAfter(front, '\n', rest);
    assert text[..|front|] == front && text[|front| + 1..] == rest;
  }

  predicate Inline(text: string) { forall k :: 0 <= k < |text| ==> text[k] != '\n' }

  lemma LastLine(text: string)
    requires Inline(text) && text != ""
    ensures LinesOf(text) == [text]
  {
    FindNone(text, '\n');
    assert text[..|text|] == text;
  }

  /** A text is its first line and the others. */
  lemma FirstLine(text: string) returns (front: string, rest: string)
    requires text != "" && Find(text, "\n") < |text|
    ensures text == front + "\n" + rest && Inline(front) && |rest| < |text|
  {
    var pos := Find(text, "\n");
    FindIsFirst(text, "\n");
    front, rest := text[..pos], text[pos + 1..];
    assert text[pos..pos + 1] == "\n";
    assert text == text[..pos] + text[pos..pos + 1] + text[pos + 1..];
    forall k | 0 <= k < |front| ensures front[k] != '\n' {
      assert !OccursAt(text, "\n", k);
      assert text[k..k + 1] == [text[k]];
    }
  }

  lemma NoNewline(text: string)
    requires Find(text, "\n") == |text|
    ensures Inline(text)
  {
    NotFoundMeansAbsent(text, "\n");
    forall k | 0 <= k < |text| ensures text[k] != '\n' {
      assert !OccursAt(text, "\n", k);
      assert text[k..k + 1] == [text[k]];
    }
  }

  /** Cut behind a newline, or nowhere, a text keeps its lines; cut inside a line it
      has one more. */
  lemma {:induction false} CutLines(a: string, b: string)
    ensures a == "" || b == "" || EndsLine(a) ==> LinesOf(a + b) == LinesOf(a) + LinesOf(b)
    ensures !(a == "" || b == "" || EndsLine(a)) ==> |LinesOf(a + b)| == |LinesOf(a)| + |LinesOf(b)| - 1
    decreases |a|
  {
    hide Find, LinesOf;
    NoLines();
    Sequences.Nothing(LinesOf(a));
    Sequences.Nothing(LinesOf(b));
    Sequences.Nothing(a);
    Sequences.Nothing(b);
    if a != "" && b != "" {
      if Find(a, "\n") == |a| {
        NoNewline(a);
        CutLast(a, b);
      } else {
        var front, rest := FirstLine(a);
        CutLines(rest, b);
        assert a + b == front + "\n" + (rest + b);
        LinesFirst(front, rest);
        LinesFirst(front, rest + b);
        Sequences.Assoc([front], LinesOf(rest), LinesOf(b));
        assert rest != "" ==> rest[|rest| - 1] == a[|a| - 1];
        if rest == "" { Sequences.Nothing(b); }
      }
    }
  }

  lemma NoLines()
    ensures LinesOf("") == []
  {
  }

  /** The cut is inside the last line of `a`. */
  lemma CutLast(a: string, b: string)
    requires Inline(a) && a != "" && b != ""
    ensures !EndsLine(a) && |LinesOf(a + b)| == |LinesOf(a)| + |LinesOf(b)| - 1
  {
    hide Find, LinesOf;
    LastLine(a);
    if Find(b, "\n") == |b| {
      NoNewline(b);
      LastLine(b);
      LastLine(a + b);
    } else {
      var front, rest := FirstLine(b);
      assert a + b == (a + front) + "\n" + rest;
      LinesFirst(front, rest);
      LinesFirst(a + front, rest);
    }
  }

  /** Reading from chunks: at least as many lines as in the text itself, and exactly
      those lines if and only if no chunk ends inside a line. */
  lemma {:induction false} ChunksAreLines(chunks: seq<string>)
    requires Received(chunks)
    ensures |ChunkLines(chunks)| >= |LinesOf(Joined(chunks))|
    ensures CutAtLines(chunks) <==> ChunkLines(chunks) == LinesOf(Joined(chunks))
    ensures CutAtLines(chunks) <==> |ChunkLines(chunks)| == |LinesOf(Joined(chunks))|
  {
    hide LinesOf;
    NoLines();
    if chunks != [] {
      var first, others := chunks[0], chunks[1..];
      assert forall k :: 0 <= k < |others| ==> others[k] == chunks[k + 1];
      ChunksAreLines(others);
      CutLines(first, Joined(others));
      if others == [] {
        Sequences.Nothing(first);
        Sequences.Nothing(LinesOf(first));
      } else {
        assert Joined(others) != "" by { assert others[0] != ""; }
        assert CutAtLines(chunks) <==> EndsLine(first) && CutAtLines(others);
      }
    }
  }

  /** A cut inside a line reads like one more newline. */
  lemma {:induction false} CutIsNewline(a: string, b: string)
    requires a != "" && !EndsLine(a)
    ensures ChunkLines([a, b]) == LinesOf(a + "\n" + b)
  {
    hide Find, LinesOf;
    assert [a, b][1..] == [b] && [b][1..] == [];
    Sequences.Nothing(LinesOf(b));
    assert ChunkLines([b]) == LinesOf(b) + ChunkLines([]);
    CutLines(a + "\n", b);
    LineEnded(a);
  }

  lemma {:induction false} LineEnded(a: string)
    requires a != "" && !EndsLine(a)
    ensures LinesOf(a + "\n") == LinesOf(a)
    decreases |a|
  {
    hide Find, LinesOf;
    NoLines();
    if Find(a, "\n") == |a| {
      NoNewline(a);
      LastLine(a);
      LinesFirst(a, "");
      Sequences.Nothing(a + "\n");
      Sequences.Nothing([a]);
    } else {
      var front, rest := FirstLine(a);
      assert rest != "" && rest[|rest| - 1] == a[|a| - 1];
      LineEnded(rest);
      LinesFirst(front, rest);
      LinesFirst(front, rest + "\n");
      assert a + "\n" == front + "\n" + (rest + "\n");
    }
  }

  // --------------------------------------------------------------- the socket

  /** A socket: its descriptor, the received text that is not yet read, the chunks that
      will still be received before the peer closes, and what has been sent. All
      copies of a socket share these. */
  class Connection {
    /** Sockets are compared by descriptor, and the stop condition of a queue of sockets
        is a socket that was never opened, whose descriptor is -1: a connection that is
        closed while it waits in the queue would be taken for a stop. Only a system
        call that takes nothing of a frame could do that, and no frame is empty. */
    var descriptor: int
    var input: string
    var incoming: seq<string>
    var output: string

    constructor (descriptor: nat)
      ensures this.descriptor == descriptor && input == "" && incoming == [] && output == "" && Lines() == []
    {
      this.descriptor, input, incoming, output := descriptor, "", [], "";
    }

    /** The lines that will be read until the end of the stream. */
    function Lines(): seq<string>
      reads this`input, this`incoming
    {
      LinesOf(input) + ChunkLines(incoming)
    }

    /** At the end of the stream the socket is closed. */
    method ReadLine() returns (ok: bool, line: string)
      modifies `input, `incoming, `descriptor
      ensures ok == (old(Lines()) != [])
      ensures ok ==> old(Lines()) == [line] + Lines() && descriptor == old(descriptor)
      ensures !ok ==> Lines() == [] && descriptor == -1
    {
      line := "";
      while input == ""
        invariant Lines() == old(Lines()) && descriptor == old(descriptor)
        decreases |incoming|
      {
        if incoming == [] {
          descriptor := -1;
          return false, line;
        }
        input, incoming := incoming[0], incoming[1..];
      }
      var pos := Find(input, "\n");
      ghost var others := ChunkLines(incoming);
      line := input[..pos];
      ghost var rest := if pos == |input| then "" else input[pos + 1..];
      Sequences.Assoc([line], LinesOf(rest), others);
      input := if pos == |input| then "" else input[pos + 1..];
      ok := true;
    }

    /** `send` turns the returned value into a truth value, so an error counts like a
        success; zero closes the socket and is the only failure. */
    method Send(text: string, calls: seq<int>) returns (success: bool)
      modifies `output, `descriptor
      ensures var w := Write(text, calls);
              && output == old(output) + w.text && success == (w.result != 0)
              && descriptor == if w.result == 0 then -1 else old(descriptor)
    {
      hide Write, LinesOf, ChunkLines;
      var sent, call := 0, 0;
      ghost var whole := Write(text, calls);
      assert text[0..] == text && calls[0..] == calls && output + whole.text == old(output) + whole.text;
      while true
        invariant 0 <= sent <= |text| && 0 <= call <= |calls| && descriptor == old(descriptor)
        invariant output + Write(text[sent..], calls[call..]).text == old(output) + whole.text
        invariant whole.result == After(sent, Write(text[sent..], calls[call..]).result)
        decreases |calls| - call
      {
        var result := Reported(|text| - sent, calls, call);
        WriteNext(text, sent, calls, call, output);
        if result == 0 { descriptor := -1; }
        if result <= 0 { return result != 0; }
        output := output + text[sent..sent + result];
        sent := sent + result;
        call := call + 1;
        if sent >= |text| { return true; }
      }
    }
  }
}
