/** Newline framing of the broker/shim socket, as both ends' onData loops perform it. */
module Framing {
  const NL := '\n'

  predicate OneLine(s: string) {
    NL !in s
  }

  predicate AllOneLine(lines: seq<string>) {
    forall i :: 0 <= i < |lines| ==> OneLine(lines[i])
  }

  /** The position of the first newline, or the length of the text. */
  function Newline(s: string): (n: nat)
    ensures n <= |s| && (n < |s| ==> s[n] == NL)
    ensures forall i :: 0 <= i < n ==> s[i] != NL
  {
    if s == "" || s[0] == NL then 0 else 1 + Newline(s[1..])
  }

  /** Every newline-terminated line of `s`, empty ones included. */
  function Lines(s: string): seq<string>
    decreases |s|
  {
    var n := Newline(s);
    if n == |s| then [] else [s[..n]] + Lines(s[n + 1..])
  }

  /** What is left of `s` behind its last newline. */
  function Residue(s: string): string
    decreases |s|
  {
    var n := Newline(s);
    if n == |s| then s else Residue(s[n + 1..])
  }

  /** The lines that are handed on: empty ones are skipped. */
  function Kept(lines: seq<string>): seq<string> {
    if lines == [] then []
    else (if lines[0] == "" then [] else [lines[0]]) + Kept(lines[1..])
  }

  /** The encoding side: each line followed by a newline. */
  function Unlines(lines: seq<string>): string {
    if lines == [] then "" else lines[0] + [NL] + Unlines(lines[1..])
  }

  function Concat(chunks: seq<string>): string {
    if chunks == [] then "" else chunks[0] + Concat(chunks[1..])
  }

  /** A receiver that starts with `buffer` and gets `chunks` one by one: lines delivered, buffer left. */
  function Feed(buffer: string, chunks: seq<string>): (seq<string>, string)
    decreases |chunks|
  {
    if chunks == [] then ([], buffer) else
      var text := buffer + chunks[0];
      var (later, left) := Feed(Residue(text), chunks[1..]);
      (Kept(Lines(text)) + later, left)
  }

  lemma Assoc<T>(a: seq<T>, b: seq<T>, c: seq<T>)
    ensures (a + b) + c == a + (b + c)
  {
  }

  lemma UnlinesCons(line: string, lines: seq<string>)
    ensures Unlines([line] + lines) == line + [NL] + Unlines(lines)
  {
    assert ([line] + lines)[1..] == lines;
  }

  lemma SplitStep(line: string, tail: string)
    requires OneLine(line)
    ensures Newline(line + [NL] + tail) == |line|
    ensures Lines(line + [NL] + tail) == [line] + Lines(tail)
    ensures Residue(line + [NL] + tail) == Residue(tail)
  {
    var s := line + [NL] + tail;
    var n := Newline(s);
    assert s[|line|] == NL;
    assert forall i :: 0 <= i < |line| ==> s[i] == line[i];
    assert n == |line| && s[..n] == line && s[n + 1..] == tail;
  }

  lemma FeedOne(buffer: string, chunk: string)
    ensures Feed(buffer, [chunk]) == (Kept(Lines(buffer + chunk)), Residue(buffer + chunk))
  {
    var text, one := buffer + chunk, [chunk];
    assert one[1..] == [] && Feed(Residue(text), []) == ([], Residue(text));
    assert Feed(buffer, one) == (Kept(Lines(text)) + [], Residue(text));
    assert Kept(Lines(text)) + [] == Kept(Lines(text));
  }

  /** The lines and the residue account for all of the input, and contain no stray newline. */
  lemma {:induction false} SplitAccounts(s: string)
    ensures Unlines(Lines(s)) + Residue(s) == s
    ensures OneLine(Residue(s))
    ensures AllOneLine(Lines(s))
    decreases |s|
  {
    var n := Newline(s);
    if n < |s| {
      var line, tail := s[..n], s[n + 1..];
      assert s == line + [NL] + tail;
      SplitStep(line, tail);
      SplitAccounts(tail);
      UnlinesCons(line, Lines(tail));
      Assoc(line + [NL], Unlines(Lines(tail)), Residue(tail));
    } else {
      assert s[..n] == s;
    }
  }

  /** There is only one way to cut a text into newline-free lines and a newline-free rest. */
  lemma {:induction false} SplitIsUnique(lines: seq<string>, rest: string)
    requires OneLine(rest) && AllOneLine(lines)
    ensures Lines(Unlines(lines) + rest) == lines
    ensures Residue(Unlines(lines) + rest) == rest
    decreases |lines|
  {
    if lines == [] {
      assert Unlines(lines) + rest == rest;
      assert Newline(rest) < |rest| ==> NL in rest;
    } else {
      SplitIsUnique(lines[1..], rest);
      SplitStep(lines[0], Unlines(lines[1..]) + rest);
      assert Unlines(lines) + rest == lines[0] + [NL] + (Unlines(lines[1..]) + rest);
      assert [lines[0]] + lines[1..] == lines;
    }
  }

  lemma {:induction false} UnlinesAppend(a: seq<string>, b: seq<string>)
    ensures Unlines(a + b) == Unlines(a) + Unlines(b)
    decreases |a|
  {
    if a == [] {
      assert a + b == b;
    } else {
      UnlinesAppend(a[1..], b);
      assert (a + b)[1..] == a[1..] + b;
      assert Unlines(a + b) == a[0] + [NL] + (Unlines(a[1..]) + Unlines(b));
    }
  }

  lemma {:induction false} KeptAppend(a: seq<string>, b: seq<string>)
    ensures Kept(a + b) == Kept(a) + Kept(b)
    decreases |a|
  {
    if a == [] {
      assert a + b == b;
    } else {
      KeptAppend(a[1..], b);
      assert (a + b)[1..] == a[1..] + b;
      Assoc(if a[0] == "" then [] else [a[0]], Kept(a[1..]), Kept(b));
    }
  }

  /** Splitting may be resumed from the residue when more text arrives. */
  lemma SplitResumes(a: string, b: string)
    ensures Lines(a + b) == Lines(a) + Lines(Residue(a) + b)
    ensures Residue(a + b) == Residue(Residue(a) + b)
  {
    var c := Residue(a) + b;
    SplitAccounts(a);
    SplitAccounts(c);
    UnlinesAppend(Lines(a), Lines(c));
    Assoc(Unlines(Lines(a)), Residue(a), b);
    Assoc(Unlines(Lines(a)), Unlines(Lines(c)), Residue(c));
    SplitIsUnique(Lines(a) + Lines(c), Residue(c));
  }

  /** However a text is cut into chunks, the receiver delivers the lines of the whole text. */
  lemma {:induction false} FeedIgnoresChunking(buffer: string, chunks: seq<string>)
    requires OneLine(buffer)
    ensures Feed(buffer, chunks) == (Kept(Lines(buffer + Concat(chunks))), Residue(buffer + Concat(chunks)))
    decreases |chunks|
  {
    if chunks == [] {
      assert buffer + Concat(chunks) == Unlines([]) + buffer;
      SplitIsUnique([], buffer);
    } else {
      var text, later := buffer + chunks[0], Concat(chunks[1..]);
      assert OneLine(Residue(text)) by { SplitAccounts(text); }
      FeedIgnoresChunking(Residue(text), chunks[1..]);
      Assoc(buffer, chunks[0], later);
      SplitResumes(text, later);
      KeptAppend(Lines(text), Lines(Residue(text) + later));
    }
  }

  lemma {:induction false} KeptAll(lines: seq<string>)
    requires forall i :: 0 <= i < |lines| ==> lines[i] != ""
    ensures Kept(lines) == lines
    decreases |lines|
  {
    if lines != [] {
      KeptAll(lines[1..]);
    }
  }

  /** Framing inverts encoding: any chunking of encoded messages yields exactly those messages. */
  lemma {:induction false} FramingInvertsEncoding(lines: seq<string>, chunks: seq<string>)
    requires AllOneLine(lines) && forall i :: 0 <= i < |lines| ==> lines[i] != ""
    requires Concat(chunks) == Unlines(lines)
    ensures Feed("", chunks) == (lines, "")
  {
    FeedIgnoresChunking("", chunks);
    assert "" + Concat(chunks) == Unlines(lines) + "";
    SplitIsUnique(lines, "");
    KeptAll(lines);
  }

  /** The loop of onData over an appended buffer. */
  method TakeLines(text: string) returns (lines: seq<string>, rest: string)
    ensures lines == Kept(Lines(text)) && rest == Residue(text)
  {
    lines, rest := [], text;
    var n := Newline(rest);
    while n < |rest|
      invariant n == Newline(rest)
      invariant lines + Kept(Lines(rest)) == Kept(Lines(text))
      invariant Residue(rest) == Residue(text)
      decreases |rest|
    {
      var line := rest[..n];
      ghost var was := rest;
      rest := rest[n + 1..];
      assert Lines(was)[1..] == Lines(rest);
      Assoc(lines, if line == "" then [] else [line], Kept(Lines(rest)));
      if line != "" {
        lines := lines + [line];
      } else {
        assert lines + [] == lines;
      }
      n := Newline(rest);
    }
  }
}
