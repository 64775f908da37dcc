// A child's output, split into lines however it is read.

module OutputLines {
  import opened Links
  import opened StringBufs

  // ---- the split --------------------------------------------------------------------------

  /** The text up to the first newline, or all of it. */
  function FirstLine(s: string): (n: nat)
    ensures n <= |s| && '\n' !in s[..n] && (n < |s| ==> s[n] == '\n')
  {
    if s == "" || s[0] == '\n' then 0
    else
      assert forall i :: 1 <= i <= |s| ==> s[..i] == [s[0]] + s[1..][..i - 1];
      1 + FirstLine(s[1..])
  }

  /** The lines of `s` that a newline ends. */
  ghost function Lines(s: string): seq<string>
    decreases |s|
  {
    var n := FirstLine(s);
    if n == |s| then [] else [s[..n]] + Lines(s[n + 1..])
  }

  /** What follows the last newline. */
  ghost function Remainder(s: string): string
    decreases |s|
  {
    var n := FirstLine(s);
    if n == |s| then s else Remainder(s[n + 1..])
  }

  ghost function Unlines(lines: seq<string>): string {
    if lines == [] then "" else lines[0] + "\n" + Unlines(lines[1..])
  }

  lemma FirstLineIs(s: string, n: nat)
    requires n <= |s| && '\n' !in s[..n] && (n < |s| ==> s[n] == '\n')
    ensures FirstLine(s) == n
  {
    NoneBefore(s, n);
    NoneBefore(s, FirstLine(s));
  }

  lemma NoneBefore(s: string, n: nat)
    requires n <= |s| && '\n' !in s[..n]
    ensures forall k :: 0 <= k < n ==> s[k] != '\n'
  {
    assert forall k :: 0 <= k < n ==> s[k] == s[..n][k];
  }

  lemma NoLine(s: string)
    requires '\n' !in s
    ensures Lines(s) == [] && Remainder(s) == s
  {
    FirstLineIs(s, |s|);
  }

  lemma OneLine(line: string, rest: string)
    requires '\n' !in line
    ensures Lines(line + "\n" + rest) == [line] + Lines(rest) && Remainder(line + "\n" + rest) == Remainder(rest)
  {
    var s := line + "\n" + rest;
    assert s[..|line|] == line && s[|line|] == '\n' && s[|line| + 1..] == rest;
    FirstLineIs(s, |line|);
  }

  /** A text is one line and more, or no line at all. */
  lemma Cut(s: string) returns (line: string, rest: string)
    ensures '\n' in s ==> '\n' !in line && s == line + "\n" + rest
  {
    var n := FirstLine(s);
    if n < |s| {
      line, rest := s[..n], s[n + 1..];
    } else {
      assert s[..n] == s;
      line, rest := "", "";
    }
  }

  lemma Joins(a: string, b: string, c: string)
    ensures a + "\n" + (b + c) == (a + "\n" + b) + c
  {
  }

  /** Lines and remainder put together are the text, and neither holds a newline. */
  lemma {:induction false} SplitWhole(s: string)
    ensures Unlines(Lines(s)) + Remainder(s) == s && '\n' !in Remainder(s)
    ensures forall line :: line in Lines(s) ==> '\n' !in line
    decreases |s|
  {
    hide Lines, Remainder, FirstLine;
    var line, rest := Cut(s);
    if '\n' in s {
      OneLine(line, rest);
      SplitWhole(rest);
      assert Lines(s)[1..] == Lines(rest);
      Joins(line, Unlines(Lines(rest)), Remainder(rest));
    } else {
      NoLine(s);
    }
  }

  /** It does not matter where the text is cut. */
  lemma {:induction false} SplitCut(a: string, b: string)
    ensures Lines(a + b) == Lines(a) + Lines(Remainder(a) + b)
    ensures Remainder(a + b) == Remainder(Remainder(a) + b)
    decreases |a|
  {
    hide Lines, Remainder, FirstLine;
    var line, rest := Cut(a);
    if '\n' in a {
      OneLine(line, rest);
      OneLine(line, rest + b);
      Joins(line, rest, b);
      SplitCut(rest, b);
      assert [line] + (Lines(rest) + Lines(Remainder(a) + b)) == [line] + Lines(rest) + Lines(Remainder(a) + b);
    } else {
      NoLine(a);
    }
  }

  /** A line that is completed is what was left over with the new piece behind it. */
  lemma SplitLine(a: string, line: string)
    requires '\n' !in line
    ensures Lines(a + line + "\n") == Lines(a) + [Remainder(a) + line] && Remainder(a + line + "\n") == ""
  {
    hide Lines, Remainder, FirstLine;
    SplitWhole(a);
    assert a + line + "\n" == a + (line + "\n") && Remainder(a) + (line + "\n") == Remainder(a) + line + "\n" + "";
    SplitCut(a, line + "\n");
    OneLine(Remainder(a) + line, "");
    NoLine("");
  }

  lemma SplitPiece(a: string, piece: string)
    requires '\n' !in piece
    ensures Lines(a + piece) == Lines(a) && Remainder(a + piece) == Remainder(a) + piece
  {
    hide Lines, Remainder, FirstLine;
    SplitWhole(a);
    SplitCut(a, piece);
    NoLine(Remainder(a) + piece);
  }

  /** The split is the only way to divide a text into lines and an unfinished line. */
  lemma {:induction false} SplitUnique(s: string, lines: seq<string>, rest: string)
    requires (forall line :: line in lines ==> '\n' !in line) && '\n' !in rest && s == Unlines(lines) + rest
    ensures lines == Lines(s) && rest == Remainder(s)
    decreases |lines|
  {
    hide Lines, Remainder, FirstLine;
    if lines == [] {
      assert s == rest;
      NoLine(s);
    } else {
      Joins(lines[0], Unlines(lines[1..]), rest);
      OneLine(lines[0], Unlines(lines[1..]) + rest);
      SplitUnique(Unlines(lines[1..]) + rest, lines[1..], rest);
      assert lines == [lines[0]] + lines[1..];
    }
  }

  // ---- the reader ------------------------------------------------------------------------------

  /** memchr over the filled part of the buffer: the place of the next newline, or -1. */
  method FindNewline(buf: array<char>, pos: nat, end: nat) returns (eol: int)
    requires pos <= end <= buf.Length
    ensures eol == -1 ==> '\n' !in buf[pos..end]
    ensures eol != -1 ==>
      pos <= eol < end && buf[pos..end][eol - pos] == '\n' && '\n' !in buf[pos..end][..eol - pos]
  {
    for i := pos to end
      invariant '\n' !in buf[pos..i]
    {
      if buf[i] == '\n' {
        assert buf[pos..end][..i - pos] == buf[pos..i];
        return i;
      }
      assert buf[pos..i + 1] == buf[pos..i] + [buf[i]];
    }
    return -1;
  }

  /** The C string at `pos`: up to the first NUL. */
  function CString(s: string): string {
    if s == "" || s[0] == '\0' then "" else [s[0]] + CString(s[1..])
  }

  lemma {:induction false} CStringAt(s: string, n: nat)
    requires n < |s| && NulFree(s[..n]) && s[n] == '\0'
    ensures CString(s) == s[..n]
  {
    if n > 0 {
      assert s[..n][0] == s[0] && s[1..][..n - 1] == s[..n][1..];
      CStringAt(s[1..], n - 1);
    }
  }

  /** Overwrites the newline at `eol` and takes the C string that starts at `pos`. */
  method Terminate(buf: array<char>, pos: nat, eol: nat, ret: nat) returns (line: string)
    requires pos <= eol < ret <= buf.Length && NulFree(buf[pos..ret][..eol - pos])
    modifies buf
    ensures line == old(buf[pos..ret])[..eol - pos] && buf[eol + 1..ret] == old(buf[pos..ret][eol + 1 - pos..])
  {
    ghost var before := buf[..];
    buf[eol] := '\0';
    Overwritten(before, buf[..], pos, eol, ret);
    assert buf[pos..] == buf[..][pos..] && buf[eol + 1..ret] == buf[..][eol + 1..ret];
    CStringAt(buf[pos..], eol - pos);
    return CString(buf[pos..]);
  }

  lemma Overwritten(before: string, after: string, pos: nat, eol: nat, ret: nat)
    requires pos <= eol < ret <= |before| && after == before[eol := '\0']
    ensures after[pos..][..eol - pos] == before[pos..ret][..eol - pos] && after[pos..][eol - pos] == '\0'
    ensures after[eol + 1..ret] == before[pos..ret][eol + 1 - pos..]
  {
  }

  /** read(2): some part of the stream is put into the buffer. */
  method Fill(buf: array<char>, r: string)
    requires |r| <= buf.Length
    modifies buf
    ensures buf[..|r|] == r
  {
    for k := 0 to |r|
      invariant buf[..k] == r[..k]
    {
      buf[k] := r[k];
    }
  }

  /** `struct child`, as far as one of its output streams goes. */
  class Child {
    var outputBuf: StringBuf?         // NULL once the listeners have stopped
    var emitted: seq<string>          // the lines that were emitted
    const stopsAt: seq<string> -> bool // whether the listeners stop on the last of these lines
    ghost var stream: string          // all that was read while they were listening

    ghost predicate Listening()
      reads this, outputBuf
    {
      && outputBuf != null && outputBuf.Valid()
      && emitted == Lines(stream) && outputBuf.Contents() == Remainder(stream)
      && (outputBuf.nodes == [] ==> Remainder(stream) == "")
    }

    /** Between two calls of the handler: the buffer has a piece in it once anything was read. */
    ghost predicate Between()
      reads this, outputBuf
    {
      Listening() && (outputBuf.nodes == [] <==> stream == "")
    }

    constructor (stops: seq<string> -> bool)
      ensures Between() && fresh(outputBuf) && stream == "" && stopsAt == stops
    {
      outputBuf := new StringBuf();
      emitted, stream, stopsAt := [], "", stops;
      NoLine("");
    }

    /** di_emit of the line signal; the listeners may stop in answer to it. */
    method Emit(line: string)
      modifies this`emitted, this`outputBuf
      ensures emitted == old(emitted) + [line]
      ensures outputBuf == if stopsAt(emitted) then null else old(outputBuf)
    {
      emitted := emitted + [line];
      if stopsAt(emitted) {
        outputBuf := null;
      }
    }

    /** The listeners have stopped: no line is emitted that the stream does not have. */
    ghost predicate Stopped(read: string)
      reads this
    {
      outputBuf == null && emitted <= Lines(read) && stopsAt(emitted)
    }

    /** One line, from the start of the C string `pos` on, has been read up to its newline. */
    method HandleLine(pos: string)
      requires Listening() && NulFree(pos) && '\n' !in pos
      modifies this, outputBuf
      ensures stream == old(stream) + pos + "\n" && emitted == Lines(stream)
      ensures old(emitted) <= emitted && |emitted| == |old(emitted)| + 1
      ensures outputBuf == null <==> stopsAt(emitted)
      ensures outputBuf != null ==> outputBuf == old(outputBuf) && Listening()
    {
      hide Lines, Remainder;
      SplitLine(stream, pos);
      var empty := outputBuf.IsEmpty();
      if !empty {
        outputBuf.Push(pos);
        var out := outputBuf.Dump();
        stream := stream + pos + "\n";
        Emit(out);
      } else {
        assert Remainder(stream) + pos == pos;
        stream := stream + pos + "\n";
        Emit(pos);
      }
    }

    /** One line that a read has put into the buffer. */
    method TakeLine(buf: array<char>, pos: nat, eol: nat, ret: nat)
      requires Listening() && pos <= eol < ret <= buf.Length
      requires NulFree(buf[pos..ret][..eol - pos]) && '\n' !in buf[pos..ret][..eol - pos]
      modifies this, outputBuf, buf
      ensures stream == old(stream) + old(buf[pos..ret])[..eol - pos] + "\n" && emitted == Lines(stream)
      ensures buf[eol + 1..ret] == old(buf[pos..ret])[eol + 1 - pos..]
      ensures old(emitted) <= emitted && |emitted| == |old(emitted)| + 1
      ensures outputBuf == null <==> stopsAt(emitted)
      ensures outputBuf != null ==> outputBuf == old(outputBuf) && Listening()
    {
      hide Lines, Remainder, Listening, CString;
      var line := Terminate(buf, pos, eol, ret);
      HandleLine(line);
    }

    /** One round of the inner loop of output_handler, from `pos` to `next`. */
    method ReadOn(buf: array<char>, pos: nat, ret: nat) returns (next: nat, more: bool)
      requires Listening() && pos <= ret <= buf.Length && NulFree(buf[pos..ret])
      modifies this, outputBuf, buf
      ensures pos <= next <= ret && buf[next..ret] == old(buf[pos..ret])[next - pos..]
      ensures stream == old(stream) + old(buf[pos..ret])[..next - pos]
      ensures outputBuf != null ==> outputBuf == old(outputBuf) && Listening()
      ensures if more then pos < next && outputBuf != null else outputBuf == null || next == ret
      ensures !more && outputBuf != null ==> outputBuf.nodes != []
      ensures outputBuf == null ==> stopsAt(emitted) && emitted == Lines(stream)
      ensures old(emitted) <= emitted && |emitted| <= |old(emitted)| + 1
      ensures outputBuf == null <==> emitted != old(emitted) && stopsAt(emitted)
    {
      assert outputBuf != null;
      hide Lines, Remainder, Listening, CString, NulFree;
      ghost var start, tail := stream, buf[pos..ret];
      var eol := FindNewline(buf, pos, ret);
      if eol == -1 {
        LastPiece(buf[pos..ret]);
        AllRead(tail);
        return ret, false;
      }
      LinePiece(start, tail, eol - pos);
      TakeLine(buf, pos, eol, ret);
      return eol + 1, outputBuf != null;
    }

    /** The inner loop of output_handler, over the `ret` characters that one read has put
        into the buffer. */
    method HandleRead(buf: array<char>, ret: nat)
      requires Listening() && ret <= buf.Length && NulFree(buf[..ret])
      modifies this, outputBuf, buf
      ensures outputBuf != null ==>
        && outputBuf == old(outputBuf) && outputBuf.nodes != []
        && Listening() && stream == old(stream + buf[..ret])
      ensures outputBuf == null ==> Stopped(old(stream + buf[..ret]))
      ensures old(emitted) <= emitted
      ensures forall k :: |old(emitted)| < k < |emitted| ==> !stopsAt(emitted[..k])
      ensures outputBuf == null <==> emitted != old(emitted) && stopsAt(emitted)
    {
      assert outputBuf != null;
      hide Lines, Remainder, Listening, NulFree;
      ghost var start, data, before := stream, buf[..ret], emitted;
      var pos, more := 0, true;
      assert data[..0] == "" && data[0..] == data;
      while more
        invariant pos <= ret && buf[pos..ret] == data[pos..] && stream == start + data[..pos]
        invariant outputBuf != null ==> outputBuf == old(outputBuf) && Listening()
        invariant more || outputBuf == null || (pos == ret && outputBuf.nodes != [])
        invariant outputBuf == null ==> !more && stopsAt(emitted) && emitted == Lines(stream)
        invariant before <= emitted && WentOn(stopsAt, |before|, emitted)
        invariant outputBuf == null <==> emitted != before && stopsAt(emitted)
        decreases ret - pos, more
      {
        ghost var was, lines := pos, emitted;
        Tail(data, pos);
        pos, more := ReadOn(buf, pos, ret);
        Onwards(start, data, was, pos);
        WentOnMore(stopsAt, |before|, lines, emitted);
      }
      if outputBuf == null {
        SoFar(start, data, pos);
      } else {
        assert data[..ret] == data;
      }
    }

    /** What is left of a read when no newline comes any more. */
    method LastPiece(piece: string)
      requires Listening() && NulFree(piece) && '\n' !in piece
      modifies this`stream, outputBuf
      ensures Listening() && stream == old(stream) + piece && outputBuf.nodes != []
    {
      hide Lines, Remainder;
      SplitPiece(stream, piece);
      outputBuf.Push(piece);
      stream := stream + piece;
    }

    /** di_child_process_stop_output_listener */
    method StopListener()
      requires Listening()
      modifies this`outputBuf, outputBuf
      ensures outputBuf == null
    {
      outputBuf.Clear();
      outputBuf := null;
    }

    /** One read in the outer loop of output_handler. */
    method HandlePiece(buf: array<char>, r: string)
      requires Between() && 0 < |r| <= buf.Length && NulFree(r)
      modifies this, outputBuf, buf
      ensures outputBuf != null ==> outputBuf == old(outputBuf) && Between() && stream == old(stream) + r
      ensures outputBuf == null ==> Stopped(old(stream) + r)
      ensures old(emitted) <= emitted && WentOn(stopsAt, |old(emitted)|, emitted)
      ensures outputBuf == null <==> emitted != old(emitted) && stopsAt(emitted)
    {
      hide Lines, Remainder, Listening, Stopped, NulFree;
      Fill(buf, r);
      HandleRead(buf, |r|);
    }

    /** output_handler: all reads there are, each of them any part of the stream, and then the
        end of the file or nothing more to read for now. */
    method HandleOutput(buf: array<char>, pieces: seq<string>, eof: bool)
      requires Between() && forall r :: r in pieces ==> 0 < |r| <= buf.Length && NulFree(r)
      modifies this, outputBuf, buf
      ensures outputBuf != null ==>
        !eof && outputBuf == old(outputBuf) && Between() && stream == old(stream) + Joined(pieces)
      ensures outputBuf == null ==>
        || Stopped(old(stream) + Joined(pieces))
        || (eof && emitted == Lines(old(stream) + Joined(pieces)))
      ensures old(emitted) <= emitted
      ensures forall k :: |old(emitted)| < k < |emitted| ==> !stopsAt(emitted[..k])
      ensures outputBuf == null <==> eof || (emitted != old(emitted) && stopsAt(emitted))
    {
      assert outputBuf != null;
      hide Lines, Remainder, Listening, Joined, Stopped, Between, NulFree, WentOn;
      ghost var start, before := stream, emitted;
      WentNowhere(stopsAt, emitted);
      NothingJoined();
      assert pieces[..0] == [] && pieces[..|pieces|] == pieces;
      for i := 0 to |pieces|
        invariant outputBuf == old(outputBuf) && outputBuf != null && Between()
        invariant stream == start + Joined(pieces[..i])
        invariant before <= emitted && WentOn(stopsAt, |before|, emitted) && (emitted != before ==> !stopsAt(emitted))
      {
        ghost var lines := emitted;
        JoinedMore(pieces, i);
        Associate(start, Joined(pieces[..i]), pieces[i]);
        HandlePiece(buf, pieces[i]);
        WentOnLater(stopsAt, |before|, lines, emitted);
        if outputBuf == null {
          WentOnIs(stopsAt, |before|, emitted);
          JoinedSoFar(pieces, i + 1);
          StoppedMore(start + Joined(pieces[..i + 1]), start + Joined(pieces));
          return;
        }
      }
      WentOnIs(stopsAt, |before|, emitted);
      if eof {
        AllEmitted();
        StopListener();
      }
    }

    lemma AllEmitted()
      requires Between()
      ensures Listening() && emitted == Lines(stream)
    {
    }

    /** The part of sigchld_handler for one output stream: the last lines, and then what is
        buffered.  At the end of the file an unfinished line is lost; without it the remainder
        is emitted as one more line, even where it is empty. */
    method HandleExit(buf: array<char>, pieces: seq<string>, eof: bool)
      requires outputBuf != null ==> Between()
      requires forall r :: r in pieces ==> 0 < |r| <= buf.Length && NulFree(r)
      modifies this, outputBuf, buf
      ensures old(outputBuf) == null ==> emitted == old(emitted)
      ensures old(outputBuf) != null ==> var s := old(stream) + Joined(pieces);
        || Stopped(s)
        || emitted == Lines(s) + if eof || s == "" then [] else [Remainder(s)]
      ensures old(emitted) <= emitted
      ensures forall k :: |old(emitted)| < k < |emitted| ==> !stopsAt(emitted[..k])
      ensures old(outputBuf) != null ==>
        (outputBuf == null <==> eof || (emitted != old(emitted) && stopsAt(emitted)))
    {
      hide Lines, Remainder, Joined, StringBuf.Valid, Stopped;
      ghost var before := emitted;
      if outputBuf != null {
        HandleOutput(buf, pieces, eof);
        if outputBuf != null {
          var empty := outputBuf.IsEmpty();
          if !empty {
            var o := outputBuf.Dump();
            ghost var lines := emitted;
            Emit(o);
            WentOnMore(stopsAt, |before|, lines, emitted);
          }
        }
      }
    }

    lemma StoppedMore(a: string, b: string)
      requires Stopped(a) && a <= b
      ensures Stopped(b)
    {
      hide Lines, Remainder;
      assert b == a + b[|a|..];
      SplitCut(a, b[|a|..]);
    }
  }

  /** Of the lines after the first `from`, none but perhaps the last stopped the listeners. */
  ghost predicate WentOn(stops: seq<string> -> bool, from: nat, lines: seq<string>) {
    forall k :: from < k < |lines| ==> !stops(lines[..k])
  }

  lemma WentOnIs(stops: seq<string> -> bool, from: nat, lines: seq<string>)
    requires WentOn(stops, from, lines)
    ensures forall k :: from < k < |lines| ==> !stops(lines[..k])
  {
  }

  lemma WentNowhere(stops: seq<string> -> bool, lines: seq<string>)
    ensures WentOn(stops, |lines|, lines)
  {
  }

  /** One more line at most, if the last one did not stop them. */
  lemma WentOnMore(stops: seq<string> -> bool, from: nat, a: seq<string>, b: seq<string>)
    requires WentOn(stops, from, a) && (|a| > from ==> !stops(a)) && a <= b && |b| <= |a| + 1
    ensures WentOn(stops, from, b)
  {
    WentOnLater(stops, from, a, b);
  }

  lemma WentOnLater(stops: seq<string> -> bool, from: nat, a: seq<string>, b: seq<string>)
    requires WentOn(stops, from, a) && (|a| > from ==> !stops(a)) && a <= b && WentOn(stops, |a|, b)
    ensures WentOn(stops, from, b)
  {
    forall k | from < k < |b| ensures !stops(b[..k]) {
      if k <= |a| {
        assert b[..k] == a[..k];
        assert k == |a| ==> a[..k] == a;
      }
    }
  }

  ghost function Joined(pieces: seq<string>): string {
    if pieces == [] then "" else Joined(pieces[..|pieces| - 1]) + pieces[|pieces| - 1]
  }

  lemma NothingJoined()
    ensures Joined([]) == ""
  {
  }

  lemma Associate(a: string, b: string, c: string)
    ensures a + b + c == a + (b + c)
  {
  }

  lemma JoinedMore(pieces: seq<string>, i: nat)
    requires i < |pieces|
    ensures Joined(pieces[..i + 1]) == Joined(pieces[..i]) + pieces[i]
  {
    assert pieces[..i + 1][..i] == pieces[..i];
  }

  lemma {:induction false} JoinedSoFar(pieces: seq<string>, i: nat)
    requires i <= |pieces|
    ensures Joined(pieces[..i]) <= Joined(pieces)
    decreases |pieces| - i
  {
    if i < |pieces| {
      JoinedMore(pieces, i);
      JoinedSoFar(pieces, i + 1);
    } else {
      assert pieces[..i] == pieces;
    }
  }

  lemma SoFar(start: string, data: string, pos: nat)
    requires pos <= |data|
    ensures Lines(start + data[..pos]) <= Lines(start + data)
  {
    hide Lines, Remainder;
    assert start + data == start + data[..pos] + data[pos..];
    SplitCut(start + data[..pos], data[pos..]);
  }

  lemma Tail(data: string, pos: nat)
    requires pos <= |data| && NulFree(data)
    ensures NulFree(data[pos..])
  {
  }

  lemma Onwards(start: string, data: string, pos: nat, next: nat)
    requires pos <= next <= |data|
    ensures start + data[..pos] + data[pos..][..next - pos] == start + data[..next]
    ensures data[pos..][next - pos..] == data[next..]
  {
    assert data[..pos] + data[pos..][..next - pos] == data[..next];
  }

  lemma AllRead(tail: string)
    ensures tail[..|tail|] == tail && tail[|tail|..] == []
  {
  }

  /** The next line of what was read, with its newline. */
  lemma LinePiece(start: string, tail: string, n: nat)
    requires n < |tail| && NulFree(tail) && tail[n] == '\n'
    ensures start + tail[..n] + "\n" == start + tail[..n + 1] && NulFree(tail[..n])
  {
    assert tail[..n] + "\n" == tail[..n + 1];
  }
}
