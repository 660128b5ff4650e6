/** The buffered line reader of src/io.c.

Bytes are characters.  The descriptor is the sequence of blocks that successive
read() calls will deliver; once they are used up, read() answers 0 for ever.
 */
module LineReader {

  const BUF_LEN: nat := 1024

  ghost predicate Blocks(blocks: seq<string>) {
    forall b :: b in blocks ==> 0 < |b| <= BUF_LEN
  }

  function Flatten(blocks: seq<string>): string {
    if blocks == [] then "" else blocks[0] + Flatten(blocks[1..])
  }

  // ---------------------------------------------------------------- what a line is

  /** The next line of the stream: up to and including a newline, but at most room bytes. */
  function Piece(stream: string, room: nat): (piece: string)
    ensures |piece| <= room && piece <= stream
    ensures piece == "" <==> stream == "" || room == 0
    decreases room
  {
    if stream == "" || room == 0 then ""
    else if stream[0] == '\n' then "\n"
    else [stream[0]] + Piece(stream[1..], room - 1)
  }

  predicate EndsLine(piece: string) {
    piece != "" && piece[|piece| - 1] == '\n'
  }

  /** What readline answers for that line. */
  function Code(stream: string, maxlen: nat): int
    requires maxlen >= 1
  {
    var piece := Piece(stream, maxlen - 1);
    if EndsLine(piece) then |piece|
    else if stream == "" && maxlen > 1 then 0
    else |piece| + 1
  }

  /** A line holds a newline only at its end, and stops only there, at the limit or at the
  end of the stream. */
  lemma {:induction false} PieceShape(stream: string, room: nat)
    ensures var piece := Piece(stream, room);
      && (forall i :: 0 <= i < |piece| - 1 ==> piece[i] != '\n')
      && (EndsLine(piece) || |piece| == room || piece == stream)
    decreases room
  {
    if stream != "" && room > 0 && stream[0] != '\n' {
      PieceShape(stream[1..], room - 1);
      var piece, rest := Piece(stream, room), Piece(stream[1..], room - 1);
      forall i | 0 <= i < |piece| - 1
        ensures piece[i] != '\n'
      {
        assert piece[i] == if i == 0 then stream[0] else rest[i - 1];
      }
      assert piece[|piece| - 1] == if rest == "" then stream[0] else rest[|rest| - 1];
    }
  }

  /** And that shape determines the line. */
  lemma {:induction false} PieceUnique(stream: string, room: nat, n: nat)
    requires n <= |stream| && n <= room
    requires forall i :: 0 <= i < n - 1 ==> stream[i] != '\n'
    requires EndsLine(stream[..n]) || n == room || n == |stream|
    ensures Piece(stream, room) == stream[..n]
    decreases room
  {
    if n > 0 && stream[0] != '\n' {
      assert stream[1..][..n - 1] == stream[..n][1..];
      PieceUnique(stream[1..], room - 1, n - 1);
    } else if n > 0 {
      assert n == 1;
    }
  }

  lemma TakenIsPiece(stream: string, maxlen: nat, p: nat, n: int)
    requires p <= |stream| && p <= maxlen - 1
    requires forall i :: 0 <= i < p - 1 ==> stream[i] != '\n'
    requires n == if EndsLine(stream[..p]) || (stream == "" && maxlen > 1) then p else p + 1
    requires n == p || p == maxlen - 1 || p == |stream|
    ensures |Piece(stream, maxlen - 1)| == p && n == Code(stream, maxlen)
    ensures forall i :: 0 <= i < p ==> Piece(stream, maxlen - 1)[i] == stream[i]
  {
    PieceUnique(stream, maxlen - 1, p);
  }

  /** All lines, with what readline answers for each, until it answers 0. */
  function Lines(stream: string, maxlen: nat): seq<(string, int)>
    requires maxlen >= 2
    decreases |stream|
  {
    if stream == "" then []
    else
      var piece := Piece(stream, maxlen - 1);
      [(piece, Code(stream, maxlen))] + Lines(stream[|piece|..], maxlen)
  }

  function Texts(lines: seq<(string, int)>): seq<string> {
    if lines == [] then [] else [lines[0].0] + Texts(lines[1..])
  }

  lemma FirstLine(stream: string, maxlen: nat)
    requires maxlen >= 2 && stream != ""
    ensures var piece := Piece(stream, maxlen - 1);
      && Lines(stream, maxlen) != [] && Lines(stream, maxlen)[0] == (piece, Code(stream, maxlen))
      && |piece| > 0 && Lines(stream, maxlen)[1..] == Lines(stream[|piece|..], maxlen)
  {
  }

  lemma FirstText(stream: string, maxlen: nat)
    requires maxlen >= 2 && stream != ""
    ensures var piece := Piece(stream, maxlen - 1);
      Texts(Lines(stream, maxlen)) == [piece] + Texts(Lines(stream[|piece|..], maxlen))
  {
    FirstLine(stream, maxlen);
  }

  lemma FlattenCons(piece: string, pieces: seq<string>)
    ensures Flatten([piece] + pieces) == piece + Flatten(pieces)
  {
    assert ([piece] + pieces)[1..] == pieces;
  }

  /** No byte is lost, added or reordered. */
  lemma {:induction false} LinesAreTheStream(stream: string, maxlen: nat)
    requires maxlen >= 2
    ensures Flatten(Texts(Lines(stream, maxlen))) == stream
    decreases |stream|
  {
    if stream != "" {
      var piece := Piece(stream, maxlen - 1);
      LinesAreTheStream(stream[|piece|..], maxlen);
      FirstText(stream, maxlen);
      FlattenCons(piece, Texts(Lines(stream[|piece|..], maxlen)));
    }
  }

  // ---------------------------------------------------------------- the reader

  class Reader {
    var cnt: int
    var ptr: nat
    const buf: array<char>
    /** What the descriptor has still to deliver. */
    var input: seq<string>
    /** Bytes delivered but not handed out, and bytes to come. */
    ghost var pending: string

    ghost predicate Valid()
      reads this, buf
    {
      && buf.Length == BUF_LEN && 0 <= cnt && ptr + cnt <= BUF_LEN && Blocks(input)
      && pending == buf[ptr..ptr + cnt] + Flatten(input)
    }

    constructor (input: seq<string>)
      requires Blocks(input)
      ensures Valid() && pending == Flatten(input) && fresh(buf)
    {
      cnt, ptr := 0, 0;
      buf := new char[BUF_LEN];
      this.input := input;
      pending := Flatten(input);
    }

    /** read(fd, rl_buf, BUF_LEN), when the buffer is used up. */
    method ReadBlock()
      requires Valid() && cnt == 0
      modifies this`cnt, this`ptr, this`input, buf
      ensures Valid()
      ensures cnt == 0 <==> pending == ""
      ensures cnt == 0 ==> input == []
    {
      if input == [] {
        return;
      }
      var block := input[0];
      for i := 0 to |block|
        invariant buf[..i] == block[..i]
        modifies buf
      {
        buf[i] := block[i];
      }
      cnt, ptr, input := |block|, 0, input[1..];
    }

    /** The byte at rl_bufptr, when the buffer holds one. */
    method TakeByte() returns (c: char)
      requires Valid() && cnt > 0
      modifies this`cnt, this`ptr, this`pending
      ensures Valid()
      ensures old(pending) == [c] + pending
    {
      assert buf[ptr..ptr + cnt] == [buf[ptr]] + buf[ptr + 1..ptr + cnt];
      ghost var rest := buf[ptr + 1..ptr + cnt] + Flatten(input);
      assert pending == [buf[ptr]] + rest;
      cnt := cnt - 1;
      c := buf[ptr];
      ptr := ptr + 1;
      pending := rest;
    }

    /** my_read: one byte, or 0 at the end of the stream. */
    method ReadByte() returns (rc: int, c: char)
      requires Valid()
      modifies this, buf
      ensures Valid()
      ensures rc == if old(pending) == "" then 0 else 1
      ensures rc == 1 ==> old(pending) == [c] + pending
      ensures rc == 0 ==> pending == "" && cnt == 0 && input == []
    {
      c := '\0';
      if cnt <= 0 {
        ReadBlock();
        if cnt == 0 {
          return 0, c;
        }
      }
      c := TakeByte();
      return 1, c;
    }

    /** One byte of the stream, stored at position p of the line if there is one. */
    method StoreByte(line: array<char>, p: nat, ghost stream: string) returns (rc: int, c: char)
      requires Valid() && line != buf && p < line.Length && p <= |stream| && pending == stream[p..]
      modifies this, buf, line
      ensures Valid()
      ensures rc == if p == |stream| then 0 else 1
      ensures rc == 1 ==> p < |stream| && c == stream[p] == line[p] && pending == stream[p + 1..]
      ensures rc == 0 ==> pending == "" && cnt == 0 && input == []
      ensures forall i :: 0 <= i < line.Length && (rc == 0 || i != p) ==> line[i] == old(line[i])
    {
      rc, c := ReadByte();
      if rc == 1 {
        assert stream[p..] == [stream[p]] + stream[p + 1..];
        line[p] := c;
      }
    }

    /** The loop of readline: it takes bytes until it has taken a whole line.  Its counter n
    is one more than the number p of bytes taken, except after a newline, when it equals p,
    and at the end of an empty stream, when readline returns 0 at once. */
    method TakeLine(line: array<char>, maxlen: nat) returns (n: int, p: nat)
      requires Valid() && line != buf && 1 <= maxlen <= line.Length
      modifies this, buf, line
      ensures Valid()
      ensures p <= |old(pending)| && p <= maxlen - 1 && pending == old(pending)[p..]
      ensures forall i :: 0 <= i < p - 1 ==> old(pending)[i] != '\n'
      ensures n == if EndsLine(old(pending)[..p]) || (old(pending) == "" && maxlen > 1) then p else p + 1
      ensures n == p || p == maxlen - 1 || (p == |old(pending)| && cnt == 0 && input == [])
      ensures forall i :: 0 <= i < p ==> line[i] == old(pending)[i]
      ensures forall i :: p <= i < line.Length ==> line[i] == old(line[i])
    {
      ghost var stream := pending;
      p, n := 0, 1;
      while n < maxlen
        invariant p == n - 1 <= maxlen - 1 && p <= |stream|
        invariant Valid() && pending == stream[p..]
        invariant forall i :: 0 <= i < p ==> line[i] == stream[i] && stream[i] != '\n'
        invariant forall i :: p <= i < line.Length ==> line[i] == old(line[i])
        decreases maxlen - n
      {
        var rc, c := StoreByte(line, p, stream);
        if rc != 1 {
          if n == 1 {
            return 0, p;
          }
          break;
        }
        p := p + 1;
        if c == '\n' {
          break;
        }
        n := n + 1;
      }
    }

    /** readline: the next line goes to line, with a NUL after it unless the answer is 0. */
    method ReadLine(line: array<char>, maxlen: nat) returns (n: int)
      requires Valid() && line != buf && 1 <= maxlen <= line.Length
      modifies this, buf, line
      ensures Valid()
      ensures var piece := Piece(old(pending), maxlen - 1);
        && n == Code(old(pending), maxlen)
        && pending == old(pending)[|piece|..]
        && (forall i :: 0 <= i < |piece| ==> line[i] == piece[i])
        && (n != 0 ==> line[|piece|] == '\0')
        && (forall i :: (if n == 0 then 0 else |piece| + 1) <= i < line.Length ==> line[i] == old(line[i]))
      ensures n == 0 ==> cnt == 0 && input == [] && old(pending) == ""
    {
      ghost var stream := pending;
      var p: nat;
      n, p := TakeLine(line, maxlen);
      TakenIsPiece(stream, maxlen, p, n);
      if n != 0 {
        line[p] := '\0';
      }
    }
  }

  /** What a caller holds after one call of readline: its whole buffer, and the answer. */
  predicate Holds(capture: (string, int), line: (string, int)) {
    && capture.1 == line.1
    && |line.0| < |capture.0| && capture.0[..|line.0|] == line.0 && capture.0[|line.0|] == '\0'
  }

  /** One call of readline, and what it leaves for the next. */
  method ReadOne(reader: Reader, line: array<char>) returns (n: int, capture: (string, int))
    requires reader.Valid() && line != reader.buf && line.Length >= 2
    modifies reader, reader.buf, line
    ensures reader.Valid()
    ensures n == 0 ==> Lines(old(reader.pending), line.Length) == [] && reader.cnt == 0 && reader.input == []
    ensures n != 0 ==> |reader.pending| < |old(reader.pending)|
    ensures n != 0 ==>
      ComesFirst(capture, Lines(reader.pending, line.Length), Lines(old(reader.pending), line.Length))
  {
    ghost var stream := reader.pending;
    n := reader.ReadLine(line, line.Length);
    capture := (line[..], n);
    if n != 0 {
      FirstLine(stream, line.Length);
    }
  }

  /** The capture holds the first of the lines, and the rest follow it. */
  ghost predicate ComesFirst(capture: (string, int), rest: seq<(string, int)>, lines: seq<(string, int)>) {
    lines != [] && Holds(capture, lines[0]) && lines[1..] == rest
  }

  ghost predicate HoldsAll(captures: seq<(string, int)>, lines: seq<(string, int)>) {
    |captures| == |lines| && forall k :: 0 <= k < |captures| ==> Holds(captures[k], lines[k])
  }

  lemma HoldsMore(captures: seq<(string, int)>, capture: (string, int), rest: seq<(string, int)>,
                  lines: seq<(string, int)>)
    requires |captures| <= |lines| && HoldsAll(captures, lines[..|captures|])
    requires ComesFirst(capture, rest, lines[|captures|..])
    ensures |captures| < |lines| && HoldsAll(captures + [capture], lines[..|captures| + 1])
    ensures lines[|captures| + 1..] == rest
  {
    assert lines[|captures|..][0] == lines[|captures|];
    assert lines[..|captures| + 1] == lines[..|captures|] + [lines[|captures|]];
  }

  /** Calling readline until it answers 0 gives the lines of the stream, whatever the blocks
  in which the stream arrived, and leaves nothing buffered. */
  method ReadAll(reader: Reader, line: array<char>) returns (captures: seq<(string, int)>)
    requires reader.Valid() && line != reader.buf && line.Length >= 2
    modifies reader, reader.buf, line
    ensures reader.Valid() && reader.cnt == 0 && reader.input == []
    ensures HoldsAll(captures, Lines(old(reader.pending), line.Length))
  {
    ghost var lines := Lines(reader.pending, line.Length);
    captures := [];
    while true
      invariant reader.Valid() && |captures| <= |lines|
      invariant lines[|captures|..] == Lines(reader.pending, line.Length)
      invariant HoldsAll(captures, lines[..|captures|])
      decreases |reader.pending|
    {
      var n, capture := ReadOne(reader, line);
      if n == 0 {
        break;
      }
      HoldsMore(captures, capture, Lines(reader.pending, line.Length), lines);
      captures := captures + [capture];
    }
    assert lines[..|captures|] == lines;
  }
}
