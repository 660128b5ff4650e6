/** How client_thread of src/plugins/proto/net.c reads requests: readline into a buffer,
lower-casing in place, and strtok_r, which cuts the buffer into words with NULs.
 */
module RequestServer {
  import opened CStrings
  import opened LineReader
  import opened Request

  /** The C string at i ends inside the buffer. */
  predicate Ends(s: string, i: nat) {
    i < |s| && i + |Str(s, i)| < |s|
  }

  // ---------------------------------------------------------------- strtok_r

  lemma {:induction false} StrSplit(s: string, i: nat, j: nat)
    requires i <= j <= |s| && forall k :: i <= k < j ==> s[k] != '\0'
    ensures Str(s, i) == s[i..j] + Str(s, j)
    decreases j - i
  {
    if i < j {
      StrSplit(s, i + 1, j);
      assert s[i..j] == [s[i]] + s[i + 1..j];
    }
  }

  /** A string does not depend on what lies before it. */
  lemma {:induction false} StrAfter(s: string, t: string, i: nat)
    requires i <= |s| == |t| && forall k :: i <= k < |s| ==> s[k] == t[k]
    ensures Str(s, i) == Str(t, i)
    decreases |s| - i
  {
    if i < |s| && s[i] != '\0' {
      StrAfter(s, t, i + 1);
    }
  }

  /** Nor on what lies after its NUL. */
  lemma StrBefore(s: string, t: string, i: nat)
    requires Ends(s, i) && |s| == |t|
    requires forall k :: i <= k <= i + |Str(s, i)| ==> s[k] == t[k]
    ensures Str(t, i) == Str(s, i)
  {
    var n := |Str(s, i)|;
    StrHasNoNul(s, i);
    StrUnique(s, i, n);
    StrUnique(t, i, n);
    assert t[i..i + n] == s[i..i + n];
  }

  lemma SkipSeparator(s: string, i: nat)
    requires Ends(s, i) && IsSep(s[i])
    ensures Words(Str(s, i)) == Words(Str(s, i + 1)) && Ends(s, i + 1)
  {
    assert Str(s, i)[1..] == Str(s, i + 1);
  }

  /** A word stands between i and j. */
  predicate WordAt(s: string, i: nat, j: nat) {
    Ends(s, i) && i < j <= i + |Str(s, i)| && Unbroken(s[i..j])
  }

  lemma LastWord(s: string, i: nat, j: nat)
    requires WordAt(s, i, j) && s[j] == '\0'
    ensures Words(Str(s, i)) == [s[i..j]] && Str(s, i) == s[i..j]
  {
    StrHasNoNul(s, i);
    StrUnique(s, i, j - i);
    WordsLast(s[i..j]);
  }

  lemma InnerWord(s: string, i: nat, j: nat)
    requires WordAt(s, i, j) && IsSep(s[j])
    ensures j < i + |Str(s, i)| && Ends(s, j + 1)
    ensures Words(Str(s, i)) == [s[i..j]] + Words(Str(s, j + 1))
  {
    StrHasNoNul(s, i);
    StrSplit(s, i, j);
    assert Str(s, j) == [s[j]] + Str(s, j + 1);
    WordsCons(s[i..j], s[j], Str(s, j + 1));
  }

  /** What strtok_r does to the buffer. */
  lemma CutWord(s: string, i: nat, j: nat, t: string)
    requires WordAt(s, i, j) && IsSep(s[j]) && t == s[j := '\0']
    ensures Str(t, i) == s[i..j] && j + 1 < |t| && Str(t, j + 1) == Str(s, j + 1) && Ends(t, j + 1)
  {
    InnerWord(s, i, j);
    StrHasNoNul(s, i);
    StrUnique(t, i, j - i);
    assert t[i..j] == s[i..j];
    StrAfter(s, t, j + 1);
  }

  /** strspn: the first position from i on that holds no separator. */
  method SkipSeparators(buf: array<char>, from: nat) returns (i: nat)
    requires Ends(buf[..], from)
    ensures from <= i && Ends(buf[..], i) && !IsSep(buf[i])
    ensures Words(Str(buf[..], i)) == Words(Str(buf[..], from))
  {
    ghost var s := buf[..];
    i := from;
    while buf[i] != '\0' && IsSep(buf[i])
      invariant from <= i && Ends(s, i) && Words(Str(s, i)) == Words(Str(s, from))
      decreases buf.Length - i
    {
      SkipSeparator(s, i);
      i := i + 1;
    }
  }

  /** strcspn: where the word at from ends. */
  method SkipWord(buf: array<char>, from: nat) returns (j: nat)
    requires Ends(buf[..], from) && buf[from] != '\0' && !IsSep(buf[from])
    ensures j < buf.Length && WordAt(buf[..], from, j) && (buf[j] == '\0' || IsSep(buf[j]))
  {
    ghost var n := from + |Str(buf[..], from)|;
    j := from;
    while buf[j] != '\0' && !IsSep(buf[j])
      invariant from <= j <= n
      invariant forall k :: from <= k < j ==> !IsSep(buf[k])
      decreases buf.Length - j
    {
      j := j + 1;
    }
  }

  /** The end of a strtok_r call: cut the word off, and say where the next call goes on. */
  method EndWord(buf: array<char>, word: nat, j: nat) returns (brk: nat)
    requires WordAt(buf[..], word, j) && (buf[j] == '\0' || IsSep(buf[j]))
    modifies buf
    ensures word < brk && Ends(buf[..], brk) && word + |Str(buf[..], word)| <= brk
    ensures Words(Str(old(buf[..]), word)) == [Str(buf[..], word)] + Words(Str(buf[..], brk))
    ensures forall i :: 0 <= i < buf.Length && i != j ==> buf[i] == old(buf[i])
  {
    ghost var s := buf[..];
    if buf[j] == '\0' {
      brk := j;
      LastWord(s, word, j);
    } else {
      InnerWord(s, word, j);
      CutWord(s, word, j, s[j := '\0']);
      buf[j] := '\0';
      brk := j + 1;
      assert buf[..] == s[j := '\0'];
    }
  }

  /** One strtok_r call on the string at from: the position of its first word, or -1, and
  where the next call goes on. */
  method StrTok(buf: array<char>, from: nat) returns (word: int, brk: nat)
    requires Ends(buf[..], from)
    modifies buf
    ensures from <= brk && Ends(buf[..], brk)
    ensures word < 0 ==> Words(Str(old(buf[..]), from)) == [] && buf[..] == old(buf[..])
    ensures word >= 0 ==> from <= word < brk && word + |Str(buf[..], word)| <= brk
    ensures word >= 0 ==> Words(Str(old(buf[..]), from)) == [Str(buf[..], word)] + Words(Str(buf[..], brk))
    ensures forall i :: 0 <= i <= from ==> buf[i] == old(buf[i])
  {
    brk := SkipSeparators(buf, from);
    if buf[brk] == '\0' {
      return -1, brk;
    }
    word := brk;
    var j := SkipWord(buf, word);
    brk := EndWord(buf, word, j);
  }

  // ---------------------------------------------------------------- the request

  /** strncmp(word, w, strlen(w)) == 0, for the word at position word. */
  method StartsWith(buf: array<char>, word: nat, w: string) returns (yes: bool)
    requires Ends(buf[..], word) && forall k :: 0 <= k < |w| ==> w[k] != '\0'
    ensures yes == (w <= Str(buf[..], word))
  {
    ghost var text := Str(buf[..], word);
    for k := 0 to |w|
      invariant k <= |text| && forall j :: 0 <= j < k ==> w[j] == text[j]
    {
      if buf[word + k] != w[k] {
        return false;
      }
    }
    return true;
  }

  lemma KeepWord(s: string, t: string, i: nat, lim: nat)
    requires Ends(s, i) && i + |Str(s, i)| <= lim < |s| == |t|
    requires forall k :: 0 <= k <= lim ==> s[k] == t[k]
    ensures Str(t, i) == Str(s, i)
  {
    StrBefore(s, t, i);
  }

  /** A strtok_r call and atoi of the word, if there is one. */
  method NextNumber(buf: array<char>, from: nat) returns (ok: bool, n: int, brk: nat)
    requires Ends(buf[..], from)
    modifies buf
    ensures Ends(buf[..], brk) && from <= brk && (forall i :: 0 <= i <= from ==> buf[i] == old(buf[i]))
    ensures ok <==> Words(Str(old(buf[..]), from)) != []
    ensures ok ==> n == Atoi(Words(Str(old(buf[..]), from))[0])
    ensures ok ==> Words(Str(old(buf[..]), from))[1..] == Words(Str(buf[..], brk))
  {
    var word;
    word, brk := StrTok(buf, from);
    ok := word >= 0;
    n := if ok then Atoi(Str(buf[..], word)) else 0;
  }

  /** The last three arguments of FETCH, and nothing after them. */
  method ParseNumbers(buf: array<char>, from: nat) returns (ok: bool, start: int, end: int, res: int)
    requires Ends(buf[..], from)
    modifies buf
    ensures var ws := Words(Str(old(buf[..]), from));
      && ok == (|ws| == 3)
      && (ok ==> start == Atoi(ws[0]) && end == Atoi(ws[1]) && res == Atoi(ws[2]))
    ensures forall i :: 0 <= i <= from ==> buf[i] == old(buf[i])
  {
    start, end, res := 0, 0, 0;
    var brk: nat;
    ok, start, brk := NextNumber(buf, from);
    if !ok {
      return;
    }
    ok, end, brk := NextNumber(buf, brk);
    if !ok {
      return;
    }
    ok, res, brk := NextNumber(buf, brk);
    if !ok {
      return;
    }
    var word;
    word, brk := StrTok(buf, brk);
    ok := word < 0;
  }

  /** The arguments of FETCH, which are the words from position from on. */
  method ParseFetch(buf: array<char>, from: nat) returns (r: Request)
    requires Ends(buf[..], from)
    modifies buf
    ensures var ws := Words(Str(old(buf[..]), from));
      r == if |ws| == 5 then Fetch(ws[0], ws[1], Atoi(ws[2]), Atoi(ws[3]), Atoi(ws[4])) else Invalid
  {
    var system, brk := StrTok(buf, from);
    if system < 0 {
      return Invalid;
    }
    ghost var s1, brk1 := buf[..], brk;
    var dset: int;
    dset, brk := StrTok(buf, brk);
    if dset < 0 {
      return Invalid;
    }
    KeepWord(s1, buf[..], system, brk1);
    ghost var s2 := buf[..];
    var ok, start, end, res := ParseNumbers(buf, brk);
    if !ok {
      return Invalid;
    }
    KeepWord(s2, buf[..], system, brk);
    KeepWord(s2, buf[..], dset, brk);
    r := Fetch(Str(buf[..], system), Str(buf[..], dset), start, end, res);
  }

  /** One line of input, NUL-terminated and in lower case. */
  method Parse(buf: array<char>) returns (r: Request)
    requires Ends(buf[..], 0)
    modifies buf
    ensures r == Interpret(Words(Str(old(buf[..]), 0)))
  {
    ghost var words := Words(Str(buf[..], 0));
    var word, brk := StrTok(buf, 0);
    if word < 0 {
      return Blank;
    }
    assert words[0] == Str(buf[..], word) && words[1..] == Words(Str(buf[..], brk));
    var quit := StartsWith(buf, word, "quit");
    var exit := StartsWith(buf, word, "exit");
    if quit || exit {
      return Quit;
    }
    var fetch := StartsWith(buf, word, "fetch");
    if fetch {
      r := ParseFetch(buf, brk);
      return;
    }
    var enum := StartsWith(buf, word, "enum");
    if enum {
      word, brk := StrTok(buf, brk);
      return if word < 0 then Enum else Invalid;
    }
    return Invalid;
  }

  // ---------------------------------------------------------------- the session

  /** The tolower loop. */
  method LowerInPlace(buf: array<char>, n: nat)
    requires n <= buf.Length
    modifies buf
    ensures forall i :: 0 <= i < buf.Length ==> buf[i] == if i < n then LowerByte(old(buf[i])) else old(buf[i])
  {
    for i := 0 to n
      invariant forall j :: 0 <= j < buf.Length ==> buf[j] == if j < i then LowerByte(old(buf[j])) else old(buf[j])
    {
      buf[i] := LowerByte(buf[i]);
    }
  }

  lemma BufferString(t: string, u: string)
    requires |u| < |t| && t[|u|] == '\0' && forall i :: 0 <= i < |u| ==> t[i] == u[i]
    ensures Ends(t, 0) && Str(t, 0) == Str(u, 0)
  {
    var n := |Str(u, 0)|;
    StrHasNoNul(u, 0);
    StrUnique(u, 0, n);
    StrUnique(t, 0, n);
    assert t[0..n] == u[0..n];
  }

  /** The start of the main loop's body: a line from the descriptor, in lower case. */
  method ReadLowered(reader: Reader, buf: array<char>) returns (more: bool)
    requires reader.Valid() && buf != reader.buf && buf.Length == BUF_LEN
    modifies reader, reader.buf, buf
    ensures reader.Valid()
    ensures more == (old(reader.pending) != "")
    ensures more ==> var piece := Piece(old(reader.pending), ROOM);
      && Ends(buf[..], 0) && Str(buf[..], 0) == Str(Lower(piece), 0)
      && reader.pending == old(reader.pending)[|piece|..]
  {
    ghost var piece := Piece(reader.pending, ROOM);
    var c := reader.ReadLine(buf, BUF_LEN - 1);
    buf[BUF_LEN - 1] := '\0';
    if c == 0 {
      return false;
    }
    LowerInPlace(buf, c);
    BufferString(buf[..], Lower(piece));
    more := true;
  }

  /** One turn of the main loop: a line from the descriptor, and what it asks for. */
  method Receive(reader: Reader, buf: array<char>) returns (more: bool, r: Request)
    requires reader.Valid() && buf != reader.buf && buf.Length == BUF_LEN
    modifies reader, reader.buf, buf
    ensures reader.Valid()
    ensures more == (old(reader.pending) != "")
    ensures more ==> var piece := Piece(old(reader.pending), ROOM);
      r == Serve(piece) && reader.pending == old(reader.pending)[|piece|..]
  {
    r := Blank;
    more := ReadLowered(reader, buf);
    if more {
      r := Parse(buf);
    }
  }
}
