/** FETCH requests: how java/NVConnector.java prints them, and how client_thread of
src/plugins/proto/net.c reads a received line.

Characters are bytes.
 */
module Request {
  import opened CInts
  import opened CStrings
  import opened LineReader

  // ---------------------------------------------------------------- words of a line

  function LowerByte(c: char): char {
    if 'A' <= c <= 'Z' then c + 32 as char else c
  }

  function Lower(s: string): (r: string)
    ensures |r| == |s| && forall i :: 0 <= i < |s| ==> r[i] == LowerByte(s[i])
  {
    if s == "" then "" else [LowerByte(s[0])] + Lower(s[1..])
  }

  predicate IsSep(c: char) {
    c == ' ' || c == '\t' || c == '\r' || c == '\n'
  }

  /** The length of the run of non-separators at the front. */
  function Span(s: string): (n: nat)
    ensures n <= |s| && (forall i :: 0 <= i < n ==> !IsSep(s[i]))
    ensures n < |s| ==> IsSep(s[n])
  {
    if s == "" || IsSep(s[0]) then 0 else 1 + Span(s[1..])
  }

  /** The words that successive strtok_r calls give. */
  function Words(s: string): seq<string>
    decreases |s|
  {
    if s == "" then []
    else if IsSep(s[0]) then Words(s[1..])
    else [s[..Span(s)]] + Words(s[Span(s)..])
  }

  /** Text as it stands in the server's lowered buffer. */
  predicate IsText(s: string) {
    forall i :: 0 <= i < |s| ==> s[i] != '\0' && !('A' <= s[i] <= 'Z')
  }

  predicate Unbroken(s: string) {
    forall i :: 0 <= i < |s| ==> !IsSep(s[i])
  }

  /** A name that can stand as one word of a lowered line. */
  predicate IsWord(w: string) {
    w != "" && IsText(w) && Unbroken(w)
  }

  // ---------------------------------------------------------------- the server's reading

  datatype Request =
    | Blank
    | Quit
    | Fetch(system: string, dset: string, start: int, end: int, res: int)
    | Enum
    | Invalid

  /** The end of a line on the wire. */
  const CRLF := "\r\n"

  predicate IsDigit(c: char) {
    '0' <= c <= '9'
  }

  /** strtol's digits, after those that made up acc. */
  function Scan(s: string, acc: nat): nat
    decreases |s|
  {
    if s == "" || !IsDigit(s[0]) then acc
    else Scan(s[1..], 10 * acc + (s[0] - '0') as nat)
  }

  predicate IsSpace(c: char) {
    c == ' ' || 9 as char <= c <= 13 as char
  }

  function Strtol(s: string): int {
    if s != "" && IsSpace(s[0]) then Strtol(s[1..])
    else if s != "" && s[0] == '-' then
      var v: int := Scan(s[1..], 0);
      if v > LONG_MAX then -LONG_MAX - 1 else -v
    else
      var v := Scan(if s != "" && s[0] == '+' then s[1..] else s, 0);
      if v > LONG_MAX then LONG_MAX else v
  }

  function Atoi(s: string): int {
    ToInt(Strtol(s))
  }

  function Interpret(words: seq<string>): Request {
    if words == [] then Blank
    else if "quit" <= words[0] || "exit" <= words[0] then Quit
    else if "fetch" <= words[0] then
      if |words| == 6 then Fetch(words[1], words[2], Atoi(words[3]), Atoi(words[4]), Atoi(words[5]))
      else Invalid
    else if "enum" <= words[0] then
      if |words| == 1 then Enum else Invalid
    else Invalid
  }

  /** What the server makes of one line of input. */
  function Serve(line: string): Request {
    Interpret(Words(Str(Lower(line), 0)))
  }

  /** readline's size limit leaves room for this many bytes of a line. */
  const ROOM: nat := BUF_LEN - 2

  /** What the server makes of a whole stream: it passes over blank lines and stops at QUIT. */
  function Session(stream: string): seq<Request>
    decreases |stream|
  {
    if stream == "" then []
    else
      var piece := Piece(stream, ROOM);
      Then(Serve(piece), Session(stream[|piece|..]))
  }

  lemma SessionUnfold(stream: string)
    ensures Session(stream) ==
      if stream == "" then []
      else Then(Serve(Piece(stream, ROOM)), Session(stream[|Piece(stream, ROOM)|..]))
  {
  }

  function Then(r: Request, rest: seq<Request>): seq<Request> {
    if r == Quit then [Quit] else if r == Blank then rest else [r] + rest
  }

  // ---------------------------------------------------------------- the client's printing

  function Digits(n: nat): (s: string)
    ensures s != "" && forall i :: 0 <= i < |s| ==> IsDigit(s[i])
  {
    if n < 10 then [n as char + '0'] else Digits(n / 10) + [(n % 10) as char + '0']
  }

  /** String.valueOf. */
  function Dec(n: int): (s: string)
    ensures IsWord(s)
  {
    if n < 0 then "-" + Digits(-n) else Digits(n)
  }

  function Join(words: seq<string>): string {
    if words == [] then "" else words[0] + " " + Join(words[1..])
  }

  /** The request that getData sends. */
  function Format(system: string, dset: string, start: int, end: int, res: int): string {
    Join(["FETCH", system, dset, Dec(start), Dec(end)]) + Dec(res) + CRLF
  }

  // ---------------------------------------------------------------- numbers

  lemma {:induction false} ScanDigits(n: nat, rest: string)
    ensures Scan(Digits(n) + rest, 0) == Scan(rest, n)
  {
    if n < 10 {
      assert (Digits(n) + rest)[1..] == rest;
    } else {
      var d := [(n % 10) as char + '0'];
      assert Digits(n) + rest == Digits(n / 10) + (d + rest);
      ScanDigits(n / 10, d + rest);
      assert (d + rest)[1..] == rest;
    }
  }

  lemma DecReadBack(n: int)
    requires -LONG_MAX - 1 <= n <= LONG_MAX
    ensures Strtol(Dec(n)) == n
  {
    var m: nat := if n < 0 then -n else n;
    ScanDigits(m, "");
    assert Digits(m) + "" == Digits(m);
    assert Dec(n)[0] == '-' <==> n < 0;
    if n < 0 {
      assert Dec(n)[1..] == Digits(m);
    }
  }

  /** A number cut short is another number. */
  lemma {:induction false} DigitsCut(n: nat, k: nat) returns (q: nat)
    requires 0 < k < |Digits(n)|
    ensures Digits(n)[..k] == Digits(q) && q < n
  {
    if k == |Digits(n)| - 1 {
      q := n / 10;
    } else {
      q := DigitsCut(n / 10, k);
    }
  }

  lemma DecCut(n: int, k: nat)
    requires IsInt(n) && 0 < k < |Dec(n)|
    ensures Atoi(Dec(n)[..k]) != n
  {
    if n >= 0 {
      var q := DigitsCut(n, k);
      DecReadBack(q);
    } else if k == 1 {
      assert Dec(n)[..k] == "-";
    } else {
      var q := DigitsCut(-n, k - 1);
      assert Dec(n)[..k] == "-" + Digits(q);
      ScanDigits(q, "");
      assert Digits(q) + "" == Digits(q);
      assert ("-" + Digits(q))[1..] == Digits(q);
    }
  }

  // ---------------------------------------------------------------- words of requests

  /** Every word of a lowered line can stand as a word. */
  lemma {:induction false} WordsAreWords(s: string)
    requires IsText(s)
    ensures forall w :: w in Words(s) ==> IsWord(w)
    decreases |s|
  {
    if s == "" {
    } else if IsSep(s[0]) {
      WordsAreWords(s[1..]);
    } else {
      var n := Span(s);
      WordsAreWords(s[n..]);
      assert forall w :: w in Words(s) ==> w == s[..n] || w in Words(s[n..]);
    }
  }

  lemma {:induction false} SpanIs(s: string, n: nat)
    requires n <= |s| && Unbroken(s[..n]) && (n < |s| ==> IsSep(s[n]))
    ensures Span(s) == n
  {
    assert forall i :: 0 <= i < n ==> s[i] == s[..n][i];
  }

  /** A word with a separator after it. */
  lemma WordsCons(w: string, c: char, rest: string)
    requires w != "" && Unbroken(w) && IsSep(c)
    ensures Words(w + ([c] + rest)) == [w] + Words(rest)
  {
    var s := w + ([c] + rest);
    assert s[..|w|] == w && s[|w|..] == [c] + rest;
    SpanIs(s, |w|);
    assert s[0] == w[0];
    assert ([c] + rest)[1..] == rest;
  }

  /** A word at the end. */
  lemma WordsLast(w: string)
    requires w != "" && Unbroken(w)
    ensures Words(w) == [w]
  {
    assert w[..|w|] == w && w[|w|..] == "";
    SpanIs(w, |w|);
  }

  lemma {:induction false} WordsJoin(words: seq<string>, tail: string)
    requires forall i :: 0 <= i < |words| ==> words[i] != "" && Unbroken(words[i])
    ensures Words(Join(words) + tail) == words + Words(tail)
  {
    if words == [] {
      assert Join(words) + tail == tail;
    } else {
      var rest := Join(words[1..]) + tail;
      assert Join(words) + tail == words[0] + ([' '] + rest);
      WordsJoin(words[1..], tail);
      WordsCons(words[0], ' ', rest);
      assert words == [words[0]] + words[1..];
    }
  }

  /** Cutting a text short never adds words. */
  lemma {:induction false} WordsCut(s: string, k: nat)
    requires k <= |s|
    ensures |Words(s[..k])| <= |Words(s)|
    decreases |s|
  {
    if k == 0 {
    } else if IsSep(s[0]) {
      assert s[..k][1..] == s[1..][..k - 1];
      WordsCut(s[1..], k - 1);
    } else {
      var n := Span(s);
      if k <= n {
        WordsLast(s[..k]);
      } else {
        var rest := s[n + 1..];
        assert s == s[..n] + ([s[n]] + rest);
        assert s[..k] == s[..n] + ([s[n]] + rest[..k - n - 1]);
        WordsCons(s[..n], s[n], rest);
        WordsCons(s[..n], s[n], rest[..k - n - 1]);
        WordsCut(rest, k - n - 1);
      }
    }
  }

  // ---------------------------------------------------------------- the round trip

  /** A request the server can read back. */
  predicate Readable(system: string, dset: string, start: int, end: int) {
    IsWord(system) && IsWord(dset) && IsInt(start) && IsInt(end)
  }

  /** Only readable requests come back as they were sent. */
  lemma ServedIsReadable(line: string)
    ensures Serve(line).Fetch? ==>
      Readable(Serve(line).system, Serve(line).dset, Serve(line).start, Serve(line).end)
  {
    var text := Str(Lower(line), 0);
    assert forall i :: 0 <= i < |text| ==> text[i] == Lower(line)[i];
    WordsAreWords(text);
  }

  /** A line whose words are known once lowered. */
  lemma ServeLowered(line: string, lowered: string)
    requires Lower(line) == lowered && IsText(lowered)
    ensures Serve(line) == Interpret(Words(lowered))
  {
    StrUnique(lowered, 0, |lowered|);
    assert lowered[0..|lowered|] == lowered;
  }

  /** What follows the first word of a request. */
  function Rest(system: string, dset: string, start: int, end: int, res: int): string {
    Join([system, dset, Dec(start), Dec(end)]) + Dec(res) + CRLF
  }

  lemma FormatRest(system: string, dset: string, start: int, end: int, res: int)
    ensures Format(system, dset, start, end, res) == "FETCH " + Rest(system, dset, start, end, res)
  {
    assert ["FETCH", system, dset, Dec(start), Dec(end)][1..] == [system, dset, Dec(start), Dec(end)];
  }

  /** Lower-case text on one line. */
  predicate IsLine(s: string) {
    IsText(s) && forall i :: 0 <= i < |s| ==> s[i] != '\n'
  }

  lemma {:induction false} JoinIsLine(words: seq<string>)
    requires forall i :: 0 <= i < |words| ==> IsWord(words[i])
    ensures IsLine(Join(words))
  {
    if words != [] {
      JoinIsLine(words[1..]);
      assert IsLine(words[0]);
      var rest := Join(words[1..]);
      assert IsLine(words[0] + " " + rest);
    }
  }

  lemma RestIsLine(system: string, dset: string, start: int, end: int, res: int)
    requires Readable(system, dset, start, end)
    ensures var rest := Rest(system, dset, start, end, res);
      IsText(rest) && IsLine(rest[..|rest| - 1]) && rest[|rest| - 1] == '\n'
  {
    var head := Join([system, dset, Dec(start), Dec(end)]);
    JoinIsLine([system, dset, Dec(start), Dec(end)]);
    assert IsLine(head + Dec(res));
  }

  lemma LowerFetch(rest: string, k: nat)
    requires IsText(rest) && k <= 6 + |rest|
    ensures Lower(("FETCH " + rest)[..k]) == ("fetch " + rest)[..k] && IsText("fetch " + rest)
  {
    var s, t := "FETCH " + rest, "fetch " + rest;
    assert forall i :: 0 <= i < 6 ==> t[i] == LowerByte(s[i]) && t[i] != '\0' && !('A' <= t[i] <= 'Z');
    assert forall i :: 6 <= i < |t| ==> t[i] == s[i] == rest[i - 6];
  }

  lemma TailWords(res: int, j: nat)
    requires j <= |Dec(res)| + 2
    ensures var words := Words((Dec(res) + CRLF)[..j]);
      if j == 0 then words == [] else words == [if j <= |Dec(res)| then Dec(res)[..j] else Dec(res)]
  {
    var dec := Dec(res);
    var tail := (dec + CRLF)[..j];
    if j == 0 {
    } else if j <= |dec| {
      assert tail == dec[..j];
      WordsLast(dec[..j]);
    } else {
      assert tail == dec + (['\r'] + "\n"[..j - |dec| - 1]);
      WordsCons(dec, '\r', "\n"[..j - |dec| - 1]);
    }
  }

  lemma TakeConcat(a: string, b: string, k: nat)
    requires k <= |a| + |b|
    ensures (a + b)[..k] == if k <= |a| then a[..k] else a + b[..k - |a|]
  {
  }

  predicate AreWords(words: seq<string>) {
    forall i :: 0 <= i < |words| ==> words[i] != "" && Unbroken(words[i])
  }

  lemma FetchWords(system: string, dset: string, start: int, end: int)
    requires Readable(system, dset, start, end)
    ensures AreWords(["fetch", system, dset, Dec(start), Dec(end)])
  {
    var word := "fetch";
    assert Unbroken(word);
  }

  lemma CutHead(words: seq<string>, k: nat)
    requires AreWords(words) && k <= |Join(words)|
    ensures |Words(Join(words)[..k])| <= |words|
  {
    WordsJoin(words, "");
    assert Join(words) + "" == Join(words);
    WordsCut(Join(words), k);
  }

  /** The words in the first k bytes of a request: five, then what is left of the sixth. */
  lemma CutWords(words: seq<string>, res: int, k: nat)
    requires AreWords(words)
    requires k <= |Join(words)| + |Dec(res)| + 2
    ensures var cut := Words((Join(words) + (Dec(res) + CRLF))[..k]); var j := k - |Join(words)|;
      if j <= 0 then |cut| <= |words|
      else cut == words + [if j <= |Dec(res)| then Dec(res)[..j] else Dec(res)]
  {
    TakeConcat(Join(words), Dec(res) + CRLF, k);
    if k <= |Join(words)| {
      CutHead(words, k);
    } else {
      var j := k - |Join(words)|;
      WordsJoin(words, (Dec(res) + CRLF)[..j]);
      TailWords(res, j);
    }
  }

  lemma InterpretFetch(system: string, dset: string, start: int, end: int, last: string)
    requires IsInt(start) && IsInt(end)
    ensures Interpret(["fetch", system, dset, Dec(start), Dec(end)] + [last])
      == Fetch(system, dset, start, end, Atoi(last))
  {
    DecReadBack(start);
    DecReadBack(end);
    var word := "fetch";
    assert "fetch" <= word && word[0] == 'f' && "quit"[0] == 'q' && "exit"[0] == 'e';
  }

  /** The first k bytes of a readable request are read back as that request exactly when they
  hold its last digit. */
  lemma CutRequest(system: string, dset: string, start: int, end: int, res: int, k: nat)
    requires Readable(system, dset, start, end) && IsInt(res)
    requires k <= |Format(system, dset, start, end, res)|
    ensures Serve(Format(system, dset, start, end, res)[..k]) == Fetch(system, dset, start, end, res)
      <==> k >= |Format(system, dset, start, end, res)| - 2
  {
    var words := ["fetch", system, dset, Dec(start), Dec(end)];
    FetchPrefix(system, dset, start, end, res, k);
    FetchWords(system, dset, start, end);
    CutWords(words, res, k);
    var j := k - |Join(words)|;
    if 0 < j {
      var last := if j <= |Dec(res)| then Dec(res)[..j] else Dec(res);
      InterpretFetch(system, dset, start, end, last);
      if j < |Dec(res)| {
        DecCut(res, j);
      } else {
        assert last == Dec(res);
        DecReadBack(res);
      }
    }
  }

  lemma FetchPrefix(system: string, dset: string, start: int, end: int, res: int, k: nat)
    requires Readable(system, dset, start, end) && k <= |Format(system, dset, start, end, res)|
    ensures var line := Join(["fetch", system, dset, Dec(start), Dec(end)]) + (Dec(res) + CRLF);
      && |line| == |Format(system, dset, start, end, res)|
      && Serve(Format(system, dset, start, end, res)[..k]) == Interpret(Words(line[..k]))
  {
    var rest := Rest(system, dset, start, end, res);
    FormatRest(system, dset, start, end, res);
    assert ["fetch", system, dset, Dec(start), Dec(end)][1..] == [system, dset, Dec(start), Dec(end)];
    assert Join(["fetch", system, dset, Dec(start), Dec(end)]) + (Dec(res) + CRLF) == "fetch " + rest;
    RestIsLine(system, dset, start, end, res);
    LowerFetch(rest, k);
    ServeLowered(("FETCH " + rest)[..k], ("fetch " + rest)[..k]);
  }

  lemma FormatIsLine(system: string, dset: string, start: int, end: int, res: int)
    requires Readable(system, dset, start, end)
    ensures var line := Format(system, dset, start, end, res);
      line[|line| - 1] == '\n' && forall i :: 0 <= i < |line| - 1 ==> line[i] != '\n'
  {
    var line := Format(system, dset, start, end, res);
    var rest := Rest(system, dset, start, end, res);
    FormatRest(system, dset, start, end, res);
    RestIsLine(system, dset, start, end, res);
    assert forall i :: 0 <= i < 6 ==> "FETCH "[i] != '\n';
    assert forall i :: 6 <= i < |line| - 1 ==> line[i] == rest[..|rest| - 1][i - 6];
  }

  /** What the reader makes of a line at the front of the stream. */
  lemma LinePiece(line: string, more: string)
    requires line != "" && line[|line| - 1] == '\n'
    requires forall i :: 0 <= i < |line| - 1 ==> line[i] != '\n'
    ensures Piece(line + more, ROOM) == line[..if |line| <= ROOM then |line| else ROOM]
  {
    var n := if |line| <= ROOM then |line| else ROOM;
    var stream := line + more;
    assert stream[..n] == line[..n];
    assert forall i :: 0 <= i < n ==> stream[i] == line[i];
    PieceUnique(stream, ROOM, n);
  }

  lemma FormatPiece(system: string, dset: string, start: int, end: int, res: int, more: string)
    requires Readable(system, dset, start, end)
    ensures var line := Format(system, dset, start, end, res);
      Piece(line + more, ROOM) == line[..if |line| <= ROOM then |line| else ROOM]
  {
    FormatIsLine(system, dset, start, end, res);
    LinePiece(Format(system, dset, start, end, res), more);
  }

  /** The server reads back exactly what the client meant, if and only if the names are single
  lower-case words, the times are ints, and the line without its end fits the buffer. */
  lemma RequestRoundTrip(system: string, dset: string, start: int, end: int, res: int, more: string)
    requires IsInt(res)
    ensures Serve(Piece(Format(system, dset, start, end, res) + more, ROOM)) == Fetch(system, dset, start, end, res)
      <==> Readable(system, dset, start, end) && |Format(system, dset, start, end, res)| - 2 <= 1022
  {
    var line := Format(system, dset, start, end, res);
    if Readable(system, dset, start, end) {
      FormatPiece(system, dset, start, end, res, more);
      CutRequest(system, dset, start, end, res, if |line| <= ROOM then |line| else ROOM);
    } else {
      ServedIsReadable(Piece(line + more, ROOM));
    }
  }

  // ---------------------------------------------------------------- whole sessions

  predicate Good(r: Request) {
    && r.Fetch? && Readable(r.system, r.dset, r.start, r.end) && IsInt(r.res)
    && |Sent(r)| - 2 <= ROOM
  }

  function Sent(r: Request): string
    requires r.Fetch?
  {
    Format(r.system, r.dset, r.start, r.end, r.res)
  }

  /** A line at the front of the stream, or as much of it as fits. */
  lemma SessionLine(line: string, more: string)
    requires line != "" && line[|line| - 1] == '\n'
    requires forall i :: 0 <= i < |line| - 1 ==> line[i] != '\n'
    ensures var n := if |line| <= ROOM then |line| else ROOM;
      Session(line + more) == Then(Serve(line[..n]), Session(line[n..] + more))
  {
    LinePiece(line, more);
    var n := if |line| <= ROOM then |line| else ROOM;
    assert (line + more)[n..] == line[n..] + more;
  }

  lemma {:induction false} NoWords(s: string)
    requires forall i :: 0 <= i < |s| ==> IsSep(s[i])
    ensures Words(s) == []
  {
    if s != "" {
      NoWords(s[1..]);
    }
  }

  lemma ServeBlank(line: string)
    requires line == "\n" || line == "\r\n"
    ensures Serve(line) == Blank
  {
    assert Lower(line) == line;
    ServeLowered(line, line);
    NoWords(line);
  }

  /** The end of a line that did not fit is a blank line. */
  lemma EndIsBlank(tail: string, more: string)
    requires tail == "\n" || tail == "\r\n"
    ensures Session(tail + more) == Session(more)
  {
    ServeBlank(tail);
    SessionShortLine(tail, more);
  }

  lemma SessionShortLine(line: string, more: string)
    requires 0 < |line| <= ROOM && line[|line| - 1] == '\n'
    requires forall i :: 0 <= i < |line| - 1 ==> line[i] != '\n'
    ensures Session(line + more) == Then(Serve(line), Session(more))
  {
    SessionLine(line, more);
    assert line[..|line|] == line && line[|line|..] + more == more;
  }

  /** A request is served first, and the rest of the stream after it. */
  lemma SessionCons(r: Request, more: string)
    requires Good(r)
    ensures Session(Sent(r) + more) == [r] + Session(more)
  {
    var line := Sent(r);
    FormatIsLine(r.system, r.dset, r.start, r.end, r.res);
    SessionLine(line, more);
    var n := if |line| <= ROOM then |line| else ROOM;
    CutRequest(r.system, r.dset, r.start, r.end, r.res, n);
    SentEnd(r);
    if n == |line| {
      assert line[n..] + more == more;
    } else {
      EndIsBlank(line[n..], more);
    }
  }

  lemma SentEnd(r: Request)
    requires Good(r)
    ensures var line := Sent(r); |line| >= 2 && line[|line| - 2..] == "\r\n"
    ensures var line := Sent(r); |line| > ROOM ==> line[ROOM..] == "\n" || line[ROOM..] == "\r\n"
  {
    var line := Sent(r);
    if |line| > ROOM {
      assert line[ROOM..] == line[|line| - 2..][ROOM - (|line| - 2)..];
    }
  }

  function SentAll(rs: seq<Request>): string
    requires forall i :: 0 <= i < |rs| ==> rs[i].Fetch?
  {
    if rs == [] then "" else Sent(rs[0]) + SentAll(rs[1..])
  }

  predicate AllGood(rs: seq<Request>)
    ensures AllGood(rs) ==> forall i :: 0 <= i < |rs| ==> rs[i].Fetch?
  {
    forall i :: 0 <= i < |rs| ==> Good(rs[i])
  }

  lemma SessionFirst(rs: seq<Request>)
    requires rs != [] && AllGood(rs)
    ensures AllGood(rs[1..]) && Session(SentAll(rs)) == [rs[0]] + Session(SentAll(rs[1..]))
  {
    SessionCons(rs[0], SentAll(rs[1..]));
  }

  /** Any number of requests on one connection are all read back, in order. */
  lemma {:induction false} SessionRoundTrip(rs: seq<Request>)
    requires AllGood(rs)
    ensures Session(SentAll(rs)) == rs
  {
    if rs != [] {
      SessionRoundTrip(rs[1..]);
      SessionFirst(rs);
      assert rs == [rs[0]] + rs[1..];
    }
  }

  // ---------------------------------------------------------------- commands of one word

  /** A word as the client may write it, in any letter case. */
  predicate IsTyped(word: string) {
    word != "" && Unbroken(word) && forall i :: 0 <= i < |word| ==> word[i] != '\0'
  }

  lemma LowerTyped(word: string)
    requires IsTyped(word)
    ensures IsWord(Lower(word))
  {
  }

  lemma LowerCut(word: string, k: nat)
    requires k <= 2
    ensures Lower(word + CRLF[..k]) == Lower(word) + CRLF[..k]
  {
  }

  lemma CommandWords(word: string, k: nat)
    requires IsWord(word) && k <= 2
    ensures IsText(word + CRLF[..k]) && Words(word + CRLF[..k]) == [word]
  {
    if k == 0 {
      assert word + CRLF[..0] == word;
      WordsLast(word);
    } else {
      var rest := CRLF[1..k];
      assert word + CRLF[..k] == word + (['\r'] + rest);
      WordsCons(word, '\r', rest);
      NoWords(rest);
    }
  }

  /** A line of one word, with all, some or nothing of its end. */
  lemma ServeCommand(word: string, k: nat)
    requires IsTyped(word) && k <= 2
    ensures Serve(word + CRLF[..k]) == Interpret([Lower(word)])
  {
    LowerTyped(word);
    LowerCut(word, k);
    CommandWords(Lower(word), k);
    ServeLowered(word + CRLF[..k], Lower(word) + CRLF[..k]);
  }

  /** What a line of one word asks for. */
  function Command(word: string): Request {
    var w := Lower(word);
    if "quit" <= w || "exit" <= w then Quit
    else if "enum" <= w then Enum
    else Invalid
  }

  lemma InterpretOne(word: string)
    ensures Interpret([Lower(word)]) == Command(word)
  {
    var w := Lower(word);
    assert "fetch" <= w ==> w[0] == 'f' && "enum"[0] == 'e';
  }

  /** A line of one word at the front of a stream, in any letter case: a word that begins with
  quit or exit ends the session whatever comes after it, one that begins with enum asks for the
  list, every other one is refused; and the session goes on behind the line's end. */
  lemma CommandLine(word: string, more: string)
    requires IsTyped(word) && |word| <= ROOM
    ensures Session(word + CRLF + more) == if Command(word) == Quit then [Quit] else [Command(word)] + Session(more)
  {
    var k := if |word| + 2 <= ROOM then 2 else ROOM - |word|;
    CommandPiece(word, more, k);
    ServeCommand(word, k);
    InterpretOne(word);
    if k == 2 {
      assert CRLF[k..] + more == more;
    } else {
      assert CRLF[k..] == if k == 0 then CRLF else "\n";
      EndIsBlank(CRLF[k..], more);
    }
  }

  lemma CommandPiece(word: string, more: string, k: nat)
    requires IsTyped(word) && |word| <= ROOM && k == if |word| + 2 <= ROOM then 2 else ROOM - |word|
    ensures k <= 2
    ensures Session(word + CRLF + more) == Then(Serve(word + CRLF[..k]), Session(CRLF[k..] + more))
  {
    TypedLine(word);
    assert word + CRLF == (word + CRLF[..k]) + CRLF[k..];
    SessionSplit(word + CRLF, word + CRLF[..k], CRLF[k..], more);
  }

  lemma TypedLine(word: string)
    requires IsTyped(word)
    ensures var line := word + CRLF;
      |line| == |word| + 2 && line[|line| - 1] == '\n' && forall i :: 0 <= i < |line| - 1 ==> line[i] != '\n'
  {
  }

  lemma SessionSplit(line: string, head: string, tail: string, more: string)
    requires line == head + tail && |head| == if |line| <= ROOM then |line| else ROOM
    requires line != "" && line[|line| - 1] == '\n'
    requires forall i :: 0 <= i < |line| - 1 ==> line[i] != '\n'
    ensures Session(line + more) == Then(Serve(head), Session(tail + more))
  {
    var n := |head|;
    assert line[..n] == head && line[n..] == tail;
    SessionLine(line, more);
  }

  // ---------------------------------------------------------------- the client's sessions

  /** How getData ends: with all points and 104, or with 200 and an exception. */
  datatype Ending = Complete | Refused

  const QUIT := "quit\r\n"

  /** What a client sends in a session of calls of getData.  After a complete answer "quit" stays
  in the output buffer, and goes out in front of the next request; after a refusal it does not. */
  function SentBy(rs: seq<Request>, ends: seq<Ending>): string
    requires |rs| == |ends| && forall i :: 0 <= i < |rs| ==> rs[i].Fetch?
  {
    if rs == [] then ""
    else
      Sent(rs[0]) + ((if ends[0].Complete? && |rs| > 1 then QUIT else "") + SentBy(rs[1..], ends[1..]))
  }

  /** The calls the server gets to see: up to the first complete one, and then its quit. */
  function SeenOf(rs: seq<Request>, ends: seq<Ending>): seq<Request>
    requires |rs| == |ends|
  {
    if rs == [] then []
    else if ends[0].Complete? then [rs[0]] + if |rs| > 1 then [Quit] else []
    else [rs[0]] + SeenOf(rs[1..], ends[1..])
  }

  lemma QuitLine(more: string)
    ensures Session(QUIT + more) == [Quit]
  {
    var word := "quit";
    assert Lower(word) == word;
    CommandLine(word, more);
    assert QUIT == word + CRLF;
  }

  /** The server serves a client's calls up to and including the first that it answers in full. */
  lemma {:induction false} SessionOfCalls(rs: seq<Request>, ends: seq<Ending>)
    requires |rs| == |ends| && AllGood(rs)
    ensures Session(SentBy(rs, ends)) == SeenOf(rs, ends)
  {
    if rs != [] {
      var rest := SentBy(rs[1..], ends[1..]);
      if ends[0].Complete? && |rs| > 1 {
        SessionCons(rs[0], QUIT + rest);
        QuitLine(rest);
      } else {
        SessionCons(rs[0], rest);
        assert "" + rest == rest;
        assert |rs| == 1 ==> rest == "";
        SessionOfCalls(rs[1..], ends[1..]);
      }
    }
  }

  lemma {:induction false} SeenCall(rs: seq<Request>, ends: seq<Ending>, k: nat)
    requires |rs| == |ends| && k < |rs| && forall i :: 0 <= i < |rs| ==> rs[i].Fetch?
    ensures (k < |SeenOf(rs, ends)| && SeenOf(rs, ends)[k] == rs[k]) <==> forall j :: 0 <= j < k ==> ends[j].Refused?
  {
    if k > 0 {
      if ends[0].Refused? {
        SeenCall(rs[1..], ends[1..], k - 1);
        assert forall j :: 1 <= j < k ==> ends[j] == ends[1..][j - 1];
        assert (forall j :: 0 <= j < k - 1 ==> ends[1..][j].Refused?) ==> forall j :: 0 <= j < k ==> ends[j].Refused?;
      } else {
        assert k < |SeenOf(rs, ends)| ==> SeenOf(rs, ends)[k] == Quit;
      }
    }
  }

  /** Call k of a session is served if and only if no earlier call was answered in full. */
  lemma ServedUntilComplete(rs: seq<Request>, ends: seq<Ending>, k: nat)
    requires |rs| == |ends| && AllGood(rs) && k < |rs|
    ensures var served := Session(SentBy(rs, ends));
      (k < |served| && served[k] == rs[k]) <==> forall j :: 0 <= j < k ==> ends[j].Refused?
  {
    SessionOfCalls(rs, ends);
    SeenCall(rs, ends, k);
  }

  // ---------------------------------------------------------------- other requests

  lemma JoinHead(word: string, head: string, words: seq<string>)
    requires head == word + " "
    ensures Join([word] + words) + CRLF == head + (Join(words) + CRLF)
  {
    assert ([word] + words)[1..] == words;
    assert Join([word] + words) == head + Join(words);
  }

  lemma FetchHeads(words: seq<string>)
    ensures Join(["FETCH"] + words) + CRLF == "FETCH " + (Join(words) + CRLF)
    ensures Join(["fetch"] + words) + CRLF == "fetch " + (Join(words) + CRLF)
  {
    JoinHead("FETCH", "FETCH ", words);
    JoinHead("fetch", "fetch ", words);
  }

  lemma RestIsText(args: seq<string>)
    requires forall i :: 0 <= i < |args| ==> IsWord(args[i])
    ensures IsText(Join(args) + CRLF)
  {
    JoinIsLine(args);
  }

  lemma FetchLowered(rest: string)
    requires IsText(rest)
    ensures Serve("FETCH " + rest) == Interpret(Words("fetch " + rest))
  {
    var upper, lower := "FETCH " + rest, "fetch " + rest;
    LowerFetch(rest, 6 + |rest|);
    assert upper[..|upper|] == upper && lower[..|lower|] == lower;
    ServeLowered(upper, lower);
  }

  lemma FetchWordsOf(args: seq<string>)
    requires forall i :: 0 <= i < |args| ==> IsWord(args[i])
    ensures Words(Join(["fetch"] + args) + CRLF) == ["fetch"] + args
  {
    FetchArgsAreWords(args);
    WordsJoin(["fetch"] + args, CRLF);
    NoWords(CRLF);
  }

  lemma FetchArgsAreWords(args: seq<string>)
    requires forall i :: 0 <= i < |args| ==> IsWord(args[i])
    ensures AreWords(["fetch"] + args)
  {
    var word := "fetch";
    assert Unbroken(word);
  }

  lemma InterpretCount(args: seq<string>)
    ensures if |args| == 5 then Interpret(["fetch"] + args).Fetch? else Interpret(["fetch"] + args) == Invalid
  {
    var word := "fetch";
    assert "fetch" <= word && word[0] == 'f' && "quit"[0] == 'q' && "exit"[0] == 'e';
  }

  /** FETCH takes exactly five arguments: with any other number of words it is refused. */
  lemma FetchNeedsFiveArguments(args: seq<string>)
    requires forall i :: 0 <= i < |args| ==> IsWord(args[i])
    ensures var r := Serve(Join(["FETCH"] + args) + CRLF);
      if |args| == 5 then r.Fetch? else r == Invalid
  {
    var rest := Join(args) + CRLF;
    FetchHeads(args);
    RestIsText(args);
    FetchLowered(rest);
    FetchWordsOf(args);
    InterpretCount(args);
  }

  // ---------------------------------------------------------------- every line

  /** Blanks, tabs and line ends. */
  predicate IsGap(gap: string) {
    forall i :: 0 <= i < |gap| ==> gap[i] == ' ' || gap[i] == '\t' || gap[i] == '\r' || gap[i] == '\n'
  }

  /** Words with gaps before, between and after them. */
  function LineText(words: seq<string>, gaps: seq<string>): string
    requires |gaps| == |words| + 1
  {
    if words == [] then gaps[0] else gaps[0] + (words[0] + LineText(words[1..], gaps[1..]))
  }

  predicate GapsOk(words: seq<string>, gaps: seq<string>) {
    && |gaps| == |words| + 1
    && (forall i :: 0 <= i < |gaps| ==> IsGap(gaps[i]))
    && (forall i :: 0 < i < |words| ==> gaps[i] != "")
  }

  lemma {:induction false} WordsAfterGap(gap: string, rest: string)
    requires IsGap(gap)
    ensures Words(gap + rest) == Words(rest)
  {
    if gap == "" {
      assert gap + rest == rest;
    } else {
      assert (gap + rest)[1..] == gap[1..] + rest;
      WordsAfterGap(gap[1..], rest);
    }
  }

  /** The words of a line are its words, whatever the gaps. */
  lemma {:induction false} WordsOfLine(words: seq<string>, gaps: seq<string>)
    requires AreWords(words) && GapsOk(words, gaps)
    ensures Words(LineText(words, gaps)) == words
    decreases |words|
  {
    if words == [] {
      assert gaps[0] + "" == gaps[0];
      WordsAfterGap(gaps[0], "");
    } else {
      var w, rest := words[0], LineText(words[1..], gaps[1..]);
      WordsAfterGap(gaps[0], w + rest);
      WordsOfLine(words[1..], gaps[1..]);
      if rest == "" {
        assert w + rest == w;
        WordsLast(w);
      } else {
        RestBeginsWithGap(words, gaps);
        assert rest == [rest[0]] + rest[1..];
        WordsCons(w, rest[0], rest[1..]);
      }
    }
  }

  lemma RestBeginsWithGap(words: seq<string>, gaps: seq<string>)
    requires words != [] && GapsOk(words, gaps) && LineText(words[1..], gaps[1..]) != ""
    ensures IsSep(LineText(words[1..], gaps[1..])[0])
    ensures Words(LineText(words[1..], gaps[1..])) == Words(LineText(words[1..], gaps[1..])[1..])
  {
    assert gaps[1] != "";
    assert LineText(words[1..], gaps[1..])[0] == gaps[1][0];
  }

  lemma LineTextFront(words: seq<string>, gap: string, gaps: seq<string>)
    requires |gaps| == |words|
    ensures LineText(words, [gap] + gaps) ==
      if words == [] then gap else gap + (words[0] + LineText(words[1..], gaps))
  {
    assert ([gap] + gaps)[1..] == gaps;
  }

  lemma LineTextWider(c: char, words: seq<string>, gaps: seq<string>)
    requires |gaps| == |words| + 1
    ensures LineText(words, [[c] + gaps[0]] + gaps[1..]) == [c] + LineText(words, gaps)
  {
    assert gaps == [gaps[0]] + gaps[1..];
    LineTextFront(words, gaps[0], gaps[1..]);
    LineTextFront(words, [c] + gaps[0], gaps[1..]);
    if words != [] {
      StringsAssociate([c], gaps[0], words[0] + LineText(words[1..], gaps[1..]));
    }
  }

  lemma StringsAssociate(a: string, b: string, c: string)
    ensures (a + b) + c == a + (b + c)
  {
  }

  lemma GapsWider(c: char, words: seq<string>, gaps: seq<string>)
    requires GapsOk(words, gaps) && IsSep(c)
    ensures GapsOk(words, [[c] + gaps[0]] + gaps[1..])
  {
    var wider := [[c] + gaps[0]] + gaps[1..];
    forall i | 0 <= i < |wider|
      ensures IsGap(wider[i]) && (0 < i < |words| ==> wider[i] != "")
    {
      assert IsGap(gaps[i]) && (i > 0 ==> wider[i] == gaps[i]);
    }
  }

  /** Every text is such a line. */
  lemma {:induction false} EveryTextIsALine(s: string) returns (words: seq<string>, gaps: seq<string>)
    ensures AreWords(words) && GapsOk(words, gaps) && s == LineText(words, gaps)
    ensures s != "" && IsSep(s[0]) ==> gaps[0] != ""
    decreases |s|
  {
    if s == "" {
      words, gaps := [], [""];
    } else if IsSep(s[0]) {
      words, gaps := EveryTextIsALine(s[1..]);
      LineTextWider(s[0], words, gaps);
      GapsWider(s[0], words, gaps);
      gaps := [[s[0]] + gaps[0]] + gaps[1..];
      assert s == [s[0]] + s[1..];
    } else {
      var n := Span(s);
      var more, others := EveryTextIsALine(s[n..]);
      WordInFront(s[..n], more, others);
      words, gaps := [s[..n]] + more, [""] + others;
      assert s == s[..n] + s[n..] && (more != [] ==> s[n..] != "");
    }
  }

  lemma WordInFront(w: string, more: seq<string>, others: seq<string>)
    requires w != "" && Unbroken(w) && AreWords(more) && GapsOk(more, others) && (more != [] ==> others[0] != "")
    ensures AreWords([w] + more) && GapsOk([w] + more, [""] + others)
    ensures LineText([w] + more, [""] + others) == w + LineText(more, others)
  {
    var words, gaps := [w] + more, [""] + others;
    assert words[1..] == more && gaps[1..] == others;
    assert forall i :: 0 < i < |gaps| ==> gaps[i] == others[i - 1];
    assert "" + (w + LineText(more, others)) == w + LineText(more, others);
  }

  // ---------------------------------------------------------------- what every line asks for

  function LowerAll(words: seq<string>): (r: seq<string>)
    ensures |r| == |words| && forall i :: 0 <= i < |words| ==> r[i] == Lower(words[i])
  {
    seq(|words|, i requires 0 <= i < |words| => Lower(words[i]))
  }

  predicate AllTyped(words: seq<string>) {
    forall i :: 0 <= i < |words| ==> IsTyped(words[i])
  }

  lemma LowerConcat(a: string, b: string)
    ensures Lower(a + b) == Lower(a) + Lower(b)
  {
  }

  lemma LowerGap(gap: string)
    requires IsGap(gap)
    ensures Lower(gap) == gap && IsText(gap)
  {
  }

  lemma LowerParts(gap: string, word: string, rest: string)
    requires IsGap(gap) && IsTyped(word) && IsText(Lower(rest))
    ensures Lower(gap + (word + rest)) == gap + (Lower(word) + Lower(rest)) && IsText(gap + (Lower(word) + Lower(rest)))
  {
    LowerGap(gap);
    LowerTyped(word);
    LowerConcat(word, rest);
    LowerConcat(gap, word + rest);
  }

  lemma {:induction false} LowerLine(words: seq<string>, gaps: seq<string>)
    requires AllTyped(words) && GapsOk(words, gaps)
    ensures Lower(LineText(words, gaps)) == LineText(LowerAll(words), gaps) && IsText(LineText(LowerAll(words), gaps))
    decreases |words|
  {
    if words == [] {
      LowerGap(gaps[0]);
    } else {
      LowerLine(words[1..], gaps[1..]);
      assert LowerAll(words)[1..] == LowerAll(words[1..]);
      LowerParts(gaps[0], words[0], LineText(words[1..], gaps[1..]));
    }
  }

  lemma TypedLowered(words: seq<string>)
    requires AllTyped(words)
    ensures AreWords(LowerAll(words))
  {
    forall i | 0 <= i < |words|
      ensures Lower(words[i]) != "" && Unbroken(Lower(words[i]))
    {
      LowerTyped(words[i]);
    }
  }

  /** What a line asks for by its lowered words: only the beginning of the first word counts, ENUM
  takes no argument, FETCH five, and QUIT and EXIT any. */
  ghost predicate Asks(words: seq<string>, r: Request) {
    && (words == [] ==> r == Blank)
    && (words != [] ==>
          var w := words[0];
          && (("quit" <= w || "exit" <= w) <==> r == Quit)
          && (("enum" <= w && |words| == 1) <==> r == Enum)
          && (("fetch" <= w && |words| == 6) <==> r.Fetch?)
          && (r.Fetch? ==>
                r == Fetch(words[1], words[2], Atoi(words[3]), Atoi(words[4]), Atoi(words[5])))
          && r != Blank)
  }

  lemma KeywordsDiffer(w: string)
    ensures "quit" <= w ==> !("enum" <= w) && !("fetch" <= w)
    ensures "exit" <= w ==> !("enum" <= w) && !("fetch" <= w)
    ensures "enum" <= w ==> !("fetch" <= w)
  {
    assert "enum" <= w ==> w[1] == 'n';
    assert "exit" <= w ==> w[1] == 'x';
    assert "quit" <= w ==> w[0] == 'q';
    assert "fetch" <= w ==> w[0] == 'f';
  }

  /** Every line without a NUL, in any letter case and with any gaps, asks for what its words say. */
  lemma ServeLine(words: seq<string>, gaps: seq<string>)
    requires AllTyped(words) && GapsOk(words, gaps)
    ensures Asks(LowerAll(words), Serve(LineText(words, gaps)))
  {
    LowerLine(words, gaps);
    TypedLowered(words);
    WordsOfLine(LowerAll(words), gaps);
    ServeLowered(LineText(words, gaps), LineText(LowerAll(words), gaps));
    if words != [] { KeywordsDiffer(Lower(words[0])); }
  }

  /** And the session goes on behind it. */
  lemma LineInSession(words: seq<string>, gaps: seq<string>, more: string)
    requires AllTyped(words) && GapsOk(words, gaps)
    requires var line := LineText(words, gaps);
      0 < |line| <= ROOM && line[|line| - 1] == '\n' && forall i :: 0 <= i < |line| - 1 ==> line[i] != '\n'
    ensures var r := Serve(LineText(words, gaps));
      Asks(LowerAll(words), r) && Session(LineText(words, gaps) + more) == Then(r, Session(more))
  {
    ServeLine(words, gaps);
    SessionShortLine(LineText(words, gaps), more);
  }

  // ---------------------------------------------------------------- every number

  /** C's isspace. */
  predicate AreSpaces(s: string) {
    forall i :: 0 <= i < |s| ==>
      s[i] == ' ' || s[i] == '\t' || s[i] == '\n' || s[i] == 11 as char || s[i] == 12 as char || s[i] == '\r'
  }

  predicate NoDigitFirst(s: string) {
    s == "" || s[0] < '0' || s[0] > '9'
  }

  function Clamp(n: int): int {
    if n > 0x7fff_ffff_ffff_ffff then 0x7fff_ffff_ffff_ffff
    else if n < -0x8000_0000_0000_0000 then -0x8000_0000_0000_0000
    else n
  }

  lemma {:induction false} ScanZeros(zeros: string, rest: string)
    requires forall i :: 0 <= i < |zeros| ==> zeros[i] == '0'
    ensures Scan(zeros + rest, 0) == Scan(rest, 0)
  {
    if zeros == "" {
      assert zeros + rest == rest;
    } else {
      assert (zeros + rest)[1..] == zeros[1..] + rest;
      ScanZeros(zeros[1..], rest);
    }
  }

  lemma {:induction false} SkipSpaces(spaces: string, rest: string)
    requires AreSpaces(spaces)
    ensures Strtol(spaces + rest) == Strtol(rest)
  {
    if spaces == "" {
      assert spaces + rest == rest;
    } else {
      assert (spaces + rest)[1..] == spaces[1..] + rest;
      SkipSpaces(spaces[1..], rest);
    }
  }

  /** Any spaces, a sign or none, any zeros, the digits of a number and anything behind them are
  read as that number, held within a long. */
  lemma StrtolReads(spaces: string, sign: string, zeros: string, n: nat, tail: string)
    requires AreSpaces(spaces) && (sign == "" || sign == "+" || sign == "-") && NoDigitFirst(tail)
    requires forall i :: 0 <= i < |zeros| ==> zeros[i] == '0'
    ensures Strtol(spaces + (sign + (zeros + (Digits(n) + tail)))) == Clamp(if sign == "-" then 0 - n as int else n)
  {
    var number := zeros + (Digits(n) + tail);
    SkipSpaces(spaces, sign + number);
    ScanZeros(zeros, Digits(n) + tail);
    ScanDigits(n, tail);
    assert sign == "" ==> sign + number == number;
    assert sign != "" ==> (sign + number)[1..] == number && (sign + number)[0] == sign[0];
    assert IsDigit(number[0]);
  }

  /** Without a digit there is no number, and 0 is read. */
  lemma StrtolReadsNothing(spaces: string, sign: string, tail: string)
    requires AreSpaces(spaces) && (sign == "" || sign == "+" || sign == "-") && NoDigitFirst(tail)
    requires sign == "" ==> tail == "" || (tail[0] != '+' && tail[0] != '-' && !AreSpaces([tail[0]]))
    ensures Strtol(spaces + (sign + tail)) == 0
  {
    SkipSpaces(spaces, sign + tail);
    assert sign == "" ==> sign + tail == tail;
    assert sign != "" ==> (sign + tail)[1..] == tail && (sign + tail)[0] == sign[0];
    if sign == "" && tail != "" {
      assert [tail[0]][0] == tail[0];
    }
  }
}
