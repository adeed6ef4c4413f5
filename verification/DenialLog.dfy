/**
  The denial recorder: it reads /dev/kmsg in whatever pieces the reads return, splits the bytes into
  lines in a fixed buffer and logs the body of every line that is an AVC denial.
 */
module DenialLog {
  type Text = seq<char>
  const BUFFER: nat := 8192
  const NUL: char := '\0'

  function IndexOf(s: Text, c: char): (k: nat)
    ensures k <= |s| && (k < |s| ==> s[k] == c) && forall i :: 0 <= i < k ==> s[i] != c
  {
    if s == [] || s[0] == c then 0 else 1 + IndexOf(s[1..], c)
  }

  /** The complete lines of a stream, without their newlines, and what follows the last newline. */
  function Lines(s: Text): seq<Text> {
    var k := IndexOf(s, '\n');
    if k == |s| then [] else [s[..k]] + Lines(s[k + 1..])
  }

  function Tail(s: Text): Text {
    var k := IndexOf(s, '\n');
    if k == |s| then s else Tail(s[k + 1..])
  }

  lemma {:induction false} IndexUnique(s: Text, c: char, k: nat)
    requires k <= |s| && (k < |s| ==> s[k] == c) && forall i :: 0 <= i < k ==> s[i] != c
    ensures IndexOf(s, c) == k
  {
  }

  /** Splitting does not depend on where the stream is cut. */
  lemma {:induction false} CutAnywhere(a: Text, b: Text)
    ensures Lines(a + b) == Lines(a) + Lines(Tail(a) + b)
    ensures Tail(a + b) == Tail(Tail(a) + b)
    decreases |a|
  {
    var k := IndexOf(a, '\n');
    hide Lines, Tail;
    if k < |a| {
      IndexUnique(a + b, '\n', k);
      FirstLine(a, k);
      FirstLine(a + b, k);
      assert (a + b)[..k] == a[..k] && (a + b)[k + 1..] == a[k + 1..] + b;
      CutAnywhere(a[k + 1..], b);
    } else {
      NoLine(a);
    }
  }

  lemma {:induction false} FirstLine(s: Text, k: nat)
    requires k < |s| && IndexOf(s, '\n') == k
    ensures Lines(s) == [s[..k]] + Lines(s[k + 1..]) && Tail(s) == Tail(s[k + 1..])
  {
    hide IndexOf;
  }

  lemma NoLine(s: Text)
    requires IndexOf(s, '\n') == |s|
    ensures Lines(s) == [] && Tail(s) == s
  {
  }

  function Flat(chunks: seq<Text>): Text {
    if chunks == [] then [] else Flat(chunks[..|chunks| - 1]) + chunks[|chunks| - 1]
  }

  /** The lines examined, and the bytes kept, after splitting chunk by chunk. */
  function Examined(chunks: seq<Text>): (seq<Text>, Text) {
    if chunks == [] then ([], []) else
    var (lines, kept) := Examined(chunks[..|chunks| - 1]);
    var data := kept + chunks[|chunks| - 1];
    (lines + Lines(data), Tail(data))
  }

  /** Every chunking of a stream examines the same lines: exactly its complete ones, in order. */
  lemma {:induction false} AnyChunking(chunks: seq<Text>)
    ensures Examined(chunks) == (Lines(Flat(chunks)), Tail(Flat(chunks)))
  {
    hide Lines, Tail;
    if chunks == [] {
      NoLine([]);
    } else {
      AnyChunking(chunks[..|chunks| - 1]);
      CutAnywhere(Flat(chunks[..|chunks| - 1]), chunks[|chunks| - 1]);
    }
  }

  /** Lines and tail put together again, newlines included, are the stream. */
  function Joined(lines: seq<Text>, tail: Text): Text {
    if lines == [] then tail else lines[0] + "\n" + Joined(lines[1..], tail)
  }

  lemma {:induction false} SplitThenJoin(s: Text)
    ensures Joined(Lines(s), Tail(s)) == s
    ensures '\n' !in Tail(s) && forall i :: 0 <= i < |Lines(s)| ==> '\n' !in Lines(s)[i]
    decreases |s|
  {
    hide Lines, Tail;
    var k := IndexOf(s, '\n');
    if k < |s| {
      FirstLine(s, k);
      SplitThenJoin(s[k + 1..]);
      JoinFirst(s[..k], Lines(s[k + 1..]), Tail(s));
      assert s == s[..k] + "\n" + s[k + 1..];
    } else {
      NoLine(s);
    }
  }

  lemma JoinFirst(line: Text, rest: seq<Text>, tail: Text)
    ensures Joined([line] + rest, tail) == line + "\n" + Joined(rest, tail)
  {
    assert ([line] + rest)[1..] == rest;
  }

  // ---- one line --------------------------------------------------------------

  /** A line as a C string: up to its first NUL. */
  function CString(s: Text): Text { s[..IndexOf(s, NUL)] }

  /** strip_kmsg_prefix: the bytes behind the first ';' and one blank after it. */
  function Body(line: Text): Text {
    var k := IndexOf(CString(line), ';');
    if k == |CString(line)| then line
    else if k + 1 < |line| && line[k + 1] == ' ' then line[k + 2..]
    else line[k + 1..]
  }

  predicate FoundAt(s: Text, sub: Text, i: nat) { i + |sub| <= |s| && s[i..i + |sub|] == sub }
  predicate Contains(s: Text, sub: Text) { exists i: nat :: i <= |s| && FoundAt(s, sub, i) }

  predicate IsDenial(line: Text) { Contains(CString(Body(line)), "avc: ") && Contains(CString(Body(line)), "denied") }

  /** Word w stands in the text at i, with no NUL before its end. */
  predicate VisibleAt(s: Text, w: Text, i: nat) { i + |w| <= |s| && s[i..i + |w|] == w && NUL !in s[..i + |w|] }

  /** A line is a denial exactly when both words stand in the visible part of its body. */
  lemma DenialMeans(line: Text)
    ensures IsDenial(line) <==> (exists i: nat :: VisibleAt(Body(line), "avc: ", i)) && (exists j: nat :: VisibleAt(Body(line), "denied", j))
  {
    VisibleIffContained(Body(line), "avc: ");
    VisibleIffContained(Body(line), "denied");
    hide Body, Contains, VisibleAt;
  }

  lemma VisibleIffContained(s: Text, w: Text)
    requires NUL !in w && w != []
    ensures Contains(CString(s), w) <==> exists i: nat :: VisibleAt(s, w, i)
  {
    var n := IndexOf(s, NUL);
    if Contains(CString(s), w) {
      var i: nat :| i <= |CString(s)| && FoundAt(CString(s), w, i);
      assert s[..n][i..i + |w|] == s[i..i + |w|];
      assert VisibleAt(s, w, i);
    }
    if i: nat :| VisibleAt(s, w, i) {
      assert forall k :: 0 <= k < i + |w| ==> s[k] == s[..i + |w|][k];
      assert n >= i + |w|;
      assert s[..n][i..i + |w|] == s[i..i + |w|];
      assert FoundAt(CString(s), w, i);
    }
  }

  /** The bodies of the denials among the lines, in order. */
  function Bodies(lines: seq<Text>): seq<Text> {
    if lines == [] then [] else
    var line := lines[|lines| - 1];
    Bodies(lines[..|lines| - 1]) + if IsDenial(line) then [Body(line)] else []
  }

  /** What stripping means: nothing, or a prefix that ends at the first ';' the C string has, and a blank if one follows. */
  lemma BodyMeans(line: Text)
    ensures ';' !in CString(line) ==> Body(line) == line
    ensures ';' in CString(line) ==> exists prefix: Text :: ';' !in prefix && NUL !in prefix && Behind(line, prefix)
  {
    hide IndexOf, Behind;
    var k := IndexOf(CString(line), ';');
    if k < |CString(line)| {
      PrefixClean(line, k);
      PrefixBehind(line, k);
    }
  }

  lemma PrefixClean(line: Text, k: nat)
    requires k < |CString(line)| && IndexOf(CString(line), ';') == k
    ensures k < |line| && line[k] == ';' && ';' !in line[..k] && NUL !in line[..k]
  {
    hide IndexOf;
    assert CString(line)[..k] == line[..k] && CString(line)[k] == line[k];
  }

  lemma PrefixBehind(line: Text, k: nat)
    requires k < |CString(line)| && IndexOf(CString(line), ';') == k && k < |line| && line[k] == ';'
    ensures Behind(line, line[..k])
  {
    hide IndexOf, CString;
    if k + 1 < |line| && line[k + 1] == ' ' {
      assert line == line[..k] + "; " + line[k + 2..];
    } else {
      assert line == line[..k] + ";" + line[k + 1..];
    }
  }

  predicate Behind(line: Text, prefix: Text) {
    line == prefix + "; " + Body(line) || (line == prefix + ";" + Body(line) && (Body(line) == [] || Body(line)[0] != ' '))
  }

  // ---- room for the next read ------------------------------------------------

  /** Every complete line with its newline, and the unfinished one with a newline to come, fits in 8191 bytes. */
  predicate LinesFit(s: Text) {
    (forall i :: 0 <= i < |Lines(s)| ==> |Lines(s)[i]| + 1 <= 8191) && |Tail(s)| + 1 <= 8191
  }

  /** The read size is positive at every point of the stream exactly when its lines fit. */
  lemma RoomIff(s: Text)
    ensures LinesFit(s) <==> forall k :: 0 <= k <= |s| ==> |Tail(s[..k])| < BUFFER - 1
  {
    if LinesFit(s) {
      forall k | 0 <= k <= |s|
        ensures |Tail(s[..k])| < BUFFER - 1
      {
        assert s == s[..k] + s[k..];
        FitPrefix(s[..k], s[k..]);
      }
    } else if |Tail(s)| >= BUFFER - 1 {
      assert s[..|s|] == s;
    } else {
      var i :| 0 <= i < |Lines(s)| && |Lines(s)[i]| + 1 > BUFFER - 1;
      var k := LongLine(s, i);
    }
  }

  /** Such a stream: 8191 bytes and no newline leave no room, and nothing that follows can be read. */
  lemma OverlongLine(s: Text)
    requires s == seq(BUFFER - 1, i => 'x')
    ensures !LinesFit(s) && |Tail(s)| == BUFFER - 1
  {
    IndexUnique(s, '\n', |s|);
    NoLine(s);
  }

  lemma {:induction false} FitPrefix(a: Text, b: Text)
    requires LinesFit(a + b)
    ensures |Tail(a)| < BUFFER - 1
    decreases |a|
  {
    CutAnywhere(a, b);
    var t := Tail(a);
    SplitThenJoin(a);
    var k := IndexOf(t + b, '\n');
    assert k >= |t| by {
      assert forall i :: 0 <= i < |t| ==> (t + b)[i] == t[i];
    }
    if k < |t + b| {
      assert Lines(a + b)[|Lines(a)|] == (t + b)[..k];
    }
  }

  lemma {:induction false} LongLine(s: Text, i: nat) returns (k: nat)
    requires i < |Lines(s)| && |Lines(s)[i]| >= BUFFER - 1
    ensures k <= |s| && |Tail(s[..k])| >= BUFFER - 1
    decreases |s|
  {
    hide Lines, Tail, IndexOf;
    var n := IndexOf(s, '\n');
    if n == |s| {
      NoLine(s);
    } else if i == 0 {
      FirstLine(s, n);
      k := n;
      IndexUnique(s[..n], '\n', n);
      NoLine(s[..n]);
    } else {
      FirstLine(s, n);
      var m := LongLine(s[n + 1..], i - 1);
      k := n + 1 + m;
      SkipLine(s, n, m);
    }
  }

  lemma SkipLine(s: Text, n: nat, m: nat)
    requires n < |s| && IndexOf(s, '\n') == n && n + 1 + m <= |s|
    ensures Tail(s[..n + 1 + m]) == Tail(s[n + 1..][..m])
  {
    hide Lines, Tail, IndexOf;
    var part := s[..n + 1 + m];
    IndexUnique(part, '\n', n);
    FirstLine(part, n);
    assert part[n + 1..] == s[n + 1..][..m];
  }

  // ---- the loop --------------------------------------------------------------

  class Recorder {
    const buf: array<char>
    var filled: nat
    var logged: seq<Text>
    ghost var received: Text
    ghost var examined: seq<Text>

    /**
      However the bytes came in: the lines examined are the complete lines of everything received, the
      buffer keeps what follows, and the log holds exactly the stripped denials.
     */
    ghost predicate Valid() reads this, buf {
      && buf.Length == BUFFER && filled < BUFFER
      && examined == Lines(received) && buf[..filled] == Tail(received) && logged == Bodies(examined)
    }

    constructor ()
      ensures Valid() && fresh(buf) && received == []
    {
      buf := new char[BUFFER];
      filled, logged, received, examined := 0, [], [], [];
      new;
      assert buf[..0] == [];
    }

    /** The size passed to read; it is zero only when one unfinished line fills the buffer. */
    method ReadSize() returns (n: nat)
      requires Valid()
      ensures n == BUFFER - 1 - filled && (n == 0 <==> |Tail(received)| == BUFFER - 1)
      ensures LinesFit(received) ==> n > 0
    {
      assert |buf[..filled]| == filled;
      n := BUFFER - 1 - filled;
    }

    /** One read that returned chunk. */
    method Read(chunk: Text)
      requires Valid() && filled + |chunk| <= BUFFER - 1
      modifies this, buf
      ensures Valid() && received == old(received) + chunk
    {
      if |chunk| == 0 {
        assert received + chunk == received;
        return;
      }
      hide Lines, Tail, Bodies;
      ghost var before := Tail(received);
      CutAnywhere(received, chunk);
      received := received + chunk;
      CopyIn(chunk);
      filled := filled + |chunk|;
      buf[filled] := NUL;
      Split(before + chunk);
    }

    method CopyIn(chunk: Text)
      requires buf.Length == BUFFER && filled + |chunk| < BUFFER
      modifies buf
      ensures buf[..filled + |chunk|] == old(buf[..filled]) + chunk
    {
      for i := 0 to |chunk|
        invariant buf[..filled + i] == old(buf[..filled]) + chunk[..i]
      {
        buf[filled + i] := chunk[i];
      }
    }

    /** Examines every complete line in the buffer and moves the rest to the front. */
    method Split(ghost data: Text)
      requires buf.Length == BUFFER && filled < BUFFER && buf[..filled] == data && logged == Bodies(examined)
      modifies buf, this`filled, this`logged, this`examined
      ensures filled < BUFFER && buf[..filled] == Tail(data)
      ensures examined == old(examined) + Lines(data) && logged == Bodies(examined)
    {
      hide Sofar, Lines, Tail, Bodies, IsDenial, Body, IndexOf;
      var p := 0;
      var newline := FindNewline(p, data);
      NoneSofar(data, examined);
      while newline < filled
        invariant p <= newline <= filled < BUFFER && filled == old(filled) == |data|
        invariant forall i :: p <= i < filled ==> buf[i] == data[i]
        invariant newline - p == IndexOf(data[p..], '\n') && Sofar(data, p, old(examined), examined) && logged == Bodies(examined)
        decreases filled - p
      {
        LineSofar(data, p, newline, old(examined), examined);
        var line := CutLine(p, newline);
        assert line == data[p..newline];
        BodiesNext(examined, line);
        if IsDenial(line) {
          logged := logged + [Body(line)];
        }
        examined := examined + [line];
        p := newline + 1;
        newline := FindNewline(p, data);
      }
      AllSofar(data, p, old(examined), examined);
      if p != 0 {
        MoveDown(p, data);
        filled := filled - p;
      }
    }

    method CutLine(p: nat, newline: nat) returns (line: Text)
      requires p <= newline < filled < buf.Length
      modifies buf
      ensures line == old(buf[p..newline]) && forall i :: newline < i < buf.Length ==> buf[i] == old(buf[i])
    {
      buf[newline] := NUL;
      line := buf[p..newline];
    }

    method FindNewline(p: nat, ghost data: Text) returns (k: nat)
      requires p <= filled < buf.Length && |data| == filled && forall i :: p <= i < filled ==> buf[i] == data[i]
      ensures p <= k <= filled && k - p == IndexOf(data[p..], '\n')
    {
      k := p;
      while k < filled && buf[k] != '\n'
        invariant p <= k <= filled && forall i :: p <= i < k ==> buf[i] != '\n'
      {
        k := k + 1;
      }
      IndexUnique(data[p..], '\n', k - p);
    }

    /** memmove of the unfinished line to the front. */
    method MoveDown(p: nat, ghost data: Text)
      requires 0 < p <= filled < buf.Length && |data| == filled && forall i :: p <= i < filled ==> buf[i] == data[i]
      modifies buf
      ensures buf[..filled - p] == data[p..]
    {
      for i := 0 to filled - p
        invariant forall j :: 0 <= j < i ==> buf[j] == data[p + j]
        invariant forall j :: p + i <= j < filled ==> buf[j] == data[j]
      {
        buf[i] := buf[p + i];
      }
    }
  }

  /** The lines before p have been examined. */
  ghost predicate Sofar(data: Text, p: nat, before: seq<Text>, examined: seq<Text>)
    requires p <= |data|
  {
    before + Lines(data) == examined + Lines(data[p..]) && Tail(data) == Tail(data[p..])
  }

  lemma NoneSofar(data: Text, before: seq<Text>)
    ensures Sofar(data, 0, before, before) && data[0..] == data
  {
  }

  lemma LineSofar(data: Text, p: nat, newline: nat, before: seq<Text>, examined: seq<Text>)
    requires p <= newline < |data| && newline - p == IndexOf(data[p..], '\n') && Sofar(data, p, before, examined)
    ensures Sofar(data, newline + 1, before, examined + [data[p..newline]])
  {
    hide Lines, Tail, IndexOf;
    var line, rest, here := data[p..newline], data[newline + 1..], data[p..];
    FirstLine(here, newline - p);
    assert here[..newline - p] == line && here[newline - p + 1..] == rest;
    assert examined + ([line] + Lines(rest)) == (examined + [line]) + Lines(rest);
  }

  lemma AllSofar(data: Text, p: nat, before: seq<Text>, examined: seq<Text>)
    requires p <= |data| && IndexOf(data[p..], '\n') == |data| - p && Sofar(data, p, before, examined)
    ensures examined == before + Lines(data) && Tail(data) == data[p..]
  {
    NoLine(data[p..]);
    hide Lines, Tail, IndexOf;
  }

  lemma BodiesNext(lines: seq<Text>, line: Text)
    ensures Bodies(lines + [line]) == Bodies(lines) + if IsDenial(line) then [Body(line)] else []
  {
    assert (lines + [line])[..|lines|] == lines;
  }
}
