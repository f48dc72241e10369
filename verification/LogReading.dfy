/**
  Reading a board's log from its end (tailLines and read of src/coordinator/logStore.ts), against the lines the
  files hold, oldest first. A file is bytes, and what it holds is what its chunks are decoded to one by one.
 */
module LogReading {
  import Utf16

  datatype Option<+T> = None | Some(value: T)

  const CHUNK: nat := 0x1_0000
  const NEWLINE: char := '\n'

  // ---------------------------------------------------------------- lines

  function FirstLine(s: string): (i: nat)
    ensures i <= |s| && (i < |s| ==> s[i] == NEWLINE) && NEWLINE !in s[..i]
    ensures NEWLINE !in s ==> i == |s|
  {
    if s == "" || s[0] == NEWLINE then 0
    else
      var i := 1 + FirstLine(s[1..]);
      assert s[..i] == [s[0]] + s[1..][..i - 1];
      i
  }

  // s.split("\n"): one piece more than there are newlines.
  function Split(s: string): (pieces: seq<string>)
    ensures pieces != []
    decreases |s|
  {
    var i := FirstLine(s);
    if i == |s| then [s] else [s[..i]] + Split(s[i + 1..])
  }

  lemma {:induction false} LineThen(a: string, b: string)
    requires NEWLINE !in a
    ensures FirstLine(a + [NEWLINE] + b) == |a|
  {
    if a != "" {
      assert (a + [NEWLINE] + b)[1..] == a[1..] + [NEWLINE] + b;
      LineThen(a[1..], b);
    }
  }

  // Text before text only lengthens the first piece: the others are as they are.
  lemma {:induction false} SplitMore(a: string, b: string)
    ensures Split(a + b) == Split(a + Split(b)[0]) + Split(b)[1..]
    decreases |a|
  {
    var i := FirstLine(a);
    if i < |a| {
      var head, rest, first := a[..i], a[i + 1..], Split(b)[0];
      assert a == head + [NEWLINE] + rest;
      SplitMore(rest, b);
      SplitBefore(a, head, rest, b);
      SplitBefore(a, head, rest, first);
      InOrder([head], Split(rest + first), Split(b)[1..]);
    } else {
      assert a[..i] == a;
      OneLineMore(a, b);
    }
  }

  lemma SplitBefore(a: string, head: string, rest: string, b: string)
    requires a == head + [NEWLINE] + rest && NEWLINE !in head
    ensures Split(a + b) == [head] + Split(rest + b)
  {
    assert a + b == head + [NEWLINE] + (rest + b);
    SplitAt(head, rest + b);
  }

  lemma {:induction false} SplitAt(head: string, rest: string)
    requires NEWLINE !in head
    ensures Split(head + [NEWLINE] + rest) == [head] + Split(rest)
  {
    LineThen(head, rest);
    var s := head + [NEWLINE] + rest;
    assert s[..|head|] == head && s[|head| + 1..] == rest;
  }

  lemma {:induction false} OneLineMore(a: string, b: string)
    requires NEWLINE !in a
    ensures Split(a + b) == Split(a + Split(b)[0]) + Split(b)[1..]
  {
    var i := FirstLine(b);
    var first := Split(b)[0];
    assert first == b[..i];
    if i < |b| {
      assert b == first + [NEWLINE] + b[i + 1..];
      assert a + b == (a + first) + [NEWLINE] + b[i + 1..];
      SplitAt(a + first, b[i + 1..]);
    } else {
      assert first == b;
    }
  }

  // ---------------------------------------------------------------- the chunks of one file

  type Bytes = seq<Utf16.Octet>

  // What a file's chunks are decoded to, counted from its end: the first is what is left over.
  function Chunked(decode: Bytes -> string, file: Bytes): (chunks: seq<string>)
    ensures chunks == [] <==> file == []
    decreases |file|
  {
    if file == [] then []
    else
      var n := if |file| < CHUNK then |file| else CHUNK;
      Chunked(decode, file[..|file| - n]) + [decode(file[|file| - n..])]
  }

  function Text(chunks: seq<string>): string {
    if chunks == [] then "" else chunks[0] + Text(chunks[1..])
  }

  lemma {:induction false} TextAppend(a: seq<string>, b: seq<string>)
    ensures Text(a + b) == Text(a) + Text(b)
  {
    if a == [] {
      assert a + b == b;
    } else {
      assert (a + b)[1..] == a[1..] + b;
      TextAppend(a[1..], b);
    }
  }

  // Between two characters of a text in UTF-8.
  ghost predicate Between(cs: seq<Utf16.Character>, p: nat) {
    exists k :: 0 <= k <= |cs| && |Utf16.Utf8(cs[..k])| == p
  }

  // No chunk of it begins inside a character.
  ghost predicate Uncut(cs: seq<Utf16.Character>) {
    forall m: nat :: m * CHUNK <= |Utf16.Utf8(cs)| ==> Between(cs, |Utf16.Utf8(cs)| - m * CHUNK)
  }

  // Whole characters are decoded one after another.
  ghost predicate Decodes(decode: Bytes -> string) {
    && decode([]) == ""
    && forall a, b :: decode(Utf16.Utf8(a) + Utf16.Utf8(b)) == decode(Utf16.Utf8(a)) + decode(Utf16.Utf8(b))
  }

  lemma {:induction false} Utf8Append(a: seq<Utf16.Character>, b: seq<Utf16.Character>)
    ensures Utf16.Utf8(a + b) == Utf16.Utf8(a) + Utf16.Utf8(b)
  {
    if a == [] {
      assert a + b == b;
    } else {
      assert (a + b)[1..] == a[1..] + b;
      Utf8Append(a[1..], b);
    }
  }

  // Where no chunk begins inside a character, the chunks make up the text of the file.
  lemma {:induction false} WholeCharactersAreRead(decode: Bytes -> string, cs: seq<Utf16.Character>)
    requires Decodes(decode) && Uncut(cs)
    ensures Text(Chunked(decode, Utf16.Utf8(cs))) == decode(Utf16.Utf8(cs))
    decreases |Utf16.Utf8(cs)|
  {
    if Utf16.Utf8(cs) != [] {
      var k := LastCut(cs);
      StillBetween(cs, k, |Utf16.Utf8(cs[k..])|);
      WholeCharactersAreRead(decode, cs[..k]);
      OneChunkMore(decode, Utf16.Utf8(cs[..k]), Utf16.Utf8(cs[k..]));
    }
  }

  lemma LastCut(cs: seq<Utf16.Character>) returns (k: nat)
    requires Uncut(cs) && Utf16.Utf8(cs) != []
    ensures k <= |cs| && Utf16.Utf8(cs) == Utf16.Utf8(cs[..k]) + Utf16.Utf8(cs[k..])
    ensures if |Utf16.Utf8(cs)| < CHUNK then k == 0 else |Utf16.Utf8(cs[k..])| == CHUNK
  {
    k := 0;
    if |Utf16.Utf8(cs)| >= CHUNK {
      k := CutAt(cs, 1);
    }
    assert cs == cs[..k] + cs[k..];
    Utf8Append(cs[..k], cs[k..]);
  }

  lemma OneChunkMore(decode: Bytes -> string, init: Bytes, last: Bytes)
    requires last != [] && (|last| == CHUNK || (init == [] && |last| < CHUNK))
    ensures Text(Chunked(decode, init + last)) == Text(Chunked(decode, init)) + decode(last)
  {
    var file := init + last;
    assert file[..|file| - |last|] == init && file[|file| - |last|..] == last;
    assert Chunked(decode, file) == Chunked(decode, init) + [decode(last)];
    TextAppend(Chunked(decode, init), [decode(last)]);
    OneText(decode(last));
  }

  lemma OneText(chunk: string)
    ensures Text([chunk]) == chunk
  {
    assert [chunk][1..] == [];
  }

  lemma {:induction false} CutAt(cs: seq<Utf16.Character>, m: nat) returns (k: nat)
    requires Uncut(cs) && m * CHUNK <= |Utf16.Utf8(cs)|
    ensures k <= |cs| && |Utf16.Utf8(cs[..k])| == |Utf16.Utf8(cs)| - m * CHUNK
  {
    k :| 0 <= k <= |cs| && |Utf16.Utf8(cs[..k])| == |Utf16.Utf8(cs)| - m * CHUNK;
  }

  lemma {:induction false} StillBetween(cs: seq<Utf16.Character>, k: nat, n: nat)
    requires Uncut(cs) && k <= |cs| && |Utf16.Utf8(cs[..k])| == |Utf16.Utf8(cs)| - n && (n == CHUNK || k == 0)
    ensures Uncut(cs[..k])
  {
    var init := cs[..k];
    forall m: nat | m * CHUNK <= |Utf16.Utf8(init)| ensures Between(init, |Utf16.Utf8(init)| - m * CHUNK) {
      if m == 0 {
        assert init[..k] == init;
      } else if k > 0 {
        var j := CutAt(cs, m + 1);
        if k <= j {
          LongerAsText(cs, k, j);
        }
        assert init[..j] == cs[..j];
      }
    }
  }

  lemma LongerAsText(cs: seq<Utf16.Character>, k: nat, j: nat)
    requires k <= j <= |cs|
    ensures |Utf16.Utf8(cs[..k])| <= |Utf16.Utf8(cs[..j])|
  {
    assert cs[..j] == cs[..k] + cs[k..j];
    Utf8Append(cs[..k], cs[k..j]);
  }

  // ---------------------------------------------------------------- the end of one file

  // What a file holds: nothing of an empty one.
  function Lines(chunks: seq<string>): seq<string> {
    if chunks == [] then [] else Split(Text(chunks))
  }

  ghost predicate IsSuffix<T>(a: seq<T>, b: seq<T>) {
    |a| <= |b| && a == b[|b| - |a|..]
  }

  // The end of a file's lines: whole but for the first, which may be the end of one.
  ghost predicate EndOf(lines: seq<string>, all: seq<string>) {
    || IsSuffix(lines, all)
    || (0 < |lines| <= |all| && IsSuffix(lines[1..], all) && IsSuffix(lines[0], all[|all| - |lines|]))
  }

  // Part way: what is carried and the lines after it are the text of the chunks from the k-th on, and at the
  // beginning nothing is carried.
  ghost predicate Reading(chunks: seq<string>, k: nat, carry: string, lines: seq<string>) {
    && k <= |chunks|
    && if k == |chunks| then lines == [] && carry == ""
       else if k == 0 then lines == Split(Text(chunks)) && carry == ""
       else [carry] + lines == Split(Text(chunks[k..]))
  }

  // Where reading stops, a chunk at a time from the end: at the first with more newlines from there on than
  // lines are wanted, or at the beginning.
  function Stop(chunks: seq<string>, k: nat, wanted: nat): (p: nat)
    requires k <= |chunks|
    ensures p == 0 || (p < |chunks| && |Split(Text(chunks[p..]))| - 1 > wanted)
  {
    if k == 0 || (k < |chunks| && |Split(Text(chunks[k..]))| - 1 > wanted) then k
    else Stop(chunks, k - 1, wanted)
  }

  // The lines from there on, the first of them maybe the end of one; nothing of an empty end.
  function Tail(chunks: seq<string>, wanted: nat): seq<string> {
    var p := Stop(chunks, |chunks|, wanted);
    if p == 0 then Lines(chunks)
    else
      var pieces := Split(Text(chunks[p..]));
      if pieces[0] == "" then pieces[1..] else pieces
  }

  // The end of a file is its lines, or more than are wanted with the beginning of the file left out.
  method TailLines(decode: Bytes -> string, file: Bytes, wanted: nat) returns (lines: seq<string>)
    ensures lines == Tail(Chunked(decode, file), wanted)
    ensures EndOf(lines, Lines(Chunked(decode, file)))
    ensures lines == Lines(Chunked(decode, file)) || |lines| > wanted
  {
    var position: nat := |file|;
    var carry := "";
    lines := [];
    ReadsNothing(decode, file, wanted);
    while position > 0 && |lines| <= wanted
      invariant PartRead(decode, file, wanted, position, carry, lines)
    {
      var length := if position < CHUNK then position else CHUNK;
      var split := Split(decode(file[position - length..position]) + carry);
      ReadsChunk(decode, file, wanted, position, carry, lines, length, split);
      position := position - length;
      if position > 0 {
        carry, lines := split[0], split[1..] + lines;
      } else {
        carry, lines := "", split + lines;
      }
    }
    ReadsTail(decode, file, wanted, position, carry, lines);
    if carry != "" {
      lines := [carry] + lines;
    }
    TailIsEnd(Chunked(decode, file), wanted);
  }

  // The loop, at a position: so many of the chunks are yet to be read, and it stops where it would.
  ghost predicate PartRead(decode: Bytes -> string, file: Bytes, wanted: nat, position: nat, carry: string, lines: seq<string>) {
    && position <= |file|
    && var chunks, k := Chunked(decode, file), |Chunked(decode, file[..position])|;
       && k <= |chunks| && Chunked(decode, file[..position]) == chunks[..k]
       && Reading(chunks, k, carry, lines) && Stop(chunks, k, wanted) == Stop(chunks, |chunks|, wanted)
  }

  lemma ReadsNothing(decode: Bytes -> string, file: Bytes, wanted: nat)
    ensures PartRead(decode, file, wanted, |file|, "", [])
  {
    assert file[..|file|] == file;
    assert Chunked(decode, file)[..|Chunked(decode, file)|] == Chunked(decode, file);
    assert file == [] ==> Chunked(decode, file) == [];
  }

  lemma {:induction false} ReadsChunk(decode: Bytes -> string, file: Bytes, wanted: nat, position: nat, carry: string, lines: seq<string>,
                                      n: nat, split: seq<string>)
    requires PartRead(decode, file, wanted, position, carry, lines) && position > 0 && |lines| <= wanted
    requires n == if position < CHUNK then position else CHUNK
    requires split == Split(decode(file[position - n..position]) + carry)
    ensures if position > n then PartRead(decode, file, wanted, position - n, split[0], split[1..] + lines)
            else PartRead(decode, file, wanted, position - n, "", split + lines)
  {
    var chunks, k := Chunked(decode, file), |Chunked(decode, file[..position])|;
    ChunkBack(decode, file, position, chunks, k, n);
    NextChunk(chunks, k, carry, lines, wanted, split);
    ReadSoFar(decode, file, wanted, position - n, k - 1, if position > n then split[0] else "",
              if position > n then split[1..] + lines else split + lines);
  }

  lemma ReadSoFar(decode: Bytes -> string, file: Bytes, wanted: nat, position: nat, k: nat, carry: string, lines: seq<string>)
    requires position <= |file| && k <= |Chunked(decode, file)| && Chunked(decode, file[..position]) == Chunked(decode, file)[..k]
    requires Reading(Chunked(decode, file), k, carry, lines)
    requires Stop(Chunked(decode, file), k, wanted) == Stop(Chunked(decode, file), |Chunked(decode, file)|, wanted)
    ensures PartRead(decode, file, wanted, position, carry, lines)
  {
  }

  lemma NextChunk(chunks: seq<string>, k: nat, carry: string, lines: seq<string>, wanted: nat, split: seq<string>)
    requires 0 < k <= |chunks| && Reading(chunks, k, carry, lines) && |lines| <= wanted && split == Split(chunks[k - 1] + carry)
    ensures Stop(chunks, k - 1, wanted) == Stop(chunks, k, wanted)
    ensures if k > 1 then Reading(chunks, k - 1, split[0], split[1..] + lines) else Reading(chunks, 0, "", split + lines)
  {
    GoesOn(chunks, k, carry, lines, wanted);
    ReadOneMore(chunks, k - 1, carry, lines, split);
  }

  lemma {:induction false} ReadsTail(decode: Bytes -> string, file: Bytes, wanted: nat, position: nat, carry: string, lines: seq<string>)
    requires PartRead(decode, file, wanted, position, carry, lines) && (position == 0 || |lines| > wanted)
    ensures (if carry != "" then [carry] + lines else lines) == Tail(Chunked(decode, file), wanted)
  {
    assert position == 0 ==> file[..position] == [];
    Stops(Chunked(decode, file), |Chunked(decode, file[..position])|, carry, lines, wanted);
  }

  lemma GoesOn(chunks: seq<string>, k: nat, carry: string, lines: seq<string>, wanted: nat)
    requires Reading(chunks, k, carry, lines) && k > 0 && |lines| <= wanted
    ensures Stop(chunks, k, wanted) == Stop(chunks, k - 1, wanted)
  {
    if k < |chunks| {
      Behind(chunks, k, carry, lines);
    }
  }

  lemma Stops(chunks: seq<string>, k: nat, carry: string, lines: seq<string>, wanted: nat)
    requires Reading(chunks, k, carry, lines) && (k == 0 || |lines| > wanted)
    requires Stop(chunks, k, wanted) == Stop(chunks, |chunks|, wanted)
    ensures (if carry != "" then [carry] + lines else lines) == Tail(chunks, wanted)
  {
    if k > 0 {
      Behind(chunks, k, carry, lines);
      assert Stop(chunks, k, wanted) == k;
    }
  }

  lemma ChunkBack(decode: Bytes -> string, file: Bytes, position: nat, chunks: seq<string>, k: nat, n: nat)
    requires 0 < position <= |file| && k <= |chunks| && n == if position < CHUNK then position else CHUNK
    requires Chunked(decode, file[..position]) == chunks[..k]
    ensures k > 0 && Chunked(decode, file[..position - n]) == chunks[..k - 1]
    ensures decode(file[position - n..position]) == chunks[k - 1]
    ensures |Chunked(decode, file[..position - n])| == k - 1
  {
    var f := file[..position];
    assert f[..position - n] == file[..position - n] && f[position - n..] == file[position - n..position];
    var init, last := Chunked(decode, file[..position - n]), decode(file[position - n..position]);
    assert Chunked(decode, f) == init + [last];
    LastOf(chunks, k, init, last);
  }

  lemma LastOf<T>(all: seq<T>, k: nat, init: seq<T>, last: T)
    requires k <= |all| && all[..k] == init + [last]
    ensures k > 0 && init == all[..k - 1] && last == all[k - 1]
  {
    assert all[..k][..k - 1] == all[..k - 1] && (init + [last])[..k - 1] == init;
    assert all[..k][k - 1] == all[k - 1];
  }

  lemma {:induction false} TailIsEnd(chunks: seq<string>, wanted: nat)
    ensures EndOf(Tail(chunks, wanted), Lines(chunks))
    ensures Tail(chunks, wanted) == Lines(chunks) || |Tail(chunks, wanted)| > wanted
  {
    var p := Stop(chunks, |chunks|, wanted);
    if p > 0 {
      var pieces := Split(Text(chunks[p..]));
      assert [pieces[0]] + pieces[1..] == pieces;
      Ends(chunks, p, pieces[0], pieces[1..]);
    }
  }

  lemma Behind(chunks: seq<string>, k: nat, carry: string, lines: seq<string>)
    requires Reading(chunks, k, carry, lines) && 0 < k < |chunks|
    ensures var pieces := Split(Text(chunks[k..])); |lines| == |pieces| - 1 && carry == pieces[0] && lines == pieces[1..]
  {
    assert ([carry] + lines)[0] == carry && ([carry] + lines)[1..] == lines;
  }

  // A chunk more: the piece carried is the end of the first line there was, and the lines after it stay.
  lemma {:induction false} ReadOneMore(chunks: seq<string>, k: nat, carry: string, lines: seq<string>, split: seq<string>)
    requires k < |chunks| && Reading(chunks, k + 1, carry, lines)
    requires split == Split(chunks[k] + carry)
    ensures k > 0 ==> Reading(chunks, k, split[0], split[1..] + lines)
    ensures k == 0 ==> Reading(chunks, k, "", split + lines)
  {
    ChunkBefore(chunks, k, carry, lines);
    FirstOff(split, lines);
    if k == 0 {
      assert chunks[k..] == chunks;
    }
  }

  lemma FirstOff(split: seq<string>, lines: seq<string>)
    requires split != []
    ensures [split[0]] + (split[1..] + lines) == split + lines
  {
  }

  lemma {:induction false} ChunkBefore(chunks: seq<string>, k: nat, carry: string, lines: seq<string>)
    requires k < |chunks| && Reading(chunks, k + 1, carry, lines)
    ensures Split(chunks[k] + carry) + lines == Split(Text(chunks[k..]))
  {
    var a, b := chunks[k], Text(chunks[k + 1..]);
    assert chunks[k..] == [a] + chunks[k + 1..] && Text(chunks[k..]) == a + b;
    if k + 1 < |chunks| {
      CarriedOn(a, b, carry, lines);
    } else {
      assert a + carry == a == a + b;
      assert Split(a) + [] == Split(a);
    }
  }

  lemma {:induction false} CarriedOn(a: string, b: string, carry: string, lines: seq<string>)
    requires [carry] + lines == Split(b)
    ensures Split(a + carry) + lines == Split(a + b)
  {
    assert ([carry] + lines)[0] == carry && ([carry] + lines)[1..] == lines;
    SplitMore(a, b);
  }

  lemma {:induction false} Ends(chunks: seq<string>, k: nat, carry: string, lines: seq<string>)
    requires Reading(chunks, k, carry, lines) && 0 < k < |chunks|
    ensures EndOf(if carry != "" then [carry] + lines else lines, Lines(chunks))
  {
    var a, b := Text(chunks[..k]), Text(chunks[k..]);
    assert chunks == chunks[..k] + chunks[k..];
    TextAppend(chunks[..k], chunks[k..]);
    CarriedOn(a, b, carry, lines);
    assert carry == ([carry] + lines)[0];
    FirstHasNoNewline(b);
    LastPieceEnds(a, carry);
    EndsWith(Split(a + carry), carry, lines);
  }

  lemma FirstHasNoNewline(b: string)
    ensures NEWLINE !in Split(b)[0]
  {
  }

  lemma EndsWith(first: seq<string>, carry: string, lines: seq<string>)
    requires first != [] && IsSuffix(carry, first[|first| - 1])
    ensures EndOf(lines, first + lines) && EndOf([carry] + lines, first + lines)
  {
    assert ([carry] + lines)[1..] == lines;
    assert (first + lines)[|first|..] == lines;
    assert (first + lines)[|first| - 1] == first[|first| - 1];
  }

  // What is carried holds no newline, so the last piece before it ends with it.
  lemma {:induction false} LastPieceEnds(a: string, carry: string)
    ensures NEWLINE !in carry ==> IsSuffix(carry, Split(a + carry)[|Split(a + carry)| - 1])
    decreases |a|
  {
    var i := FirstLine(a);
    if i < |a| {
      var head, rest := a[..i], a[i + 1..];
      assert a == head + [NEWLINE] + rest;
      assert a + carry == head + [NEWLINE] + (rest + carry);
      SplitAt(head, rest + carry);
      LastPieceEnds(rest, carry);
    } else if NEWLINE !in carry {
      assert a[..i] == a;
      assert (a + carry)[|a|..] == carry;
    }
  }

  // ---------------------------------------------------------------- the live file and the rolled ones

  // Newest first, each by what its chunks are decoded to; none where a board has not logged that far back.
  type Files = seq<Option<seq<string>>>

  function AsRead(decode: Bytes -> string, files: seq<Option<Bytes>>): (r: Files)
    ensures |r| == |files|
  {
    seq(|files|, i requires 0 <= i < |files| =>
      match files[i] case None => None case Some(file) => Some(Chunked(decode, file)))
  }

  // All their lines, oldest first.
  function All(files: Files): seq<string> {
    if files == [] then []
    else
      var oldest := files[|files| - 1];
      (if oldest.Some? then Lines(oldest.value) else []) + All(files[..|files| - 1])
  }

  // What is read of them, newest file first, until there are as many lines as are wanted.
  function Looked(files: Files, wanted: nat): seq<string> {
    if files == [] then []
    else
      OneMore(Looked(files[..|files| - 1], wanted), files[|files| - 1], wanted)
  }

  function OneMore(newer: seq<string>, oldest: Option<seq<string>>, wanted: nat): seq<string> {
    if |newer| >= wanted || oldest.None? then newer else Tail(oldest.value, wanted - |newer|) + newer
  }

  // Torn at most at the very front, in order, and no fewer of them whole than are wanted while there are any more.
  method ReadLines(decode: Bytes -> string, files: seq<Option<Bytes>>, wanted: nat) returns (lines: seq<string>)
    ensures lines == Looked(AsRead(decode, files), wanted)
    ensures EndOf(lines, All(AsRead(decode, files)))
    ensures lines == All(AsRead(decode, files)) || |Whole(AsRead(decode, files), wanted)| >= wanted
  {
    ghost var read := AsRead(decode, files);
    LookedIsEnd(read, wanted);
    WholeIsPlenty(read, wanted);
    lines := [];
    for i := 0 to |files|
      invariant lines == Looked(read[..i], wanted)
    {
      if |lines| >= wanted {
        NothingOlder(read, i, wanted);
        return;
      }
      LookedNext(read, i, wanted);
      match files[i] {
        case None =>
        case Some(file) =>
          var older := TailLines(decode, file, wanted - |lines|);
          lines := older + lines;
      }
    }
    assert read[..|files|] == read;
  }

  lemma LookedNext(files: Files, i: nat, wanted: nat)
    requires i < |files|
    ensures Looked(files[..i + 1], wanted) == OneMore(Looked(files[..i], wanted), files[i], wanted)
  {
    assert files[..i + 1] == files[..i] + [files[i]];
    LookedMore(files[..i], files[i], wanted);
  }

  lemma LookedMore(init: Files, oldest: Option<seq<string>>, wanted: nat)
    ensures Looked(init + [oldest], wanted) == OneMore(Looked(init, wanted), oldest, wanted)
  {
    var f := init + [oldest];
    assert f[..|f| - 1] == init;
  }

  // More lines than wanted, the first maybe torn, or that many whole ones, or all.
  ghost predicate Plenty(lines: seq<string>, all: seq<string>, wanted: nat) {
    lines == all || |lines| > wanted || (IsSuffix(lines, all) && |lines| >= wanted)
  }

  lemma {:induction false} LookedIsEnd(files: Files, wanted: nat)
    ensures EndOf(Looked(files, wanted), All(files)) && Plenty(Looked(files, wanted), All(files), wanted)
  {
    if files != [] {
      var init, oldest := files[..|files| - 1], files[|files| - 1];
      LookedIsEnd(init, wanted);
      OneFileMore(Looked(init, wanted), All(init), oldest, wanted);
    }
  }

  lemma {:induction false} OneFileMore(newer: seq<string>, all: seq<string>, oldest: Option<seq<string>>, wanted: nat)
    requires EndOf(newer, all) && Plenty(newer, all, wanted)
    ensures var lines := OneMore(newer, oldest, wanted);
            var more := (if oldest.Some? then Lines(oldest.value) else []) + all;
            EndOf(lines, more) && Plenty(lines, more, wanted)
  {
    match oldest {
      case None => assert [] + all == all;
      case Some(file) =>
        if |newer| >= wanted {
          EndOfLonger(newer, Lines(file), all);
          SuffixOfLonger(newer, Lines(file), all);
        } else {
          TailIsEnd(file, wanted - |newer|);
          BeforeWhole(Tail(file, wanted - |newer|), Lines(file), newer);
        }
    }
  }

  lemma BeforeWhole(a: seq<string>, all: seq<string>, lines: seq<string>)
    requires EndOf(a, all)
    ensures EndOf(a + lines, all + lines)
  {
    if IsSuffix(a, all) {
      assert (all + lines)[|all| - |a|..] == a + lines;
    } else {
      assert (a + lines)[1..] == a[1..] + lines;
      assert (all + lines)[|all| - |a| + 1..] == a[1..] + lines;
    }
  }

  lemma SuffixOfLonger(lines: seq<string>, older: seq<string>, all: seq<string>)
    ensures IsSuffix(lines, all) ==> IsSuffix(lines, older + all)
  {
    if IsSuffix(lines, all) {
      assert (older + all)[|older + all| - |lines|..] == lines;
    }
  }

  lemma EndOfLonger(lines: seq<string>, older: seq<string>, all: seq<string>)
    requires EndOf(lines, all)
    ensures EndOf(lines, older + all)
  {
    if IsSuffix(lines, all) {
      assert (older + all)[|older + all| - |lines|..] == lines;
    } else {
      assert (older + all)[|older + all| - |lines| + 1..] == lines[1..];
    }
  }

  lemma {:induction false} NothingOlder(files: Files, i: nat, wanted: nat)
    requires i <= |files| && |Looked(files[..i], wanted)| >= wanted
    ensures Looked(files, wanted) == Looked(files[..i], wanted)
    decreases |files| - i
  {
    if i == |files| {
      assert files[..i] == files;
    } else {
      assert files[..i + 1][..i] == files[..i];
      NothingOlder(files, i + 1, wanted);
    }
  }

  // ---------------------------------------------------------------- the entries asked for

  datatype Level = Debug | Info | Warn | Error
  datatype Entry = Entry(runId: string, level: Level, ts: nat, data: Option<string>, message: string)
  datatype Query = Query(runId: Option<string>, level: Level, since: Option<nat>, withData: bool, limit: nat)

  const DEFAULT_LIMIT: nat := 500
  const OVER_READ: nat := 4

  function Rank(l: Level): nat {
    match l case Debug => 0 case Info => 1 case Warn => 2 case Error => 3
  }

  predicate Asked(q: Query, e: Entry) {
    && (q.runId.Some? ==> e.runId == q.runId.value)
    && Rank(e.level) >= Rank(q.level)
    && (q.since.Some? ==> e.ts > q.since.value)
  }

  function Given(q: Query, e: Entry): Entry {
    if q.withData then e else e.(data := None)
  }

  // One line: an entry asked for, or nothing. What JSON.parse makes of a line is given.
  function Found(parse: string -> Option<Entry>, q: Query, line: string): seq<Entry> {
    if line == "" then []
    else match parse(line)
      case None => []
      case Some(e) => if Asked(q, e) then [Given(q, e)] else []
  }

  function AllFound(parse: string -> Option<Entry>, q: Query, lines: seq<string>): seq<Entry> {
    if lines == [] then [] else AllFound(parse, q, lines[..|lines| - 1]) + Found(parse, q, lines[|lines| - 1])
  }

  function Limit(q: Query): (l: nat)
    ensures l > 0
  {
    if q.limit > 0 then q.limit else DEFAULT_LIMIT
  }

  function Newest(entries: seq<Entry>, limit: nat): seq<Entry> {
    if |entries| <= limit then entries else entries[|entries| - limit..]
  }

  method Read(decode: Bytes -> string, parse: string -> Option<Entry>, files: seq<Option<Bytes>>, q: Query) returns (found: seq<Entry>)
    ensures found == Newest(AllFound(parse, q, Looked(AsRead(decode, files), Limit(q) * OVER_READ)), Limit(q))
  {
    var limit := Limit(q);
    var lines := ReadLines(decode, files, limit * OVER_READ);
    found := ReadEntries(parse, q, lines);
    found := Newest(found, limit);
  }

  method ReadEntries(parse: string -> Option<Entry>, q: Query, lines: seq<string>) returns (found: seq<Entry>)
    ensures found == AllFound(parse, q, lines)
  {
    found := [];
    for i := 0 to |lines|
      invariant found == AllFound(parse, q, lines[..i])
    {
      OneLineFound(parse, q, lines, i);
      var line := lines[i];
      if line != "" {
        var parsed := parse(line);
        if parsed.Some? && Asked(q, parsed.value) {
          found := found + [Given(q, parsed.value)];
        }
      }
    }
    assert lines[..|lines|] == lines;
  }

  lemma OneLineFound(parse: string -> Option<Entry>, q: Query, lines: seq<string>, i: nat)
    requires i < |lines|
    ensures AllFound(parse, q, lines[..i + 1]) == AllFound(parse, q, lines[..i]) + Found(parse, q, lines[i])
  {
    assert lines[..i + 1][..i] == lines[..i];
  }

  // At least as severe.
  predicate NoLess(l: Level, than: Level) {
    match than
    case Debug => true
    case Info => !l.Debug?
    case Warn => l.Warn? || l.Error?
    case Error => l.Error?
  }

  // What is found in a line: the entry it is parsed to, when that is of the run asked for, as severe as asked for and
  // later than asked for; without its data unless that is asked for. An empty line, and one that is no entry, is nothing.
  lemma FoundInLine(parse: string -> Option<Entry>, q: Query, line: string)
    ensures Found(parse, q, line) ==
            if line != "" && parse(line).Some?
               && (q.runId == None || q.runId == Some(parse(line).value.runId))
               && NoLess(parse(line).value.level, q.level)
               && (q.since.None? || q.since.value < parse(line).value.ts)
            then [var e := parse(line).value; Entry(e.runId, e.level, e.ts, if q.withData then e.data else None, e.message)]
            else []
  {
  }

  lemma {:induction false} FoundAppend(parse: string -> Option<Entry>, q: Query, a: seq<string>, b: seq<string>)
    ensures AllFound(parse, q, a + b) == AllFound(parse, q, a) + AllFound(parse, q, b)
    decreases |b|
  {
    if b == [] {
      assert a + b == a;
    } else {
      assert (a + b)[..|a + b| - 1] == a + b[..|b| - 1];
      FoundAppend(parse, q, a, b[..|b| - 1]);
    }
  }

  // ---------------------------------------------------------------- what a read misses

  // The lines a read looks at, apart from the first where it is the end of a line only; that one; and what is
  // older: the lines before, and the whole of the line that was torn.
  function TornOff(lines: seq<string>, all: seq<string>): nat {
    if 0 < |lines| <= |all| && lines[0] != all[|all| - |lines|] then 1 else 0
  }

  function Whole(files: Files, wanted: nat): seq<string> {
    var lines := Looked(files, wanted);
    lines[TornOff(lines, All(files))..]
  }

  function Torn(files: Files, wanted: nat): seq<string> {
    var lines := Looked(files, wanted);
    lines[..TornOff(lines, All(files))]
  }

  function Older(files: Files, wanted: nat): seq<string> {
    var whole, all := Whole(files, wanted), All(files);
    if |whole| <= |all| then all[..|all| - |whole|] else []
  }

  lemma EndParts(lines: seq<string>, all: seq<string>)
    requires EndOf(lines, all)
    ensures var t := TornOff(lines, all);
            |lines| <= |all| && lines[t..] == all[|all| - |lines| + t..] && (t == 1 ==> IsSuffix(lines[0], all[|all| - |lines|]))
  {
    if lines != [] && TornOff(lines, all) == 0 {
      var rest := all[|all| - |lines|..];
      assert lines == [lines[0]] + lines[1..] && rest == [rest[0]] + rest[1..];
      assert rest[1..] == all[|all| - |lines| + 1..];
    }
  }

  lemma ThreeParts(lines: seq<string>, all: seq<string>, t: nat, torn: seq<string>, whole: seq<string>, older: seq<string>)
    requires EndOf(lines, all) && t == TornOff(lines, all) && torn == lines[..t] && whole == lines[t..]
    requires older == if |whole| <= |all| then all[..|all| - |whole|] else []
    ensures lines == torn + whole && all == older + whole && |torn| <= 1
    ensures torn != [] ==> older != [] && IsSuffix(torn[0], older[|older| - 1])
  {
    EndParts(lines, all);
  }

  lemma {:induction false} InThree(files: Files, wanted: nat)
    ensures Looked(files, wanted) == Torn(files, wanted) + Whole(files, wanted)
    ensures All(files) == Older(files, wanted) + Whole(files, wanted)
    ensures |Torn(files, wanted)| <= 1
    ensures Torn(files, wanted) != [] ==>
              Older(files, wanted) != [] && IsSuffix(Torn(files, wanted)[0], Older(files, wanted)[|Older(files, wanted)| - 1])
  {
    LookedIsEnd(files, wanted);
    var lines, all := Looked(files, wanted), All(files);
    ThreeParts(lines, all, TornOff(lines, all), Torn(files, wanted), Whole(files, wanted), Older(files, wanted));
  }

  // As many of the lines are whole as are wanted, if there are that many.
  lemma {:induction false} WholeIsPlenty(files: Files, wanted: nat)
    ensures Looked(files, wanted) == All(files) || |Whole(files, wanted)| >= wanted
  {
    LookedIsEnd(files, wanted);
    var lines, all := Looked(files, wanted), All(files);
    if IsSuffix(lines, all) && lines != [] {
      assert lines[0] == all[|all| - |lines|..][0];
    }
  }

  // What is found in the lines that are read whole is the end of what is found in all.
  lemma {:induction false} FoundAtTheEnd(parse: string -> Option<Entry>, q: Query, files: Files)
    ensures var wanted := Limit(q) * OVER_READ;
            && AllFound(parse, q, All(files))
               == AllFound(parse, q, Older(files, wanted)) + AllFound(parse, q, Whole(files, wanted))
            && AllFound(parse, q, Looked(files, wanted))
               == AllFound(parse, q, Torn(files, wanted)) + AllFound(parse, q, Whole(files, wanted))
            && |AllFound(parse, q, Torn(files, wanted))| <= 1
  {
    var wanted := Limit(q) * OVER_READ;
    InThree(files, wanted);
    FoundAppend(parse, q, Older(files, wanted), Whole(files, wanted));
    FoundAppend(parse, q, Torn(files, wanted), Whole(files, wanted));
    if Torn(files, wanted) != [] {
      assert Torn(files, wanted)[..0] == [];
    }
  }

  // The newest entries asked for are what a read gives exactly when there are enough of them in the lines it
  // reads whole; or no line before those holds one, and what it has of a torn line reads as none; or that reads
  // as one, the very one that is wanted of the lines before.
  lemma {:induction false} NewestExactly(parse: string -> Option<Entry>, q: Query, files: Files)
    ensures var wanted, limit := Limit(q) * OVER_READ, Limit(q);
            var whole, torn := AllFound(parse, q, Whole(files, wanted)), AllFound(parse, q, Torn(files, wanted));
            var older := AllFound(parse, q, Older(files, wanted));
            Newest(AllFound(parse, q, Looked(files, wanted)), limit) == Newest(AllFound(parse, q, All(files)), limit)
            <==> |whole| >= limit || (if torn == [] then older == [] else Newest(older, limit - |whole|) == torn)
  {
    var wanted, limit := Limit(q) * OVER_READ, Limit(q);
    var whole, torn := AllFound(parse, q, Whole(files, wanted)), AllFound(parse, q, Torn(files, wanted));
    var older := AllFound(parse, q, Older(files, wanted));
    FoundAtTheEnd(parse, q, files);
    NewestOf(torn, whole, limit);
    NewestOf(older, whole, limit);
    if |whole| < limit {
      SameEnd(Newest(torn, limit - |whole|), Newest(older, limit - |whole|), whole);
    }
  }

  function Last(lines: seq<string>, n: nat): seq<string> {
    if |lines| <= n then lines else lines[|lines| - n..]
  }

  // So a read gives them wherever the last lines, four for every entry wanted, hold as many as are wanted.
  lemma {:induction false} EnoughAmongTheLast(parse: string -> Option<Entry>, q: Query, files: Files)
    requires |AllFound(parse, q, Last(All(files), Limit(q) * OVER_READ))| >= Limit(q)
    ensures Newest(AllFound(parse, q, Looked(files, Limit(q) * OVER_READ)), Limit(q)) == Newest(AllFound(parse, q, All(files)), Limit(q))
  {
    var wanted := Limit(q) * OVER_READ;
    WholeIsPlenty(files, wanted);
    if Looked(files, wanted) != All(files) {
      WholeHasThem(parse, q, files, wanted);
      NewestExactly(parse, q, files);
    }
  }

  lemma {:induction false} WholeHasThem(parse: string -> Option<Entry>, q: Query, files: Files, wanted: nat)
    requires |Whole(files, wanted)| >= wanted
    ensures |AllFound(parse, q, Whole(files, wanted))| >= |AllFound(parse, q, Last(All(files), wanted))|
  {
    InThree(files, wanted);
    EndHasThem(parse, q, Older(files, wanted), Whole(files, wanted), wanted);
  }

  lemma {:induction false} EndHasThem(parse: string -> Option<Entry>, q: Query, older: seq<string>, whole: seq<string>, n: nat)
    requires n <= |whole|
    ensures |AllFound(parse, q, whole)| >= |AllFound(parse, q, Last(older + whole, n))|
  {
    var last := Last(older + whole, n);
    var more := whole[..|whole| - |last|];
    assert whole == more + last;
    FoundAppend(parse, q, more, last);
  }

  lemma NewestOf(a: seq<Entry>, b: seq<Entry>, limit: nat)
    ensures Newest(a + b, limit) == if |b| >= limit then Newest(b, limit) else Newest(a, limit - |b|) + b
  {
    if |b| >= limit && |a + b| > limit {
      assert (a + b)[|a + b| - limit..] == b[|b| - limit..];
    }
  }

  lemma SameEnd(a: seq<Entry>, b: seq<Entry>, c: seq<Entry>)
    ensures a + c == b + c <==> a == b
  {
    if a + c == b + c {
      assert |a| == |b|;
      assert a == (a + c)[..|a|] == (b + c)[..|b|] == b;
    }
  }

  // A file as it is written: each line, and a newline after it.
  function Written(lines: seq<string>): string {
    if lines == [] then "" else lines[0] + [NEWLINE] + Written(lines[1..])
  }

  ghost predicate OneLined(lines: seq<string>) {
    forall i :: 0 <= i < |lines| ==> NEWLINE !in lines[i]
  }

  lemma {:induction false} WrittenLines(lines: seq<string>)
    requires OneLined(lines)
    ensures Split(Written(lines)) == lines + [""]
  {
    if lines == [] {
      assert Split("") == [""];
    } else {
      WrittenLines(lines[1..]);
      SplitAt(lines[0], Written(lines[1..]));
      FirstAndRest(lines, [""]);
    }
  }

  lemma FirstAndRest<T>(a: seq<T>, b: seq<T>)
    requires a != []
    ensures [a[0]] + (a[1..] + b) == a + b
  {
  }

  lemma {:induction false} LiveLast(live: seq<string>, rolled: Files)
    ensures All([Some(live)] + rolled) == All(rolled) + Lines(live)
  {
    var files := [Some(live)] + rolled;
    if rolled == [] {
      assert files[..0] == [];
      NothingBeside(Lines(live));
    } else {
      var init, oldest := rolled[..|rolled| - 1], rolled[|rolled| - 1];
      assert files[..|files| - 1] == [Some(live)] + init && files[|files| - 1] == oldest;
      LiveLast(live, init);
      InOrder(if oldest.Some? then Lines(oldest.value) else [], All(init), Lines(live));
    }
  }

  lemma NothingBeside<T>(a: seq<T>)
    ensures a + [] == a == [] + a
  {
  }

  lemma InOrder<T>(a: seq<T>, b: seq<T>, c: seq<T>)
    ensures a + (b + c) == a + b + c
  {
  }

  // A live file of one chunk, of lines a filter discards and as many as are read for what is wanted, hides every
  // entry of the files rolled before it: the read gives none, whatever they hold.
  lemma {:induction false} EntriesMissed(parse: string -> Option<Entry>, q: Query, dull: seq<string>, rolled: Files)
    requires OneLined(dull) && (forall line :: line in dull ==> Found(parse, q, line) == [])
    requires Limit(q) * OVER_READ <= |dull|
    ensures var files := [Some([Written(dull)])] + rolled;
            && AllFound(parse, q, Looked(files, Limit(q) * OVER_READ)) == []
            && AllFound(parse, q, All(files)) == AllFound(parse, q, All(rolled))
  {
    var live, lines := Written(dull), dull + [""];
    WrittenLines(dull);
    LiveOnly(live, rolled, Limit(q) * OVER_READ, lines);
    NoneFound(parse, q, lines);
    LiveLast([live], rolled);
    OneText(live);
    FoundAppend(parse, q, All(rolled), lines);
  }

  lemma {:induction false} LiveOnly(live: string, rolled: Files, wanted: nat, lines: seq<string>)
    requires Split(live) == lines && wanted <= |lines| && wanted > 0
    ensures Looked([Some([live])] + rolled, wanted) == lines
  {
    var files := [Some([live])] + rolled;
    assert Stop([live], 1, wanted) == Stop([live], 0, wanted) == 0;
    OneText(live);
    assert files[..0] == [] && files[0] == Some([live]);
    assert lines + [] == lines;
    LookedNext(files, 0, wanted);
    NothingOlder(files, 1, wanted);
  }

  lemma {:induction false} NoneFound(parse: string -> Option<Entry>, q: Query, lines: seq<string>)
    requires forall line :: line in lines ==> Found(parse, q, line) == []
    ensures AllFound(parse, q, lines) == []
  {
    if lines != [] {
      NoneFound(parse, q, lines[..|lines| - 1]);
    }
  }
}
