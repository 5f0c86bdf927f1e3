/** Bytes, lines and decoded JSON values: the vocabulary every stream scanner shares. */
module Bytes {
  newtype byte = x: int | 0 <= x < 256

  type bytes = seq<byte>

  datatype Option<+T> = None | Some(value: T)

  /** A decoded JSON value. Numbers are kept as their literal: no rule modelled here reads one. */
  datatype Json =
    | Null
    | Bool(b: bool)
    | Number(literal: string)
    | Str(s: string)
    | Arr(items: seq<Json>)
    | Obj(fields: map<string, Json>)

  const NL: byte := 10
  const CR: byte := 13
  const SPACE: byte := 32

  /** The bytes of an ASCII literal. */
  function Ascii(s: string): (r: bytes)
    requires forall i :: 0 <= i < |s| ==> s[i] < 128 as char
    ensures |r| == |s|
    ensures forall i :: 0 <= i < |s| ==> r[i] == s[i] as byte
  {
    seq(|s|, i requires 0 <= i < |s| => s[i] as byte)
  }

  // ---------------------------------------------------------------- lines

  /** Index of the first newline, or |s| when there is none (bytes.IndexByte). */
  function FindNewline(s: bytes): (i: nat)
    ensures i <= |s|
    ensures i < |s| ==> s[i] == NL
    ensures NL !in s[..i]
  {
    if s == [] then 0
    else if s[0] == NL then 0
    else
      var j := FindNewline(s[1..]);
      assert s[..j + 1] == [s[0]] + s[1..][..j];
      j + 1
  }

  /** The newline-terminated lines of s, without their terminators. */
  function Lines(s: bytes): (r: seq<bytes>)
    ensures forall i :: 0 <= i < |r| ==> NL !in r[i]
    decreases |s|
  {
    var i := FindNewline(s);
    if i == |s| then [] else [s[..i]] + Lines(s[i + 1..])
  }

  /** What follows the last newline of s: a line that has not ended yet. */
  function Tail(s: bytes): (r: bytes)
    ensures NL !in r
    ensures |r| <= |s|
    decreases |s|
  {
    var i := FindNewline(s);
    if i == |s| then s else Tail(s[i + 1..])
  }

  /** Lines with their terminators put back. */
  function Unlines(ls: seq<bytes>): bytes {
    if ls == [] then [] else ls[0] + [NL] + Unlines(ls[1..])
  }

  lemma {:induction false} FindNewlineUnique(s: bytes, i: nat)
    requires i <= |s| && (forall k :: 0 <= k < i ==> s[k] != NL) && (i < |s| ==> s[i] == NL)
    ensures FindNewline(s) == i
  {
    if i > 0 {
      FindNewlineUnique(s[1..], i - 1);
    }
  }

  /** One more complete line in front. */
  lemma LinesCons(line: bytes, rest: bytes)
    requires NL !in line
    ensures Lines(line + [NL] + rest) == [line] + Lines(rest)
    ensures Tail(line + [NL] + rest) == Tail(rest)
  {
    var s := line + [NL] + rest;
    assert s[..|line|] == line && s[|line| + 1..] == rest;
    FindNewlineUnique(s, |line|);
  }

  lemma UnlinesCons(line: bytes, ls: seq<bytes>)
    ensures Unlines([line] + ls) == line + [NL] + Unlines(ls)
  {
    assert ([line] + ls)[1..] == ls;
  }

  lemma Assoc<T>(a: seq<T>, b: seq<T>, c: seq<T>)
    ensures a + b + c == a + (b + c)
  {
  }

  lemma LastApart<T>(a: seq<T>, b: seq<T>)
    requires b != []
    ensures a + b == a + b[..|b| - 1] + [b[|b| - 1]]
  {
  }

  lemma TakeSnoc<T>(s: seq<T>, n: nat)
    requires n < |s|
    ensures s[..n + 1][..n] == s[..n] && s[..n + 1][n] == s[n]
  {
  }

  lemma TakeAll<T>(s: seq<T>, n: nat)
    requires n == |s|
    ensures s[..n] == s
  {
  }

  lemma SliceSnoc<T>(s: seq<T>, from: nat, to: nat)
    requires from <= to < |s|
    ensures s[from..to + 1] == s[from..to] + [s[to]]
  {
  }

  lemma EmptyRight<T>(a: seq<T>)
    ensures a + [] == a
  {
  }

  lemma EmptyLeft<T>(a: seq<T>)
    ensures [] + a == a
  {
  }

  /** The first line of s in front of the rest. */
  lemma FirstLine(s: bytes, i: nat)
    requires i == FindNewline(s) && i < |s|
    ensures s == s[..i] + [NL] + s[i + 1..]
    ensures Lines(s) == [s[..i]] + Lines(s[i + 1..]) && Tail(s) == Tail(s[i + 1..])
  {
    CutAt(s, i);
  }

  lemma CutAt<T>(s: seq<T>, i: nat)
    requires i < |s|
    ensures s == s[..i] + [s[i]] + s[i + 1..]
  {
  }

  /** Splitting loses nothing: lines and tail spell the input again. */
  lemma {:induction false} UnlinesLines(s: bytes)
    ensures Unlines(Lines(s)) + Tail(s) == s
    decreases |s|
  {
    var i := FindNewline(s);
    if i == |s| {
      LinesNone(s);
    } else {
      var rest := s[i + 1..];
      UnlinesLines(rest);
      FirstLine(s, i);
      UnlinesCons(s[..i], Lines(rest));
      Assoc(s[..i] + [NL], Unlines(Lines(rest)), Tail(rest));
    }
  }

  lemma LinesNone(s: bytes)
    requires NL !in s
    ensures Lines(s) == [] && Tail(s) == s
  {
    assert s[..|s|] == s;
    FindNewlineUnique(s, |s|);
  }

  /** Cutting a body anywhere is harmless: the cut-off tail carries over. This is
      what makes every line scanner below independent of how the network splits bytes. */
  lemma {:induction false} LinesAppend(a: bytes, b: bytes)
    ensures Lines(a + b) == Lines(a) + Lines(Tail(a) + b)
    ensures Tail(a + b) == Tail(Tail(a) + b)
    decreases |a|
  {
    var i := FindNewline(a);
    if i == |a| {
      LinesNone(a);
      EmptyLeft(Lines(a + b));
    } else {
      var line, rest := a[..i], a[i + 1..];
      LinesAppend(rest, b);
      FirstLine(a, i);
      Assoc(line + [NL], rest, b);
      LinesCons(line, rest + b);
      Assoc([line], Lines(rest), Lines(Tail(rest) + b));
    }
  }

  /** Taking one line more from the bytes still to be read. */
  lemma Regroup(read: bytes, rest: bytes, i: nat)
    requires i < |rest| && rest[i] == NL
    ensures read + rest[..i] + [NL] + rest[i + 1..] == read + rest
    ensures |read + rest[..i] + [NL]| == |read + rest| - |rest[i + 1..]|
  {
    assert rest == rest[..i] + [NL] + rest[i + 1..];
  }

  /** Reading bytes without a newline only extends the open line. */
  lemma OpenLine(read: bytes, more: bytes)
    requires NL !in more
    ensures Lines(read + more) == Lines(read) && Tail(read + more) == Tail(read) + more
  {
    LinesAppend(read, more);
    LinesNone(Tail(read) + more);
  }

  /** The concatenation of a list of chunks. */
  function Concat<T>(chunks: seq<seq<T>>): seq<T> {
    if chunks == [] then [] else Concat(chunks[..|chunks| - 1]) + chunks[|chunks| - 1]
  }

  lemma ConcatSnoc(chunks: seq<bytes>, n: nat)
    requires n < |chunks|
    ensures Concat(chunks[..n + 1]) == Concat(chunks[..n]) + chunks[n]
  {
    assert chunks[..n + 1][..n] == chunks[..n];
  }

  // ---------------------------------------------------------------- white space

  predicate AsciiSpace(b: byte) {
    b == 9 || b == 10 || b == 11 || b == 12 || b == 13 || b == 32
  }

  /** Whether w is exactly one UTF-8 encoded white-space rune (unicode.IsSpace). */
  predicate SpaceRune(w: bytes) {
    || (|w| == 1 && AsciiSpace(w[0]))
    || (|w| == 2 && w[0] == 0xC2 && (w[1] == 0x85 || w[1] == 0xA0))
    || (|w| == 3 && w[0] == 0xE1 && w[1] == 0x9A && w[2] == 0x80)
    || (|w| == 3 && w[0] == 0xE2 && w[1] == 0x80
        && (0x80 <= w[2] <= 0x8A || w[2] == 0xA8 || w[2] == 0xA9 || w[2] == 0xAF))
    || (|w| == 3 && w[0] == 0xE2 && w[1] == 0x81 && w[2] == 0x9F)
    || (|w| == 3 && w[0] == 0xE3 && w[1] == 0x80 && w[2] == 0x80)
  }

  /** Length of the white-space rune s starts with, 0 if it starts with none. */
  function SpacePrefix(s: bytes): (n: nat)
    ensures n <= |s|
  {
    if |s| >= 1 && SpaceRune(s[..1]) then 1
    else if |s| >= 2 && SpaceRune(s[..2]) then 2
    else if |s| >= 3 && SpaceRune(s[..3]) then 3
    else 0
  }

  /** Length of the white-space rune s ends with, 0 if it ends with none. */
  function SpaceSuffix(s: bytes): (n: nat)
    ensures n <= |s|
  {
    if |s| >= 1 && SpaceRune(s[|s| - 1..]) then 1
    else if |s| >= 2 && SpaceRune(s[|s| - 2..]) then 2
    else if |s| >= 3 && SpaceRune(s[|s| - 3..]) then 3
    else 0
  }

  function TrimLeftSpace(s: bytes): bytes {
    var n := SpacePrefix(s);
    if n == 0 then s else TrimLeftSpace(s[n..])
  }

  function TrimRightSpace(s: bytes): bytes {
    var n := SpaceSuffix(s);
    if n == 0 then s else TrimRightSpace(s[..|s| - n])
  }

  /** bytes.TrimSpace. */
  function TrimSpace(s: bytes): bytes { TrimRightSpace(TrimLeftSpace(s)) }

  /** bytes.TrimLeft(s, " "). */
  function TrimLeftBlanks(s: bytes): bytes {
    if s != [] && s[0] == SPACE then TrimLeftBlanks(s[1..]) else s
  }

  /** bytes.TrimRight(s, "\r"). */
  function TrimRightCR(s: bytes): bytes {
    if s != [] && s[|s| - 1] == CR then TrimRightCR(s[..|s| - 1]) else s
  }

  predicate HasPrefix<T(==)>(s: seq<T>, prefix: seq<T>) {
    |prefix| <= |s| && s[..|prefix|] == prefix
  }

  predicate Contains<T(==)>(s: seq<T>, sub: seq<T>) {
    HasPrefix(s, sub) || (s != [] && Contains(s[1..], sub))
  }
}
