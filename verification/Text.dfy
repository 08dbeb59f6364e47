/** The string operations of the standard library that several components share.

    Trimming white space off both ends, splitting at a character, and joining, which splitting undoes. */
module Text {

  /** Characters with the Unicode White_Space property. */
  predicate IsWhite(c: char) {
    || '\t' <= c <= '\r' || c == ' ' || c == '\U{85}' || c == '\U{A0}' || c == '\U{1680}'
    || '\U{2000}' <= c <= '\U{200A}' || c == '\U{2028}' || c == '\U{2029}' || c == '\U{202F}'
    || c == '\U{205F}' || c == '\U{3000}'
  }

  function TrimStart(s: string): string {
    if s != "" && IsWhite(s[0]) then TrimStart(s[1..]) else s
  }

  function TrimEnd(s: string): string {
    if s != "" && IsWhite(s[|s| - 1]) then TrimEnd(s[..|s| - 1]) else s
  }

  function Trim(s: string): string { TrimEnd(TrimStart(s)) }

  /** The pieces between separators; there is always at least one. */
  function SplitBy(s: string, sep: char): (pieces: seq<string>)
    ensures pieces != [] && forall p <- pieces :: sep !in p
  {
    if s == "" then [""]
    else
      var rest := SplitBy(s[1..], sep);
      if s[0] == sep then [""] + rest else [[s[0]] + rest[0]] + rest[1..]
  }

  function JoinBy(pieces: seq<string>, sep: char): string
    requires pieces != []
  {
    if |pieces| == 1 then pieces[0] else pieces[0] + [sep] + JoinBy(pieces[1..], sep)
  }

  lemma {:induction false} SplitAfter(piece: string, rest: string, sep: char)
    requires sep !in piece
    ensures SplitBy(piece + [sep] + rest, sep) == [piece] + SplitBy(rest, sep)
    ensures SplitBy(piece, sep) == [piece]
  {
    if piece != "" {
      SplitAfter(piece[1..], rest, sep);
      assert (piece + [sep] + rest)[1..] == piece[1..] + [sep] + rest;
      assert [piece[0]] + piece[1..] == piece;
    } else {
      assert ([sep] + rest)[1..] == rest;
      assert piece + [sep] + rest == [sep] + rest;
    }
  }

  /** Splitting undoes joining. */
  lemma {:induction false} SplitOfJoin(pieces: seq<string>, sep: char)
    requires pieces != [] && forall p <- pieces :: sep !in p
    ensures SplitBy(JoinBy(pieces, sep), sep) == pieces
  {
    if |pieces| == 1 {
      SplitAfter(pieces[0], "", sep);
    } else {
      SplitOfJoin(pieces[1..], sep);
      SplitAfter(pieces[0], JoinBy(pieces[1..], sep), sep);
    }
  }

  predicate Blank(s: string) { forall c <- s :: IsWhite(c) }

  lemma {:induction false} TrimStartDrops(s: string) returns (left: string)
    ensures s == left + TrimStart(s) && Blank(left)
    ensures TrimStart(s) != "" ==> !IsWhite(TrimStart(s)[0])
  {
    if s != "" && IsWhite(s[0]) {
      var rest := TrimStartDrops(s[1..]);
      left := [s[0]] + rest;
      assert s == [s[0]] + s[1..];
    } else {
      left := "";
    }
  }

  lemma {:induction false} TrimEndDrops(s: string) returns (right: string)
    ensures s == TrimEnd(s) + right && Blank(right)
    ensures TrimEnd(s) != "" ==> !IsWhite(TrimEnd(s)[|TrimEnd(s)| - 1]) && TrimEnd(s)[0] == s[0]
  {
    if s != "" && IsWhite(s[|s| - 1]) {
      var n := |s| - 1;
      var rest := TrimEndDrops(s[..n]);
      right := rest + [s[n]];
      assert s == s[..n] + [s[n]];
    } else {
      right := "";
    }
  }

  /** Trimming takes white space off both ends and leaves none there. */
  lemma TrimDrops(s: string) returns (left: string, right: string)
    ensures s == left + Trim(s) + right && Blank(left) && Blank(right)
    ensures Trim(s) != "" ==> !IsWhite(Trim(s)[0]) && !IsWhite(Trim(s)[|Trim(s)| - 1])
  {
    left := TrimStartDrops(s);
    right := TrimEndDrops(TrimStart(s));
  }
}
