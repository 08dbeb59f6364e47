/** Text and its bytes, as far as cutting a stream of bytes can tell.

    A byte is either the first of a character, which says how many follow, or a continuation; that is all a decoder
    needs to notice a character that was cut. */
module Utf8 {
  import opened Folds
  import opened Wire

  /** The first byte of a character says how many continuation bytes follow. */
  datatype Byte = Lead(c: char) | Continuation

  function Width(c: char): (w: nat)
    ensures 1 <= w <= 4
  {
    if c as int < 0x80 then 1 else if c as int < 0x800 then 2 else if c as int < 0x1_0000 then 3 else 4
  }

  function Following(n: nat): seq<Byte> { seq(n, _ => Continuation) }

  function CharBytes(c: char): seq<Byte> { [Lead(c)] + Following(Width(c) - 1) }

  function Encode(s: string): seq<Byte> { Gather(CharBytes, s) }

  /** None for bytes that are not whole characters. */
  function Decode(bytes: seq<Byte>): Option<string> {
    if bytes == [] then Some("")
    else if bytes[0].Lead? && CharBytes(bytes[0].c) <= bytes then
      var rest := Decode(bytes[Width(bytes[0].c)..]);
      if rest.Some? then Some([bytes[0].c] + rest.value) else None
    else None
  }

  function Itself(bytes: seq<Byte>): seq<Byte> { bytes }

  function Bytes(chunks: seq<seq<Byte>>): seq<Byte> { Gather(Itself, chunks) }

  /** What is left of a chunk once chunks that do not decode are dropped. */
  function Kept(chunk: seq<Byte>): string { Decode(chunk).GetOr("") }

  /** No chunk begins or ends inside a character. */
  predicate CutBetweenCharacters(chunks: seq<seq<Byte>>) {
    forall chunk <- chunks :: Decode(chunk).Some?
  }

  // ---- counting characters of more than one byte ----

  function WideChar(): char -> int { (c: char) => if Width(c) > 1 then 1 else 0 }

  function WideLead(): Byte -> int { (b: Byte) => if b.Lead? && Width(b.c) > 1 then 1 else 0 }

  function Wide(s: string): (n: nat) {
    TotalPositive(WideChar(), s);
    Total(WideChar(), s)
  }

  function WideLeads(bytes: seq<Byte>): (n: nat) {
    TotalPositive(WideLead(), bytes);
    Total(WideLead(), bytes)
  }

  lemma WideAppend(a: string, b: string)
    ensures Wide(a + b) == Wide(a) + Wide(b)
  {
    TotalAppend(WideChar(), a, b);
  }

  lemma LeadsAppend(a: seq<Byte>, b: seq<Byte>)
    ensures WideLeads(a + b) == WideLeads(a) + WideLeads(b)
  {
    TotalAppend(WideLead(), a, b);
  }

  lemma OneLead(b: Byte)
    ensures WideLeads([b]) == WideLead()(b)
  {
    TotalSnoc(WideLead(), [], b);
    assert [] + [b] == [b];
  }

  lemma CharLeads(c: char)
    ensures WideLeads(CharBytes(c)) == WideChar()(c)
  {
    LeadsAppend([Lead(c)], Following(Width(c) - 1));
    TotalZero(WideLead(), Following(Width(c) - 1));
    OneLead(Lead(c));
  }

  lemma {:induction false} EncodeLeads(s: string)
    ensures WideLeads(Encode(s)) == Wide(s)
  {
    if s != "" {
      var n := |s| - 1;
      EncodeLeads(s[..n]);
      CharLeads(s[n]);
      LeadsAppend(Encode(s[..n]), CharBytes(s[n]));
      assert s == s[..n] + [s[n]];
    }
  }

  lemma EncodeFirst(s: string)
    requires s != ""
    ensures Encode(s) == CharBytes(s[0]) + Encode(s[1..])
  {
    GatherFirst(CharBytes, s);
  }

  lemma DecodeFirst(bytes: seq<Byte>) returns (c: char, rest: seq<Byte>)
    requires bytes != [] && Decode(bytes).Some?
    ensures bytes == CharBytes(c) + rest && |rest| < |bytes|
    ensures Decode(rest).Some? && Decode(bytes).value == [c] + Decode(rest).value
  {
    c := bytes[0].c;
    rest := bytes[Width(c)..];
  }

  lemma {:induction false} DecodedIsEncoded(bytes: seq<Byte>)
    requires Decode(bytes).Some?
    ensures Encode(Decode(bytes).value) == bytes
    decreases |bytes|
  {
    if bytes != [] {
      var c, rest := DecodeFirst(bytes);
      hide *;
      DecodedIsEncoded(rest);
      EncodeFirst([c] + Decode(rest).value);
      assert ([c] + Decode(rest).value)[1..] == Decode(rest).value;
    }
  }

  /** An encoding that starts another is that of a prefix. */
  lemma {:induction false} PrefixOfEncoding(s: string, t: string, rest: seq<Byte>)
    requires Encode(s) + rest == Encode(t)
    ensures s <= t && rest == Encode(t[|s|..])
  {
    if s != "" {
      EncodeFirst(s);
      assert Encode(t)[0] == Lead(s[0]);
      EncodeFirst(t);
      var w := Width(s[0]);
      assert Encode(t[1..]) == Encode(t)[w..] == Encode(s[1..]) + rest;
      PrefixOfEncoding(s[1..], t[1..], rest);
      assert t[1..][|s| - 1..] == t[|s|..];
    } else {
      assert Encode(s) + rest == rest;
    }
  }

  /** A chunk at a character boundary that does not decode loses a character of more than one byte. */
  lemma {:induction false} TornLosesWide(chunk: seq<Byte>, rest: seq<Byte>, t: string)
    requires chunk + rest == Encode(t) && Decode(chunk).None?
    ensures WideLeads(chunk) > 0
  {
    assert chunk[0] == Encode(t)[0];
    EncodeFirst(t);
    LeadsAppend([chunk[0]], chunk[1..]);
    assert chunk == [chunk[0]] + chunk[1..];
    OneLead(chunk[0]);
    if Width(t[0]) == 1 {
      assert CharBytes(t[0]) == [chunk[0]];
      assert chunk[1..] + rest == Encode(t)[1..] == Encode(t[1..]);
      TornLosesWide(chunk[1..], rest, t[1..]);
    }
  }

  lemma KeptLeads(chunk: seq<Byte>)
    ensures Wide(Kept(chunk)) <= WideLeads(chunk)
  {
    if Decode(chunk).Some? {
      DecodedIsEncoded(chunk);
      EncodeLeads(Decode(chunk).value);
    }
  }

  lemma {:induction false} AllKeptLeads(chunks: seq<seq<Byte>>)
    ensures Wide(Gather(Kept, chunks)) <= WideLeads(Bytes(chunks))
  {
    if chunks != [] {
      var n := |chunks| - 1;
      AllKeptLeads(chunks[..n]);
      KeptLeads(chunks[n]);
      WideAppend(Gather(Kept, chunks[..n]), Kept(chunks[n]));
      LeadsAppend(Bytes(chunks[..n]), chunks[n]);
    }
  }

  lemma FirstChunk(chunks: seq<seq<Byte>>)
    requires chunks != []
    ensures Bytes(chunks) == chunks[0] + Bytes(chunks[1..])
    ensures Gather(Kept, chunks) == Kept(chunks[0]) + Gather(Kept, chunks[1..])
    ensures CutBetweenCharacters(chunks) <==> Decode(chunks[0]).Some? && CutBetweenCharacters(chunks[1..])
  {
    GatherFirst(Itself, chunks);
    GatherFirst(Kept, chunks);
    hide Decode, Gather;
    assert forall chunk :: chunk in chunks <==> chunk == chunks[0] || chunk in chunks[1..];
  }

  lemma TornChunk(first: seq<Byte>, others: seq<seq<Byte>>, t: string)
    requires first + Bytes(others) == Encode(t) && Decode(first).None?
    ensures Wide(Gather(Kept, others)) < Wide(t) && Kept(first) == ""
  {
    TornLosesWide(first, Bytes(others), t);
    AllKeptLeads(others);
    LeadsAppend(first, Bytes(others));
    EncodeLeads(t);
    hide WideLeads, Wide, Gather;
  }

  /** Cutting between characters keeps the text; any other cut loses a character of more than one byte. */
  lemma {:induction false} CutsKeepText(chunks: seq<seq<Byte>>, t: string)
    requires Bytes(chunks) == Encode(t)
    ensures CutBetweenCharacters(chunks) ==> Gather(Kept, chunks) == t
    ensures !CutBetweenCharacters(chunks) ==> Wide(Gather(Kept, chunks)) < Wide(t)
    decreases |chunks|
  {
    if chunks == [] {
      if t != "" { EncodeFirst(t); }
    } else {
      var first, others := chunks[0], chunks[1..];
      var s := Kept(first);
      FirstChunk(chunks);
      assert Decode(first).Some? ==> s == Decode(first).value;
      hide *;
      if Decode(first).Some? {
        DecodedIsEncoded(first);
        PrefixOfEncoding(s, t, Bytes(others));
        CutsKeepText(others, t[|s|..]);
        assert t == s + t[|s|..];
        WideAppend(s, t[|s|..]);
        WideAppend(s, Gather(Kept, others));
      } else {
        TornChunk(first, others, t);
        assert "" + Gather(Kept, others) == Gather(Kept, others);
      }
    }
  }

  /** It happens: a character of more than one byte, cut after its first, is lost whole. */
  lemma TornCharacterIsLost(c: char)
    requires Width(c) > 1
    ensures var chunks := [[Lead(c)], Following(Width(c) - 1)];
            Bytes(chunks) == Encode([c]) && Gather(Kept, chunks) == ""
  {
    var chunks := [[Lead(c)], Following(Width(c) - 1)];
    GatherFirst(Itself, chunks);
    GatherFirst(Itself, chunks[1..]);
    GatherFirst(Kept, chunks);
    GatherFirst(Kept, chunks[1..]);
    GatherFirst(CharBytes, [c]);
    assert Decode([Lead(c)]).None? && Decode(chunks[1]).None?;
  }
}
