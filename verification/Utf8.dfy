/** UTF-8 as RFC 3629 defines it, decoded the way Python's decoder does: strictly, stopping
    at the first ill-formed sequence, or with each maximal ill-formed subpart replaced. */
module Utf8 {

  type Byte = b: int | 0 <= b < 256

  const REPLACEMENT: char := 0xFFFD as char

  /** What stands at the front of a non-empty byte string: a well-formed character of
      `len` bytes, an ill-formed subpart of `len` bytes, or a sequence the end cuts short. */
  datatype Front = Char(len: nat, c: char) | Bad(len: nat) | Short

  /** Length of the sequence a lead byte announces; 0 when it cannot lead one. */
  function Need(b: Byte): (n: nat)
    ensures n <= 4
  {
    if b < 0x80 then 1
    else if b < 0xC2 then 0
    else if b < 0xE0 then 2
    else if b < 0xF0 then 3
    else if b < 0xF5 then 4
    else 0
  }

  predicate Continuation(b: Byte) {
    0x80 <= b < 0xC0
  }

  /** The second byte also excludes overlong forms, surrogates and values past U+10FFFF. */
  predicate Second(lead: Byte, b: Byte) {
    && Continuation(b)
    && (lead == 0xE0 ==> 0xA0 <= b)
    && (lead == 0xED ==> b < 0xA0)
    && (lead == 0xF0 ==> 0x90 <= b)
    && (lead == 0xF4 ==> b < 0x90)
  }

  function Scan(s: seq<Byte>): (f: Front)
    requires |s| > 0
    ensures !f.Short? ==> 0 < f.len <= |s|
    ensures f.Short? ==> |s| < 4
  {
    var n := Need(s[0]);
    if n == 0 then Bad(1)
    else if n == 1 then Char(1, s[0] as char)
    else if |s| < 2 then Short
    else if !Second(s[0], s[1]) then Bad(1)
    else if n == 2 then Char(2, Point2(s[0], s[1]))
    else if |s| < 3 then Short
    else if !Continuation(s[2]) then Bad(2)
    else if n == 3 then Char(3, Point3(s[0], s[1], s[2]))
    else if |s| < 4 then Short
    else if !Continuation(s[3]) then Bad(3)
    else Char(4, Point4(s[0], s[1], s[2], s[3]))
  }

  function Point2(a: int, b: int): char
    requires 0xC2 <= a < 0xE0 && 0x80 <= b < 0xC0
  {
    ((a - 0xC0) * 64 + (b - 0x80)) as char
  }

  function Point3(a: int, b: int, c: int): char
    requires 0xE0 <= a < 0xF0 && 0x80 <= b < 0xC0 && 0x80 <= c < 0xC0 && (a == 0xED ==> b < 0xA0)
  {
    ((a - 0xE0) * 4096 + (b - 0x80) * 64 + (c - 0x80)) as char
  }

  function Point4(a: int, b: int, c: int, d: int): char
    requires 0xF0 <= a < 0xF5 && 0x80 <= b < 0xC0 && 0x80 <= c < 0xC0 && 0x80 <= d < 0xC0
    requires (a == 0xF0 ==> 0x90 <= b) && (a == 0xF4 ==> b < 0x90)
  {
    ((a - 0xF0) * 262144 + (b - 0x80) * 4096 + (c - 0x80) * 64 + (d - 0x80)) as char
  }

  /** bytes.decode("utf-8"): the text, or the index where the first error starts. */
  datatype Strict = Text(t: string) | Error(start: nat)

  function Decode(s: seq<Byte>): (r: Strict)
    ensures r.Error? ==> r.start < |s|
  {
    if s == [] then Text("")
    else match Scan(s)
      case Char(n, c) =>
        (match Decode(s[n..])
         case Text(t) => Text([c] + t)
         case Error(i) => Error(n + i))
      case _ => Error(0)
  }

  /** bytes.decode("utf-8", errors="replace"). */
  function DecodeReplace(s: seq<Byte>): string
    decreases |s|
  {
    if s == [] then ""
    else match Scan(s)
      case Char(n, c) => [c] + DecodeReplace(s[n..])
      case Bad(n) => [REPLACEMENT] + DecodeReplace(s[n..])
      case Short => [REPLACEMENT]
  }

  /** The text before the first error. */
  function Safe(s: seq<Byte>): string
    decreases |s|
  {
    if s == [] then ""
    else match Scan(s)
      case Char(n, c) => [c] + Safe(s[n..])
      case _ => ""
  }

  /** A front that is not cut short is settled: more bytes do not change it. */
  lemma ScanSettled(s: seq<Byte>, more: seq<Byte>)
    requires |s| > 0 && !Scan(s).Short?
    ensures Scan(s + more) == Scan(s)
  {
  }

  /** Strict decoding succeeds with the safe text, or fails where the safe text ends;
      the bytes before the error always decode to the safe text. */
  lemma {:induction false} DecodeSafe(s: seq<Byte>)
    ensures Decode(s).Text? ==> Decode(s).t == Safe(s)
    ensures Decode(s).Error? ==> Decode(s[..Decode(s).start]) == Text(Safe(s))
    decreases |s|
  {
    hide Scan;
    if s != [] && Scan(s).Char? {
      var n := Scan(s).len;
      DecodeSafe(s[n..]);
      if Decode(s[n..]).Error? {
        var i := Decode(s[n..]).start;
        var p := s[..n + i];
        assert p[n..] == s[n..][..i];
        ScanPrefix(s, n + i);
        assert Scan(p) == Scan(s);
      }
    }
  }

  /** A well-formed character is recognised from its own bytes. */
  lemma ScanPrefix(s: seq<Byte>, k: nat)
    requires |s| > 0 && Scan(s).Char? && Scan(s).len <= k <= |s|
    ensures Scan(s[..k]) == Scan(s)
  {
  }

  /** More bytes only extend the safe text. */
  lemma {:induction false} SafeGrows(s: seq<Byte>, more: seq<Byte>)
    ensures Safe(s) <= Safe(s + more)
    decreases |s|
  {
    if s != [] && Scan(s).Char? {
      var n := Scan(s).len;
      ScanSettled(s, more);
      assert (s + more)[n..] == s[n..] + more;
      SafeGrows(s[n..], more);
    }
  }

  /** The safe text is a prefix of the replace-mode decode. */
  lemma {:induction false} SafeWithinReplace(s: seq<Byte>)
    ensures Safe(s) <= DecodeReplace(s)
    decreases |s|
  {
    if s != [] && Scan(s).Char? {
      SafeWithinReplace(s[Scan(s).len..]);
    }
  }

  /** The first error is an ill-formed subpart, not a cut-off tail. */
  predicate Broken(s: seq<Byte>)
    decreases |s|
  {
    s != [] && match Scan(s) {
      case Char(n, _) => Broken(s[n..])
      case Bad(_) => true
      case Short => false
    }
  }

  /** Once an ill-formed subpart has been seen the safe text never grows again. */
  lemma {:induction false} BrokenStalls(s: seq<Byte>, more: seq<Byte>)
    requires Broken(s)
    ensures Broken(s + more) && Safe(s + more) == Safe(s)
    decreases |s|
  {
    ScanSettled(s, more);
    if Scan(s).Char? {
      var n := Scan(s).len;
      assert (s + more)[n..] == s[n..] + more;
      BrokenStalls(s[n..], more);
    }
  }

  /** Bytes that complete a cut-off sequence. */
  function Completion(s: seq<Byte>): (more: seq<Byte>)
    requires |s| > 0 && Scan(s).Short?
    ensures |more| <= 3 && |s| + |more| == Need(s[0])
  {
    var second := if s[0] == 0xE0 then 0xA0 else if s[0] == 0xF0 then 0x90 else 0x80;
    var tail := [0x80, 0x80];
    var n := Need(s[0]);
    if |s| == 1 then [second] + tail[..n - 2]
    else tail[..n - |s|]
  }

  lemma CompletionDecodes(s: seq<Byte>)
    requires |s| > 0 && Scan(s).Short?
    ensures Safe(s) == "" && Decode(s + Completion(s)).Text?
  {
    var all := s + Completion(s);
    assert all[0] == s[0] && Second(all[0], all[1]);
    assert 2 < |all| ==> Continuation(all[2]);
    assert 3 < |all| ==> Continuation(all[3]);
    assert Scan(all).Char? && Scan(all).len == |all|;
    assert all[|all|..] == [];
  }

  /** A stream that is not broken can always be completed with at most three bytes, after
      which nothing is held back. */
  lemma {:induction false} UnbrokenCompletes(s: seq<Byte>) returns (more: seq<Byte>)
    requires !Broken(s)
    ensures |more| <= 3 && Decode(s + more).Text? && Safe(s) <= Decode(s + more).t
    decreases |s|
  {
    hide Scan;
    if s == [] {
      more := [];
    } else if Scan(s).Char? {
      var n := Scan(s).len;
      more := UnbrokenCompletes(s[n..]);
      ScanSettled(s, more);
      assert (s + more)[n..] == s[n..] + more;
    } else {
      more := Completion(s);
      CompletionDecodes(s);
    }
  }

  /** Behind bytes that all decode, the next bytes decode as if they stood alone. */
  lemma {:induction false} SafeAfterText(s: seq<Byte>, more: seq<Byte>)
    requires Decode(s).Text?
    ensures Safe(s + more) == Safe(s) + Safe(more)
    decreases |s|
  {
    hide Scan;
    if s == [] {
      assert s + more == more;
    } else {
      var n := Scan(s).len;
      ScanSettled(s, more);
      assert (s + more)[n..] == s[n..] + more;
      SafeAfterText(s[n..], more);
    }
  }

  /** The text is stuck exactly when an ill-formed subpart has been seen: a tail that is only cut
      short can always be completed and followed by another character. */
  lemma StallsExactly(s: seq<Byte>)
    ensures Broken(s) <==> forall more: seq<Byte> :: Safe(s + more) == Safe(s)
  {
    if Broken(s) {
      forall more: seq<Byte> ensures Safe(s + more) == Safe(s) {
        BrokenStalls(s, more);
      }
    } else {
      var more := GrowingContinuation(s);
      assert Safe(s + more) != Safe(s);
    }
  }

  lemma GrowingContinuation(s: seq<Byte>) returns (more: seq<Byte>)
    requires !Broken(s)
    ensures |more| <= 4 && Safe(s) < Safe(s + more)
  {
    var tail := UnbrokenCompletes(s);
    var letter: seq<Byte> := [0x41];
    more := tail + letter;
    SafeGrows(s, tail);
    SafeAfterText(s + tail, letter);
    assert s + more == s + tail + letter;
    assert letter[1..] == [] && Safe(letter) == "A";
  }

  /** One byte that no character starts with hides all well-formed text behind it. */
  lemma OneBadByte(t: string)
    ensures Broken([0xFF]) && Safe([0xFF] + EncodeAll(t)) == ""
  {
    BrokenStalls([0xFF], EncodeAll(t));
  }

  // ----- the encoder, as an independent definition of well-formedness

  function Encode(c: char): (s: seq<Byte>)
    ensures 0 < |s| <= 4
  {
    var u := c as int;
    var v := u / 64;
    var w := v / 64;
    if u < 0x80 then [u]
    else if u < 0x800 then [0xC0 + v, 0x80 + u % 64]
    else if u < 0x10000 then [0xE0 + w, 0x80 + v % 64, 0x80 + u % 64]
    else [0xF0 + w / 64, 0x80 + w % 64, 0x80 + v % 64, 0x80 + u % 64]
  }

  function EncodeAll(t: string): seq<Byte> {
    if t == "" then [] else Encode(t[0]) + EncodeAll(t[1..])
  }

  lemma ScanEncode(c: char, rest: seq<Byte>)
    ensures Scan(Encode(c) + rest) == Char(|Encode(c)|, c)
  {
    var u := c as int;
    var s := Encode(c) + rest;
    if u < 0x80 {
      assert s[0] == u;
    } else if u < 0x800 {
      assert s[0] == 0xC0 + u / 64 && s[1] == 0x80 + u % 64;
      assert Point2(s[0], s[1]) == c;
    } else if u < 0x10000 {
      assert s[0] == 0xE0 + u / 64 / 64 && s[1] == 0x80 + u / 64 % 64 && s[2] == 0x80 + u % 64;
      assert Second(s[0], s[1]);
      assert Point3(s[0], s[1], s[2]) == c;
    } else {
      assert s[0] == 0xF0 + u / 64 / 64 / 64 && s[1] == 0x80 + u / 64 / 64 % 64;
      assert s[2] == 0x80 + u / 64 % 64 && s[3] == 0x80 + u % 64;
      assert Second(s[0], s[1]);
      assert Point4(s[0], s[1], s[2], s[3]) == c;
    }
  }

  /** Decoding undoes encoding, in all three modes. */
  lemma {:induction false} DecodeEncode(t: string)
    ensures Decode(EncodeAll(t)) == Text(t)
    ensures Safe(EncodeAll(t)) == t == DecodeReplace(EncodeAll(t))
    decreases |t|
  {
    if t != "" {
      var e, rest := Encode(t[0]), EncodeAll(t[1..]);
      ScanEncode(t[0], rest);
      assert (e + rest)[|e|..] == rest;
      DecodeEncode(t[1..]);
      assert [t[0]] + t[1..] == t;
    }
  }

  /** And encoding undoes decoding: only the encoder's own output decodes strictly. */
  lemma {:induction false} EncodeDecode(s: seq<Byte>)
    requires Decode(s).Text?
    ensures EncodeAll(Decode(s).t) == s
    decreases |s|
  {
    hide Scan, Encode;
    if s != [] {
      var Char(n, c) := Scan(s);
      EncodeScan(s);
      EncodeDecode(s[n..]);
      var t := Decode(s[n..]).t;
      assert ([c] + t)[1..] == t;
      assert s == s[..n] + s[n..];
    }
  }

  lemma EncodeScan(s: seq<Byte>)
    requires |s| > 0 && Scan(s).Char?
    ensures Encode(Scan(s).c) == s[..Scan(s).len]
  {
    var Char(n, c) := Scan(s);
    var u := c as int;
    if n == 2 {
      Digit(u, s[0] - 0xC0, s[1] - 0x80);
    } else if n == 3 {
      var v := (s[0] as int - 0xE0) * 64 + (s[1] as int - 0x80);
      Digit(u, v, s[2] - 0x80);
      Digit(v, s[0] - 0xE0, s[1] - 0x80);
    } else if n == 4 {
      var w := (s[0] as int - 0xF0) * 64 + (s[1] as int - 0x80);
      var v := w * 64 + (s[2] as int - 0x80);
      Digit(u, v, s[3] - 0x80);
      Digit(v, w, s[2] - 0x80);
      Digit(w, s[0] - 0xF0, s[1] - 0x80);
    }
  }

  lemma Digit(u: nat, q: int, r: int)
    requires u == q * 64 + r && 0 <= r < 64
    ensures u / 64 == q && u % 64 == r
  {
  }

  // ----- ill-formed bytes, described by the encoder alone

  /** A proper, non-empty beginning of some character's encoding. */
  ghost predicate Begins(p: seq<Byte>) {
    p != [] && exists c :: p < Encode(c)
  }

  /** The maximal ill-formed subpart in front of `more`: no character starts here; the longest
      beginning of a character that stands here, or a single byte when there is none. */
  ghost predicate Subpart(bad: seq<Byte>, more: seq<Byte>) {
    var s := bad + more;
    && bad != [] && (forall c :: !(Encode(c) <= s))
    && (Begins(bad) || |bad| == 1)
    && forall k | |bad| < k <= |s| :: !Begins(s[..k])
  }

  lemma BeginsShort(p: seq<Byte>)
    requires p != []
    ensures Begins(p) <==> Scan(p).Short?
  {
    hide Scan, Encode;
    if Begins(p) && !Scan(p).Short? {
      var c :| p < Encode(c);
      ScanSettled(p, Encode(c)[|p|..]);
      assert p + Encode(c)[|p|..] == Encode(c) == Encode(c) + [];
      ScanEncode(c, []);
    }
    if Scan(p).Short? {
      CompletionChar(p);
      EncodeScan(p + Completion(p));
      var all := p + Completion(p);
      assert all[..|all|] == all && p < all;
      assert p < Encode(Scan(all).c);
    }
  }

  lemma CompletionChar(s: seq<Byte>)
    requires |s| > 0 && Scan(s).Short?
    ensures var all := s + Completion(s); |all| > |s| && Scan(all).Char? && Scan(all).len == |all|
  {
    var all := s + Completion(s);
    assert all[0] == s[0] && Second(all[0], all[1]);
    assert 2 < |all| ==> Continuation(all[2]);
    assert 3 < |all| ==> Continuation(all[3]);
  }

  /** The bytes of a bad front begin a character, or are one byte that begins none; the byte after
      them is what spoils it. */
  lemma ScanBadPrefix(s: seq<Byte>, k: nat)
    requires |s| > 0 && Scan(s).Bad? && 0 < k <= |s|
    ensures k > Scan(s).len ==> Scan(s[..k]) == Scan(s)
    ensures k == Scan(s).len ==> Scan(s[..k]).Short? || (k == 1 && Scan(s[..k]).Bad?)
    ensures k == Scan(s).len && !Scan(s[..k]).Short? ==> forall j | 0 < j <= |s| :: Scan(s[..j]) == Scan(s)
  {
  }

  /** What the decoders find at the front is what the encoder says stands there. */
  lemma ScanSubpart(bad: seq<Byte>, more: seq<Byte>)
    requires Subpart(bad, more)
    ensures var f := Scan(bad + more); f == Bad(|bad|) || (f.Short? && more == [])
  {
    hide Scan, Encode;
    var s := bad + more;
    var n := |bad|;
    assert s[..n] == bad && s[..|s|] == s;
    match Scan(s)
    case Char(_, c) => EncodeScan(s);
    case Short =>
      BeginsShort(s);
    case Bad(k) =>
      ScanBadPrefix(s, k);
      ScanBadPrefix(s, n);
      BeginsShort(bad);
      BeginsShort(s[..k]);
  }

  /** One character in front, in all three modes. */
  lemma CharFront(c: char, rest: seq<Byte>)
    ensures Safe(Encode(c) + rest) == [c] + Safe(rest)
    ensures DecodeReplace(Encode(c) + rest) == [c] + DecodeReplace(rest)
    ensures Decode(Encode(c) + rest) == After([c], |Encode(c)|, Decode(rest))
  {
    hide Scan, Encode;
    ScanEncode(c, rest);
    assert (Encode(c) + rest)[|Encode(c)|..] == rest;
  }

  /** The strict decode of bytes behind n bytes that spell t. */
  function After(t: string, n: nat, rest: Strict): Strict {
    match rest
    case Text(x) => Text(t + x)
    case Error(i) => Error(n + i)
  }

  /** What follows the text of a well-formed front, in all three modes. */
  lemma {:induction false} DecodeBehind(t: string, rest: seq<Byte>)
    ensures Safe(EncodeAll(t) + rest) == t + Safe(rest)
    ensures DecodeReplace(EncodeAll(t) + rest) == t + DecodeReplace(rest)
    ensures Decode(EncodeAll(t) + rest) == After(t, |EncodeAll(t)|, Decode(rest))
    decreases |t|
  {
    hide Scan, Encode, Safe, Decode, DecodeReplace;
    if t == "" {
      assert EncodeAll(t) + rest == rest;
    } else {
      var tail := EncodeAll(t[1..]);
      assert EncodeAll(t) + rest == Encode(t[0]) + (tail + rest);
      CharFront(t[0], tail + rest);
      DecodeBehind(t[1..], rest);
      assert t == [t[0]] + t[1..];
    }
  }

  /** Replace mode turns each maximal ill-formed subpart, a cut-off character at the end included,
      into one replacement character and goes on behind it; strict mode fails exactly there, and
      the safe text is what stands before. */
  lemma ReplaceBad(t: string, bad: seq<Byte>, more: seq<Byte>)
    requires Subpart(bad, more)
    ensures DecodeReplace(EncodeAll(t) + bad + more) == t + [REPLACEMENT] + DecodeReplace(more)
    ensures Decode(EncodeAll(t) + bad + more) == Error(|EncodeAll(t)|)
    ensures Safe(EncodeAll(t) + bad + more) == t
  {
    hide Scan, Encode, Subpart;
    var s := bad + more;
    assert EncodeAll(t) + bad + more == EncodeAll(t) + s;
    DecodeBehind(t, s);
    SubpartNotEmpty(bad, more);
    ScanSubpart(bad, more);
    assert s[|bad|..] == more;
    assert Decode(s) == Error(0) && Safe(s) == "";
  }

  lemma SubpartNotEmpty(bad: seq<Byte>, more: seq<Byte>)
    requires Subpart(bad, more)
    ensures bad != []
  {
  }

  /** Text cut off in the middle of a character: one replacement character for what is left of it. */
  lemma ReplaceCutOff(t: string, p: seq<Byte>)
    requires Begins(p)
    ensures DecodeReplace(EncodeAll(t) + p) == t + [REPLACEMENT]
    ensures Safe(EncodeAll(t) + p) == t
  {
    hide Encode, Scan;
    BeginsShort(p);
    DecodeBehind(t, p);
  }

  /** Every byte string is a character or a maximal ill-formed subpart followed by more, so the laws
      above say what it decodes to in every mode. */
  lemma EveryFront(s: seq<Byte>) returns (n: nat)
    requires s != []
    ensures 0 < n <= |s| && ((exists c :: Encode(c) == s[..n]) || Subpart(s[..n], s[n..]))
  {
    hide Encode, Scan;
    assert s[..|s|] == s;
    match Scan(s) {
      case Char(k, c) =>
        EncodeScan(s);
        n := k;
      case Short =>
        n := |s|;
        NoCharHere(s);
        BeginsShort(s);
        assert s[..n] + s[n..] == s;
      case Bad(k) =>
        n := k;
        NoCharHere(s);
        ScanBadPrefix(s, k);
        BeginsShort(s[..k]);
        assert s[..n] + s[n..] == s;
        forall j | k < j <= |s| ensures !Begins(s[..j]) {
          ScanBadPrefix(s, j);
          BeginsShort(s[..j]);
        }
    }
  }

  lemma NoCharHere(s: seq<Byte>)
    requires s != [] && !Scan(s).Char?
    ensures forall c :: !(Encode(c) <= s)
  {
    hide Scan, Encode;
    forall c ensures !(Encode(c) <= s) {
      if Encode(c) <= s {
        assert s == Encode(c) + s[|Encode(c)|..];
        ScanEncode(c, s[|Encode(c)|..]);
      }
    }
  }

  /** The examples of section 7 of RFC 3629. */
  lemma EncodeExamples()
    ensures Encode('A') == [0x41] && Encode(0x2262 as char) == [0xE2, 0x89, 0xA2]
    ensures Encode(0x0391 as char) == [0xCE, 0x91] && Encode('.') == [0x2E]
    ensures Encode(0xFEFF as char) == [0xEF, 0xBB, 0xBF] && Encode(0x233B4 as char) == [0xF0, 0xA3, 0x8E, 0xB4]
  {
  }
}
