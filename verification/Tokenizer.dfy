/** The streaming detokenizer.  A token decodes to a byte string of its own, whatever stands
    around it; `enc` is that table, and it may cut characters anywhere. */
module Tokenizer {
  import opened Transformer
  import opened Utf8

  type Table = Token -> seq<Byte>

  function Bytes(enc: Table, ids: seq<Token>): seq<Byte> {
    if ids == [] then [] else Bytes(enc, ids[..|ids| - 1]) + enc(ids[|ids| - 1])
  }

  /** The text a consumer has been given after the tokens `ids`, before finalisation. */
  function SafeText(enc: Table, ids: seq<Token>): string {
    Safe(Bytes(enc, ids))
  }

  /** The one-shot decode of the tokens. */
  function FullText(enc: Table, ids: seq<Token>): string {
    DecodeReplace(Bytes(enc, ids))
  }

  /** full[|emitted|..], empty when `emitted` is the longer one. */
  function Beyond(full: string, emitted: string): string {
    if |emitted| <= |full| then full[|emitted|..] else ""
  }

  lemma JoinBeyond(full: string, emitted: string)
    requires emitted <= full
    ensures emitted + Beyond(full, emitted) == full
  {
  }

  lemma {:induction false} SafeTextGrows(enc: Table, ids: seq<Token>, n: nat)
    requires n <= |ids|
    ensures SafeText(enc, ids[..n]) <= SafeText(enc, ids)
    decreases |ids|
  {
    if n < |ids| {
      var rest := ids[..|ids| - 1];
      assert rest[..n] == ids[..n];
      SafeTextGrows(enc, rest, n);
      SafeGrows(Bytes(enc, rest), enc(ids[|ids| - 1]));
    } else {
      assert ids[..n] == ids;
    }
  }

  /** The deltas of feeding the tokens one at a time, joined. */
  function Streamed(enc: Table, ids: seq<Token>): string {
    if ids == [] then ""
    else
      var n := |ids| - 1;
      Streamed(enc, ids[..n]) + Beyond(SafeText(enc, ids), SafeText(enc, ids[..n]))
  }

  /** Streaming equals one-shot decoding: the deltas join to the safe text, which is always a
      prefix of the one-shot text, and the delta of finalisation completes it. */
  lemma {:induction false} StreamingIsExact(enc: Table, ids: seq<Token>)
    ensures Streamed(enc, ids) == SafeText(enc, ids) <= FullText(enc, ids)
    ensures Streamed(enc, ids) + Beyond(FullText(enc, ids), SafeText(enc, ids)) == FullText(enc, ids)
    decreases |ids|
  {
    hide Safe, DecodeReplace;
    SafeWithinReplace(Bytes(enc, ids));
    JoinBeyond(FullText(enc, ids), SafeText(enc, ids));
    if ids != [] {
      var n := |ids| - 1;
      StreamingIsExact(enc, ids[..n]);
      SafeTextGrows(enc, ids, n);
      JoinBeyond(SafeText(enc, ids), SafeText(enc, ids[..n]));
    } else {
      EmptySafe();
    }
  }

  /** Tokens that spell well-formed UTF-8 stream to exactly that text, however the characters
      are split over tokens, and leave nothing for finalisation. */
  lemma StreamingWellFormed(enc: Table, ids: seq<Token>, t: string)
    requires Bytes(enc, ids) == EncodeAll(t)
    ensures Streamed(enc, ids) == t && Beyond(FullText(enc, ids), SafeText(enc, ids)) == ""
  {
    StreamingIsExact(enc, ids);
    DecodeEncode(t);
  }

  /** Finalisation behind an ill-formed subpart: one replacement character for it, and nothing of
      what follows is lost. */
  lemma FinalReplaces(enc: Table, ids: seq<Token>, t: string, bad: seq<Byte>, u: string)
    requires Subpart(bad, EncodeAll(u)) && Bytes(enc, ids) == EncodeAll(t) + bad + EncodeAll(u)
    ensures SafeText(enc, ids) == t && FullText(enc, ids) == t + [REPLACEMENT] + u
  {
    hide Subpart;
    ReplaceBad(t, bad, EncodeAll(u));
    DecodeEncode(u);
  }

  /** The bytes of several tokens are those of each, joined in order. */
  lemma {:induction false} BytesConcat(enc: Table, ids: seq<Token>, more: seq<Token>)
    ensures Bytes(enc, ids + more) == Bytes(enc, ids) + Bytes(enc, more)
    ensures |more| == 1 ==> Bytes(enc, more) == enc(more[0])
    decreases |more|
  {
    if more == [] {
      assert ids + more == ids;
    } else {
      var n := |more| - 1;
      assert (ids + more)[..|ids + more| - 1] == ids + more[..n];
      BytesConcat(enc, ids, more[..n]);
    }
  }

  /** Nothing more will be streamed before finalisation, whatever tokens follow. */
  ghost predicate Stalled(enc: Table, ids: seq<Token>) {
    forall more: seq<Token> :: Streamed(enc, ids + more) == Streamed(enc, ids)
  }

  /** An ill-formed subpart anywhere in the tokens so far stalls the stream, with any table. */
  lemma BrokenStreamStalls(enc: Table, ids: seq<Token>)
    requires Broken(Bytes(enc, ids))
    ensures Stalled(enc, ids)
  {
    forall more: seq<Token> ensures Streamed(enc, ids + more) == Streamed(enc, ids) {
      BytesConcat(enc, ids, more);
      BrokenStalls(Bytes(enc, ids), Bytes(enc, more));
      StreamingIsExact(enc, ids);
      StreamingIsExact(enc, ids + more);
    }
  }

  /** Byte-level vocabularies have a token for every single byte. */
  ghost predicate SpellsBytes(enc: Table) {
    forall b: Byte :: exists t: Token :: enc(t) == [b]
  }

  lemma {:induction false} Spell(enc: Table, s: seq<Byte>) returns (ids: seq<Token>)
    requires SpellsBytes(enc)
    ensures Bytes(enc, ids) == s
    decreases |s|
  {
    if s == [] {
      ids := [];
    } else {
      var n := |s| - 1;
      var front := Spell(enc, s[..n]);
      var t: Token :| enc(t) == [s[n]];
      ids := front + [t];
      assert ids[..|ids| - 1] == front;
      assert s == s[..n] + [s[n]];
    }
  }

  /** With such a vocabulary nothing else stalls a stream. */
  lemma StreamStallsExactly(enc: Table, ids: seq<Token>)
    requires SpellsBytes(enc)
    ensures Stalled(enc, ids) <==> Broken(Bytes(enc, ids))
  {
    hide Safe, DecodeReplace, Streamed;
    if Broken(Bytes(enc, ids)) {
      BrokenStreamStalls(enc, ids);
    } else {
      var more := GrowingContinuation(Bytes(enc, ids));
      var toks := Spell(enc, more);
      BytesConcat(enc, ids, toks);
      StreamingIsExact(enc, ids);
      StreamingIsExact(enc, ids + toks);
      assert Streamed(enc, ids + toks) != Streamed(enc, ids);
    }
  }

  lemma EmptySafe()
    ensures Safe([]) == ""
  {
  }

  class IncrementalDetokenizer {
    const enc: Table
    var tokenIds: seq<Token>
    var emittedText: string

    /** Holds from construction until finalisation. */
    ghost predicate Streaming()
      reads this
    {
      emittedText == SafeText(enc, tokenIds)
    }

    constructor (enc: Table)
      ensures this.enc == enc && tokenIds == [] && emittedText == ""
      ensures Streaming()
    {
      this.enc := enc;
      tokenIds, emittedText := [], "";
    }

    method AddToken(tokenId: Token) returns (delta: string)
      modifies this
      ensures tokenIds == old(tokenIds) + [tokenId] && emittedText == SafeText(enc, tokenIds)
      ensures delta == Beyond(SafeText(enc, tokenIds), old(emittedText))
      ensures old(Streaming()) ==> Streaming() && emittedText == old(emittedText) + delta
    {
      tokenIds := tokenIds + [tokenId];
      assert tokenIds[..|tokenIds| - 1] == old(tokenIds);
      var fullBytes := Bytes(enc, tokenIds);
      var fullText;
      DecodeSafe(fullBytes);
      match Decode(fullBytes) {
        case Text(t) => fullText := t;
        case Error(start) => fullText := Decode(fullBytes[..start]).t;
      }
      SafeTextGrows(enc, tokenIds, |tokenIds| - 1);
      delta := Beyond(fullText, emittedText);
      emittedText := fullText;
    }

    method Finalize() returns (delta: string)
      modifies this
      ensures tokenIds == old(tokenIds) && emittedText == FullText(enc, tokenIds)
      ensures delta == Beyond(FullText(enc, tokenIds), old(emittedText))
      ensures old(Streaming()) ==> emittedText == old(emittedText) + delta
    {
      var fullText := DecodeReplace(Bytes(enc, tokenIds));
      StreamingIsExact(enc, tokenIds);
      delta := Beyond(fullText, emittedText);
      emittedText := fullText;
    }
  }
}
