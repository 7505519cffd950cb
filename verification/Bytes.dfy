/** The GPT-2 byte alphabet: every byte becomes one visible character, so that merging works on
    text and the bytes can be read back from the tokens. */
module Bytes {
  import opened Text
  import opened Merging

  type byte = b: int | 0 <= b < 256

  /** The bytes that stand for themselves. */
  predicate Visible(b: int) {
    0x21 <= b <= 0x7e || 0xa1 <= b <= 0xac || 0xae <= b <= 0xff
  }

  /** How many bytes below `b` do not. */
  function HiddenBelow(b: nat): (n: nat)
    ensures n <= b
  {
    if b == 0 then 0 else HiddenBelow(b - 1) + (if Visible(b - 1) then 0 else 1)
  }

  function CharOf(b: byte): char {
    if Visible(b) then b as char else (256 + HiddenBelow(b)) as char
  }

  lemma {:induction false} HiddenGrows(a: nat, b: nat)
    requires a < b && !Visible(a)
    ensures HiddenBelow(a) < HiddenBelow(b)
  {
    if a < b - 1 {
      HiddenGrows(a, b - 1);
    }
  }

  /** Different bytes become different characters. */
  lemma {:induction false} CharOfIsInjective(a: byte, b: byte)
    requires CharOf(a) == CharOf(b)
    ensures a == b
  {
    if a < b && !Visible(a) {
      HiddenGrows(a, b);
    } else if b < a && !Visible(b) {
      HiddenGrows(b, a);
    }
  }

  lemma {:induction false} HiddenCounted(b: nat)
    requires b <= 256
    ensures HiddenBelow(b) == if b <= 0x21 then b else if b <= 0x7f then 0x21 else if b <= 0xa1 then b - 0x5e
                              else if b <= 0xad then 0x43 else 0x44
  {
    if b > 0 {
      HiddenCounted(b - 1);
    }
  }

  /** The whole alphabet: 188 bytes stand for themselves, and the others, in their order, for the 68
      characters from U+0100 on. */
  lemma {:induction false} AlphabetTable(b: byte)
    ensures CharOf(b) as int
         == if b <= 0x20 then 0x100 + b else if 0x7f <= b <= 0xa0 then 0xa2 + b else if b == 0xad then 0x143 else b
  {
    HiddenCounted(b);
  }

  /** The finished table. */
  function Encoder(): map<byte, string> {
    map b: byte | true :: [CharOf(b)]
  }

  /** The first three loops of `gpt2_byte_encoder` collect the visible bytes. */
  method VisibleBytes() returns (bs: seq<int>)
    ensures forall x :: x in bs <==> Visible(x)
  {
    bs := [];
    for b := 0x21 to 0x7f
      invariant forall x :: x in bs <==> 0x21 <= x < b
    {
      bs := bs + [b];
    }
    for b := 0xa1 to 0xad
      invariant forall x :: x in bs <==> 0x21 <= x < 0x7f || 0xa1 <= x < b
    {
      bs := bs + [b];
    }
    for b := 0xae to 0x100
      invariant forall x :: x in bs <==> 0x21 <= x < 0x7f || 0xa1 <= x < 0xad || 0xae <= x < b
    {
      bs := bs + [b];
    }
  }

  /** `gpt2_byte_encoder`: the table is filled byte by byte, hidden bytes numbered as they come. */
  method Gpt2ByteEncoder() returns (encoder: map<byte, string>)
    ensures encoder == Encoder()
  {
    encoder := map[];
    var bs := VisibleBytes();
    var n := 0;
    for b := 0 to 256
      invariant n == HiddenBelow(b)
      invariant forall x :: x in bs <==> Visible(x) || 0 <= x < b
      invariant forall x: byte :: x < b ==> x in encoder && encoder[x] == [CharOf(x)]
    {
      if b !in bs {
        bs := bs + [b];
        encoder := encoder[b := [(256 + n) as char]];
        n := n + 1;
      } else {
        encoder := encoder[b := [b as char]];
      }
    }
  }

  ghost predicate Injective(encoder: map<byte, string>) {
    forall a, b | a in encoder && b in encoder :: encoder[a] == encoder[b] ==> a == b
  }

  /** `gpt2_byte_decoder`: the encoder's entries turned around. */
  function Gpt2ByteDecoder(encoder: map<byte, string>): map<string, byte>
    requires Injective(encoder)
  {
    map b | b in encoder :: encoder[b] := b
  }

  /** The decoder built from the encoder undoes it, byte by byte. */
  lemma {:induction false} DecoderUndoesEncoder(b: byte)
    ensures Injective(Encoder())
    ensures [CharOf(b)] in Gpt2ByteDecoder(Encoder())
    ensures Gpt2ByteDecoder(Encoder())[[CharOf(b)]] == b
  {
    forall x: byte, y: byte | Encoder()[x] == Encoder()[y]
      ensures x == y
    {
      assert [CharOf(x)][0] == [CharOf(y)][0];
      CharOfIsInjective(x, y);
    }
    assert Encoder()[b] == [CharOf(b)];
  }

  function Mapped(bytes: seq<byte>): string {
    if bytes == [] then "" else [CharOf(bytes[0])] + Mapped(bytes[1..])
  }

  /** Reading a text back character by character; `None` where a character is no byte's. */
  function ReadBack(decoder: map<string, byte>, text: string): Option<seq<byte>> {
    if text == "" then Some([])
    else if [text[0]] !in decoder then None
    else
      match ReadBack(decoder, text[1..])
      case None => None
      case Some(rest) => Some([decoder[[text[0]]]] + rest)
  }

  lemma {:induction false} MappedReadsBack(bytes: seq<byte>)
    requires Injective(Encoder())
    ensures ReadBack(Gpt2ByteDecoder(Encoder()), Mapped(bytes)) == Some(bytes)
  {
    if bytes != [] {
      DecoderUndoesEncoder(bytes[0]);
      MappedReadsBack(bytes[1..]);
      var first := CharOf(bytes[0]);
      assert Mapped(bytes)[0] == first && Mapped(bytes)[1..] == Mapped(bytes[1..]);
      assert bytes == [bytes[0]] + bytes[1..];
    }
  }

  /** Byte-level losslessness: joining the tokens of any byte string under any merge list and
      reading them back gives the byte string. */
  lemma {:induction false} TokensAreLossless(bytes: seq<byte>, merges: seq<Merge>)
    ensures Injective(Encoder())
    ensures ReadBack(Gpt2ByteDecoder(Encoder()), Join(Segment(Symbols(Mapped(bytes)), merges)))
         == Some(bytes)
  {
    DecoderUndoesEncoder(0);
    SegmentIsComplete(Symbols(Mapped(bytes)), merges);
    SymbolsSpell(Mapped(bytes));
    MappedReadsBack(bytes);
  }

  /** Mapped text holds no white space, so splitting it at spaces and stripping the pieces
      leaves it whole. */
  lemma {:induction false} MappedTextIsOneWord(bytes: seq<byte>)
    ensures forall c :: c in Mapped(bytes) ==> !IsWhiteSpace(c)
  {
    if bytes != [] {
      MappedTextIsOneWord(bytes[1..]);
    }
  }
}
