/**
 * The bytecode chunk of the Lox virtual machine (lox-vm/src/chunk.rs): an
 * append-only byte buffer with a parallel table of source lines, the
 * mapping between opcodes and bytes, and the disassembler.
 *
 * The disassembler prints; here it returns the lines it would print as
 * `Listing` records, and `Render` spells each record out as the text the
 * program writes.
 */
module LoxVmChunk {
  import opened Support

  datatype OpCode = OpReturn | OpConstant

  /** The opcode's discriminant, `op as u8`: declaration order from 0. */
  function AsU8(op: OpCode): (b: byte)
    ensures b as int < 2
    ensures b == 0 <==> op == OpReturn
  {
    match op
    case OpReturn => 0
    case OpConstant => 1
  }

  /** The mnemonic the disassembler prints for an opcode. */
  function Name(op: OpCode): (name: string)
    ensures |name| > 3 && name[..3] == "OP_"
  {
    match op
    case OpReturn => "OP_RETURN"
    case OpConstant => "OP_CONSTANT"
  }

  /** Different opcodes have different mnemonics. */
  lemma NameInjective(a: OpCode, b: OpCode)
    ensures Name(a) == Name(b) <==> a == b
  {
    if a != b {
      assert |Name(a)| != |Name(b)|;
    }
  }

  /**
   * Decodes a byte. Only 0 is mapped (to `OpReturn`); every other byte,
   * `OpConstant`'s discriminant 1 included, decodes to nothing.
   */
  function FromU8(b: byte): (r: Option<OpCode>)
    ensures r.Some? <==> b == 0
    ensures r.Some? ==> AsU8(r.value) == b
  {
    match b
    case 0 => Some(OpReturn)
    case _ => None
  }

  /** Decoding undoes the discriminant for `OpReturn` and for no other opcode. */
  lemma RoundTrip(op: OpCode)
    ensures FromU8(AsU8(op)) == Some(op) <==> op == OpReturn
    ensures op == OpConstant ==> FromU8(AsU8(op)) == None
  {
  }

  /** What one disassembled instruction says about the byte at its offset. */
  datatype Instruction =
    | Mnemonic(name: string)
    | UnknownOpcode(opcode: byte)
    | BeyondEnd

  /** One printed line of a listing: the `== name ==` header, or an instruction at an offset. */
  datatype Listing =
    | Header(chunkName: string)
    | Entry(offset: nat, instruction: Instruction)

  /** A known opcode takes one byte and is printed by its mnemonic alone. */
  function SimpleInstruction(name: string, offset: nat): (r: (Listing, nat))
    ensures r.0 == Entry(offset, Mnemonic(name)) && r.1 == offset + 1
  {
    (Entry(offset, Mnemonic(name)), offset + 1)
  }

  class Chunk {
    var code: seq<byte>
    var lines: seq<nat>

    /** Every byte of code has the source line it came from. */
    ghost predicate Valid()
      reads this
    {
      |code| == |lines|
    }

    constructor ()
      ensures Valid() && code == [] && lines == []
    {
      code := [];
      lines := [];
    }

    /** Appends one byte and its line; earlier entries stay as they were. */
    method Write(b: byte, line: nat)
      modifies this
      ensures code == old(code) + [b] && lines == old(lines) + [line]
      ensures old(Valid()) ==> Valid()
    {
      code := code + [b];
      lines := lines + [line];
    }

    /**
     * The line printed for the instruction at `offset`, and the offset of
     * the next instruction. Every instruction is one byte long.
     */
    function DisassembleInstruction(offset: nat): (r: (Listing, nat))
      reads this
      ensures r.1 == offset + 1
      ensures r.0.Entry? && r.0.offset == offset
      ensures r.0.instruction == BeyondEnd <==> offset >= |code|
      ensures offset < |code| && code[offset] == 0 ==> r.0.instruction == Mnemonic("OP_RETURN")
      ensures offset < |code| && code[offset] != 0 ==> r.0.instruction == UnknownOpcode(code[offset])
    {
      if offset >= |code| then
        (Entry(offset, BeyondEnd), offset + 1)
      else
        var instruction := code[offset];
        match FromU8(instruction)
        case Some(op) => SimpleInstruction(Name(op), offset)
        case None => (Entry(offset, UnknownOpcode(instruction)), offset + 1)
    }

    /**
     * The listing for the whole chunk: the header, then the instructions at
     * offsets 0, 1, ..., |code| - 1, each exactly once and in that order.
     * Unknown bytes are reported and skipped; the loop never runs past the
     * end, so no `BeyondEnd` line appears. The chunk is not changed.
     */
    method Disassemble(name: string) returns (listing: seq<Listing>)
      ensures |listing| == |code| + 1 && listing[0] == Header(name)
      ensures forall i :: 0 <= i < |code| ==> listing[i + 1] == DisassembleInstruction(i).0
      ensures forall i :: 1 <= i < |listing| ==>
        listing[i].Entry? && listing[i].offset == i - 1 && listing[i].instruction != BeyondEnd
    {
      listing := [Header(name)];
      var offset := 0;
      while offset < |code|
        invariant offset <= |code|
        invariant |listing| == offset + 1 && listing[0] == Header(name)
        invariant forall i :: 0 <= i < offset ==> listing[i + 1] == DisassembleInstruction(i).0
      {
        var decoded := DisassembleInstruction(offset);
        listing := listing + [decoded.0];
        offset := decoded.1;
      }
      forall i | 1 <= i < |listing|
        ensures listing[i].Entry? && listing[i].offset == i - 1 && listing[i].instruction != BeyondEnd
      {
        assert listing[(i - 1) + 1] == DisassembleInstruction(i - 1).0;
      }
    }
  }

  /** The decimal digit character for `d`. */
  function DigitChar(d: nat): (c: char)
    requires d < 10
    ensures '0' <= c <= '9' && c as int - '0' as int == d
  {
    (('0' as int) + d) as char
  }

  predicate AllDigits(s: string) {
    forall i :: 0 <= i < |s| ==> '0' <= s[i] <= '9'
  }

  /** `n` in decimal, without leading zeros, as `{}` formats an integer. */
  function Decimal(n: nat): (s: string)
    ensures |s| >= 1 && AllDigits(s)
    ensures s[0] == '0' <==> n == 0
    ensures n < 10 ==> |s| == 1
  {
    if n < 10 then [DigitChar(n)] else Decimal(n / 10) + [DigitChar(n % 10)]
  }

  /** Reads a string of decimal digits back as a number. */
  function ParseDecimal(s: string): nat
    requires AllDigits(s)
  {
    if s == [] then 0 else ParseDecimal(s[..|s| - 1]) * 10 + (s[|s| - 1] as int - '0' as int)
  }

  /** `n` zero-padded to at least four digits, as `{:04}` formats an offset. */
  function Padded(n: nat): (s: string)
    ensures AllDigits(s) && |s| >= 4
    ensures |s| > 4 ==> s[0] != '0'
  {
    var digits := Decimal(n);
    if |digits| >= 4 then digits else Zeros(4 - |digits|) + digits
  }

  function Zeros(k: nat): (z: string)
    ensures |z| == k && forall i :: 0 <= i < k ==> z[i] == '0'
  {
    seq(k, _ => '0')
  }

  /** The text of one listing line. */
  function Render(line: Listing): (text: string)
    ensures line.Header? ==>
      && |text| == |line.chunkName| + 6 && text[..3] == "== " && text[|text| - 3..] == " =="
      && text[3..|text| - 3] == line.chunkName
    ensures line.Entry? ==>
      var offset := Padded(line.offset);
      |text| > |offset| && text[..|offset|] == offset && text[|offset|] == ' '
  {
    match line
    case Header(name) => "== " + name + " =="
    case Entry(offset, instruction) =>
      Padded(offset) + " " +
      match instruction
      case Mnemonic(name) => name
      case UnknownOpcode(opcode) => "Unknown opcode " + Decimal(opcode as nat)
      case BeyondEnd => "Attempt to disassemble beyond chunk end"
  }

  /** Decimal formatting loses nothing: parsing it gives the number back. */
  lemma {:induction false} DecimalRoundTrip(n: nat)
    ensures ParseDecimal(Decimal(n)) == n
  {
    if n >= 10 {
      DecimalRoundTrip(n / 10);
      var s := Decimal(n);
      assert s[..|s| - 1] == Decimal(n / 10);
    }
  }

  /** Numbers below 10^k take at most k decimal digits. */
  lemma {:induction false} DecimalLength(n: nat, k: nat, bound: nat)
    requires 1 <= k && bound == Pow10(k) && n < bound
    ensures |Decimal(n)| <= k
  {
    if n >= 10 {
      assert Pow10(1) == 10;
      DecimalLength(n / 10, k - 1, Pow10(k - 1));
    }
  }

  function Pow10(k: nat): (p: nat)
    ensures p >= 1
  {
    if k == 0 then 1 else 10 * Pow10(k - 1)
  }

  /** Leading zeros do not change the value of a digit string. */
  lemma {:induction false} LeadingZeros(z: nat, s: string)
    requires AllDigits(s)
    ensures AllDigits(Zeros(z) + s)
    ensures ParseDecimal(Zeros(z) + s) == ParseDecimal(s)
    decreases |s|
  {
    var zeros := Zeros(z);
    if s == [] {
      assert zeros + s == zeros;
      AllZeros(zeros);
    } else {
      var t := zeros + s;
      assert t[..|t| - 1] == zeros + s[..|s| - 1];
      LeadingZeros(z, s[..|s| - 1]);
    }
  }

  lemma {:induction false} AllZeros(zeros: string)
    requires forall i :: 0 <= i < |zeros| ==> zeros[i] == '0'
    ensures AllDigits(zeros) && ParseDecimal(zeros) == 0
    decreases |zeros|
  {
    if zeros != [] {
      AllZeros(zeros[..|zeros| - 1]);
    }
  }

  /**
   * An offset is printed with exactly four digits while it is below 10000,
   * and the digits always read back as the offset.
   */
  lemma PaddedOffset(n: nat)
    ensures n < 10000 ==> |Padded(n)| == 4
    ensures ParseDecimal(Padded(n)) == n
  {
    DecimalRoundTrip(n);
    var digits := Decimal(n);
    if |digits| < 4 {
      LeadingZeros(4 - |digits|, digits);
    }
    if n < 10000 {
      DecimalLength(n, 4, Pow10(4));
    }
  }

  /** Every instruction line starts with its offset in four digits and a space. */
  lemma EntryLayout(offset: nat, instruction: Instruction)
    requires offset < 10000
    ensures var text := Render(Entry(offset, instruction));
      |text| >= 5 && AllDigits(text[..4]) && ParseDecimal(text[..4]) == offset && text[4] == ' '
  {
    PaddedOffset(offset);
    var text := Render(Entry(offset, instruction));
    assert text == Padded(offset) + (text[4..]);
    assert text[..4] == Padded(offset);
  }

  /**
   * The driver program: a chunk holding `OpReturn` and `OpConstant`, both
   * on line 1, disassembled under the name "test chunk".
   */
  method TestChunk() returns (output: seq<string>)
    ensures output == ["== test chunk ==", "0000 OP_RETURN", "0001 Unknown opcode 1"]
  {
    var chunk := new Chunk();
    chunk.Write(AsU8(OpReturn), 1);
    chunk.Write(AsU8(OpConstant), 1);
    assert chunk.code == [0, 1];
    var listing := chunk.Disassemble("test chunk");
    assert listing[1] == chunk.DisassembleInstruction(0).0;
    assert listing[2] == chunk.DisassembleInstruction(1).0;
    assert listing == [Header("test chunk"), Entry(0, Mnemonic("OP_RETURN")), Entry(1, UnknownOpcode(1))];
    TestChunkText();
    output := [Render(listing[0]), Render(listing[1]), Render(listing[2])];
  }

  /** The text of the three lines the driver's listing consists of. */
  lemma TestChunkText()
    ensures Render(Header("test chunk")) == "== test chunk =="
    ensures Render(Entry(0, Mnemonic("OP_RETURN"))) == "0000 OP_RETURN"
    ensures Render(Entry(1, UnknownOpcode(1))) == "0001 Unknown opcode 1"
  {
    SmallOffsets();
    assert "0000" + " " + "OP_RETURN" == "0000 OP_RETURN";
    assert "0001" + " " + ("Unknown opcode " + "1") == "0001 Unknown opcode 1";
  }

  lemma SmallOffsets()
    ensures Padded(0) == "0000" && Padded(1) == "0001" && Decimal(1) == "1"
  {
    assert Decimal(0) == "0" && Decimal(1) == "1";
    assert Zeros(3) == "000";
  }
}
