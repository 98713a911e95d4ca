# lox-rs in Dafny: the scanner and the bytecode chunk

This project models the two working parts of lox-rs, a Rust implementation of
the Lox language, and proves properties of them.

- **The lexical scanner** (`lox-interpreter/src/scanner.rs`), in `scanner.dfy`
  (module `LoxScanner`), with properties in `scanner_facts.dfy`
  (module `LoxScannerFacts`).
  - The scanner makes one left-to-right pass over the source text. It keeps
    three cursors: `start`, `current` and `line`.
  - It emits single-character punctuation, one- or two-character operators
    (using one character of lookahead), `Slash`, and multi-line string literals.
  - It skips blanks, newlines and `//` comments.
  - It finishes with one `Eof` token.
  - An unrecognised character or an unterminated string aborts the scan.
  - The class `Scanner` keeps the source's fields and methods. Each method
    is proved against a pure specification:
    - `LexToken` gives what one step does;
    - `ScanFrom` and `Scan` give the token list or the first error.
    - `ScanTokens` is proved to return exactly `ScanFrom` of its starting
      state, after the tokens it already held.
  - The two inner loops of the source are their own methods:
    - `SkipComment` is the comment loop of the `/` arm;
    - `SkipStringBody` is the payload loop of `string`.
  - `Token` and `TokenType` (`tokens.dfy`) hold only what the scanner uses.
- **The VM's bytecode chunk** (`lox-vm/src/chunk.rs`), in `vm_chunk.dfy`
  (module `LoxVmChunk`).
  - `OpCode`, with its mnemonic (`Name`) and its byte decoding (`FromU8`).
  - `Chunk`: an append-only byte buffer with a parallel line table.
  - The disassembler. It returns the lines it would print as `Listing`
    records, and `Render` turns each record into the text the program prints.
    Offsets are printed zero-padded to four digits, like `{:04}`.
- **The older line-less chunk** (`src/chunk.rs`), in `chunk.dfy`
  (module `RootChunk`).

Shared wrappers are in `support.dfy`: `byte`, `Option`, `Result` and `Outcome`.

The model follows the code as written:

- A lexical error aborts the scan. No diagnostic carries the line, and
  scanning does not continue.
- `OpConstant` has no reverse mapping from its byte.

## Model

| member | source | states |
|---|---|---|
| LoxScanner.Find | lox-interpreter/src/scanner.rs:114-119 | the scan-ahead loops stop at the first occurrence of the sought character, or at the end |
| LoxScanner.CommentStep | lox-interpreter/src/scanner.rs:79-84 | a `//` comment step succeeds, emits nothing, keeps the line, consumes at least the two slashes and stops just before the first newline after them, or at the end |
| LoxScanner.LexString | lox-interpreter/src/scanner.rs:113-130 | a successful string step consumes at least the opening quote and stays in the text |
| LoxScanner.LexToken | lox-interpreter/src/scanner.rs:36-93 | every successful scan step advances the cursor by at least one and stays within the source |
| LoxScanner.ScanFrom | lox-interpreter/src/scanner.rs:22-30 | the tokens a scan from a given cursor and line yields, or its first error; a completed scan is never empty (the shape of its `Eof` is `EofTerminates`) |
| LoxScanner.Scan | lox-interpreter/src/scanner.rs:12-30 | the tokens a fresh scanner yields for a whole text, or its first error; a completed scan is never empty |
| LoxScanner.Scanner.constructor | lox-interpreter/src/scanner.rs:12-20 | a new scanner holds the source, no tokens, both cursors at 0 and line 1 |
| LoxScanner.Scanner.ScanTokens | lox-interpreter/src/scanner.rs:22-30 | the loop yields exactly the specified scan from the current state, after the tokens already held; on success the tokens end with `Eof` on the final line count and `current` is at the end |
| LoxScanner.Scanner.IsAtEnd | lox-interpreter/src/scanner.rs:32-34 | at end exactly when `current` reaches the source length |
| LoxScanner.Scanner.ScanToken | lox-interpreter/src/scanner.rs:36-93 | one call changes cursors, line and tokens exactly as the specified step does, or reports that step's error |
| LoxScanner.Scanner.SkipComment | lox-interpreter/src/scanner.rs:80-84 | the comment loop stops just before the next newline, or at the end |
| LoxScanner.Scanner.MatchChar | lox-interpreter/src/scanner.rs:95-104 | consumes one character exactly when one exists and equals the expected one; never at end of input |
| LoxScanner.Scanner.Peek | lox-interpreter/src/scanner.rs:106-111 | the next character without consuming it, NUL at end of input |
| LoxScanner.Scanner.StringLiteral | lox-interpreter/src/scanner.rs:113-130 | changes cursors, line and tokens exactly as the specified string step does, or fails as unterminated |
| LoxScanner.Scanner.SkipStringBody | lox-interpreter/src/scanner.rs:114-119 | the payload loop stops at the next quote or the end, adding one to `line` per newline passed |
| LoxScanner.Scanner.Advance | lox-interpreter/src/scanner.rs:132-139 | returns the character at `current` and moves past it |
| LoxScanner.Scanner.AddToken | lox-interpreter/src/scanner.rs:141-148 | appends one token whose lexeme is `source[start..current]` on the current line; earlier tokens unchanged |
| LoxScanner.ScanSource | lox-interpreter/src/scanner.rs:12-30 | a fresh scanner's `scan_tokens` yields exactly the specified scan of the whole text |
| LoxScannerFacts.LexTokenStep | lox-interpreter/src/scanner.rs:36-93 | a successful step advances, counts exactly the newlines it passed, and emits at most one non-`Eof` token whose lexeme is the consumed text and whose line is the line after the step |
| LoxScannerFacts.LexTokenFails | lox-interpreter/src/scanner.rs:88-122 | a step fails if and only if the character is outside the alphabet or a quote is never closed, with the matching error |
| LoxScannerFacts.PunctuationStep | lox-interpreter/src/scanner.rs:41-50 | each of `( ) { } , . - + ; *` yields one token of its kind with itself as lexeme |
| LoxScannerFacts.OperatorStep | lox-interpreter/src/scanner.rs:51-78 | `! = < >` followed by `=` yield the two-character token, otherwise the one-character token |
| LoxScannerFacts.SlashStep | lox-interpreter/src/scanner.rs:79-87 | `//` emits nothing and stops before the next newline or at the end; a lone `/` is `Slash` |
| LoxScannerFacts.LayoutStep | lox-interpreter/src/scanner.rs:88-89 | space, `\r` and `\t` emit nothing; a newline emits nothing and adds one to `line` |
| LoxScannerFacts.StringStep | lox-interpreter/src/scanner.rs:113-130 | a closed literal yields one `String` token: payload between the quotes, lexeme with the quotes, line after the embedded newlines |
| LoxScannerFacts.EofTerminates | lox-interpreter/src/scanner.rs:22-30 | a completed scan ends with exactly one `Eof`, with empty lexeme, on the starting line plus the newlines scanned |
| LoxScannerFacts.ScanEndsWithEof | lox-interpreter/src/scanner.rs:22-30 | a whole text scans to a list ending in `Eof` on line 1 plus its newline count |
| LoxScannerFacts.TokensAreSlices | lox-interpreter/src/scanner.rs:141-148 | every non-`Eof` token's lexeme is a non-empty slice of the source, and its line is the line count at the slice's end |
| LoxScannerFacts.PunctuationScan | lox-interpreter/src/scanner.rs:41-50 | text made only of punctuation yields one token per character, in order, then `Eof` |
| LoxScannerFacts.ErrorAborts | lox-interpreter/src/scanner.rs:22-26 | once a step the scan reaches fails, the whole scan fails with that error and yields no tokens |
| LoxScannerFacts.ScanEmpty | lox-interpreter/src/scanner.rs:22-30 | empty input yields exactly `[Eof "" 1]` |
| LoxScannerFacts.ScanCommentLine | lox-interpreter/src/scanner.rs:79-89 | a comment line yields only `Eof`, on line 2 |
| LoxScannerFacts.ScanMultilineString | lox-interpreter/src/scanner.rs:113-130 | a two-line literal yields one `String` token on line 2, then `Eof` |
| LoxScannerFacts.ScanOperators | lox-interpreter/src/scanner.rs:51-64 | `!= =` yields `BangEqual`, `Equal`, `Eof` |
| LoxScannerFacts.ScanUnknownCharacter | lox-interpreter/src/scanner.rs:88-92 | `(@)` aborts with an unrecognised `@` |
| LoxScannerFacts.ScanUnterminatedString | lox-interpreter/src/scanner.rs:120-122 | an unclosed literal aborts as unterminated |
| LoxVmChunk.AsU8 | lox-vm/src/chunk.rs:1-4 | the `as u8` discriminants follow declaration order: `OpReturn` is 0, the other opcode is 1 |
| LoxVmChunk.Name | lox-vm/src/chunk.rs:12-17 | every mnemonic begins with `OP_` |
| LoxVmChunk.NameInjective | lox-vm/src/chunk.rs:12-17 | different opcodes have different mnemonics |
| LoxVmChunk.FromU8 | lox-vm/src/chunk.rs:19-24 | a byte decodes exactly when it is 0, and then to the opcode whose discriminant it is |
| LoxVmChunk.RoundTrip | lox-vm/src/chunk.rs:1-24 | decoding inverts `as u8` for `OpReturn` and for no other opcode; `OpConstant`'s byte decodes to nothing |
| LoxVmChunk.SimpleInstruction | lox-vm/src/chunk.rs:62-65 | prints the mnemonic at the offset and advances by one |
| LoxVmChunk.Chunk.constructor | lox-vm/src/chunk.rs:28-30 | a new chunk has empty code and lines |
| LoxVmChunk.Chunk.Write | lox-vm/src/chunk.rs:32-35 | appends the byte and the line at the new last index, earlier entries unchanged, code and lines kept the same length |
| LoxVmChunk.Chunk.DisassembleInstruction | lox-vm/src/chunk.rs:44-60 | every branch returns offset + 1; past the end it reports so; byte 0 prints `OP_RETURN`; any other byte is an unknown opcode naming that byte |
| LoxVmChunk.Chunk.Disassemble | lox-vm/src/chunk.rs:36-42 | the header, then offsets 0 to the code length minus 1 once each and in order, never past the end; the chunk is unchanged |
| LoxVmChunk.Decimal | lox-vm/src/chunk.rs:56 | the `{}` form of a number: digits only, a single digit below 10, and a leading `0` only for zero itself, which is `"0"` |
| LoxVmChunk.DecimalRoundTrip | lox-vm/src/chunk.rs:56 | the decimal form of a number reads back as that number; with `Decimal`'s clauses on leading zeros and on single digits it is the unique such text |
| LoxVmChunk.Padded | lox-vm/src/chunk.rs:45 | the `{:04}` form of an offset: at least four digits, and a leading `0` only while padding to four |
| LoxVmChunk.Render | lox-vm/src/chunk.rs:37-63 | the header line is `== `, the chunk's name, then ` ==`; every instruction line starts with the padded offset and a space |
| LoxVmChunk.PaddedOffset | lox-vm/src/chunk.rs:45 | an offset below 10000 prints as exactly four digits, and the digits read back as the offset |
| LoxVmChunk.EntryLayout | lox-vm/src/chunk.rs:44-45 | every instruction line starts with its four-digit offset and a space |
| LoxVmChunk.TestChunk | lox-vm/src/main.rs:5-10 | the driver's chunk disassembles to `== test chunk ==`, `0000 OP_RETURN`, `0001 Unknown opcode 1` |
| LoxVmChunk.TestChunkText | lox-vm/src/main.rs:5-10 | the text of those three lines |
| RootChunk.Chunk.constructor | src/chunk.rs:10-12 | a new chunk has an empty code buffer |
| RootChunk.Chunk.Write | src/chunk.rs:14-16 | appends the byte as the new last element, the length grows by one, earlier bytes unchanged and in order |

## Left out

- Non-ASCII input.
  - `is_at_end` compares a character index with the byte length of the source.
  - `add_token` and `string` slice by byte offsets.
  - These agree only on ASCII text, so `ScanTokens` and `ScanSource` require ASCII source.
- Integer widths. `usize` counters (`current`, `line`, offsets) are unbounded `nat`s; their overflow is not modelled.
- The two `todo!()` calls are panics in the source. Here they are a `Failure`/`Fail` outcome carrying the reason, and no token list is returned.
  - Identifiers, numbers and keywords are not scanned by the source either. Their first character takes this path.
- The `expect("Source token is empty.")` calls in `add_token` and `string` cannot fail on ASCII text with `start <= current <= |source|`. The model has no error path for them.
- `peek` and `advance` return one-character `String`s; here they return a `char`.
- The token module is not part of this model. `Token` and `TokenType` are defined from the scanner's uses, and token printing is left out.
- Printing. `disassemble` writes to standard output; here it returns `Listing` records, and `Render` gives the text of each.
- The two drivers (`lox-interpreter/src/main.rs` and `lox-vm/src/main.rs`) are I/O glue: argument handling, the REPL, file reading and exit codes. Only the disassembly example in `lox-vm/src/main.rs` is modelled, as `TestChunk`.
- `RootChunk.OpCode` (`OP_RETURN` in `src/chunk.rs`) is declared but never used by that chunk, so it has no operations.
- LoxScanner.ScanFrom and LoxScanner.Scan state in their own contracts only that a completed scan is non-empty. The full shape of the final `Eof` is stated by `EofTerminates` and `ScanEndsWithEof`, kept as lemmas so that proofs using the scan stay small.
- LoxScanner.LexToken and LoxScanner.LexString state only progress in their own contracts. Their full behaviour is stated in `LoxScannerFacts` (`LexTokenStep`, `LexTokenFails`, `StringStep` and the per-character lemmas).
