# steel_yaml scanner, modelled in Dafny

This project models the start of the steel_yaml tokenizer: the YAML scanner
state machine of `src/tokenizer/scanner.rs`. A `Scanner` holds its current
`State` (`StreamStart`, `DocStart` or `Post`), a FIFO queue of `SpanToken`s
and an `eof` flag. `next_state` makes one transition against a byte reader.
From `StreamStart` it skips leading spaces and tabs and, when the next byte
is `#`, the rest of that comment line (section 6.6 of YAML 1.2.2). It then
queues `StreamStart`, moves to `DocStart` and answers `Continue`. Every other
state answers `Eof` at once and changes nothing. `emit_end_of_stream` queues
`StreamEnd` and `pop_token` takes the front of the queue.

Files:

- `reader.dfy` (module `Reader`): the byte cursor `StrReader`, an immutable
  input and a position that only moves forward. It has the three operations
  the scanner uses. `skip_space_tab` and `read_line` are specified by
  functions on the input (`SkipSpaceTabFrom`, `ReadLineFrom`); `peek_byte_is`
  is specified by its own contract.
- `scanner.dfy` (module `Tokenizer`): the token, state and control types; the
  class `Scanner` with its in-place methods; the transition as a function
  `Step` on a `Config` (state, queue, cursor position); and lemmas about runs
  of transitions.
- `stream.dfy` (module `Stream`): `Tokenize`, a driver made only of
  `NextState`, `EmitEndOfStream` and `PopToken`. It is an assumption (see
  "Left out"), not a model of the library's iterator.

Every method that changes state has an `ensures` giving its whole new
state. `NextState` ensures its control, new state, new queue and new cursor position are
exactly what `Step` gives for the old ones. The properties of the scanner
are proved about `Step` and `Run`.

## Model

| member | source | states |
|---|---|---|
| `Reader.SkipSpaceTabFrom` | src/tokenizer/scanner.rs:65 | the result is the first position at or after the start that is not a space or tab; every byte skipped is a space or tab; it never passes the end of input |
| `Reader.LineEndFrom` | src/tokenizer/scanner.rs:68 | the result is the first line break at or after the start, or the end of input; no byte before it is a line break |
| `Reader.ReadLineFrom` | src/tokenizer/scanner.rs:68 | reading a line moves forward, stops at end of input or just after a complete line break, and passes no line break but the one that ends the line |
| `Reader.StrReader.constructor` | src/tokenizer/scanner.rs:38 | a new reader sits at position 0 of its input |
| `Reader.StrReader.SkipSpaceTab` | src/tokenizer/scanner.rs:65 | `skip_space_tab` moves the position to `SkipSpaceTabFrom` of the old one |
| `Reader.StrReader.PeekByteIs` | src/tokenizer/scanner.rs:67 | `peek_byte_is(b)` is true exactly when a byte is left and it equals `b`; the reader is not changed |
| `Reader.StrReader.ReadLine` | src/tokenizer/scanner.rs:68 | `read_line` moves the position to `ReadLineFrom` of the old one |
| `Tokenizer.SkipComments` | src/tokenizer/scanner.rs:64-71 | the cursor never moves back; leading blanks are always skipped; it goes further exactly when the next byte is `#`, and then through the end of that line; at most one line is consumed |
| `Tokenizer.Step` | src/tokenizer/scanner.rs:50-62 | a transition never yields `Err`; it yields `Continue` exactly in `StreamStart`; the new state is never `StreamStart`; it appends at most one token, a `StreamStart`, behind the queued ones; an `Eof` transition changes nothing; a `Continue` transition lands in `DocStart` with the cursor past the blanks and the comment line |
| `Tokenizer.Run` | src/tokenizer/scanner.rs:50-56 | any number of transitions keeps the cursor inside the input, never moves it back, and keeps the already queued tokens as a prefix of the queue |
| `Tokenizer.RunSettled` | src/tokenizer/scanner.rs:51-53 | once the state is not `StreamStart`, any number of transitions leaves state, queue and cursor unchanged |
| `Tokenizer.SecondStepIsEof` | src/tokenizer/scanner.rs:50-60 | the second of two transitions in a row always answers `Eof` |
| `Tokenizer.AtMostOneStreamStart` | src/tokenizer/scanner.rs:50-62 | a scanner driven only by transitions adds at most one `StreamStart` to its queue, and none once it has left `StreamStart` |
| `Tokenizer.FreshScannerRun` | src/tokenizer/scanner.rs:21-62 | from the default scanner at position 0, one or more transitions give exactly the queue `[StreamStart]`, state `DocStart`, and the cursor past the leading blanks and comment line |
| `Tokenizer.Scanner.constructor` | src/tokenizer/scanner.rs:7-25 | the default scanner is in `StreamStart` with an empty queue and `eof` false |
| `Tokenizer.Scanner.EmitEndOfStream` | src/tokenizer/scanner.rs:42-44 | the queue becomes the old queue followed by one `StreamEnd`; state and `eof` are unchanged |
| `Tokenizer.Scanner.PopToken` | src/tokenizer/scanner.rs:46-48 | an empty queue gives `None` and stays empty; otherwise the front token is returned and removed, and the rest keep their order |
| `Tokenizer.Scanner.NextState` | src/tokenizer/scanner.rs:50-56 | the control it returns and the new state, queue and cursor position are those of `Step` on the old ones; `eof` is unchanged |
| `Tokenizer.Scanner.ReadStartStream` | src/tokenizer/scanner.rs:58-62 | the state becomes `DocStart`, one `StreamStart` is appended to the queue, and the cursor moves to `SkipComments` of its old position |
| `Tokenizer.Scanner.TryReadComments` | src/tokenizer/scanner.rs:64-71 | the scanner is not changed; the cursor moves forward to `SkipComments` of its old position |
| `Stream.Tokenize` | src/tokenizer/scanner.rs:35-40 | running transitions until `Eof`, closing the stream and draining the queue yields exactly `StreamStart, StreamEnd` for every input |

## Left out

- Stream.Tokenize: the iterator (`StrIterator` and its `next`) is not part of this model. `Tokenize` assumes a driver that runs transitions until `Eof`, then calls `emit_end_of_stream` once, then pops the queue dry. It does not model how the iterator interleaves pops with transitions, or how it sets `eof`.
- The `eof` field is never written by the scanner code. The model keeps it, and every method leaves it unchanged.
- Reader.ReadLineFrom: the reader's code is not part of this model; `read_line` is assumed to consume the rest of the line and one line break (`CR LF`, `CR` or `LF`, section 5.4 of YAML 1.2.2). Only the cursor position after a comment line depends on this.
- The rest of the reader is not modelled: its other operations, UTF-8 handling, and the value `read_line` returns (the scanner ignores it). The input is a sequence of bytes.
- `Control::Err` carries a `YamlError`, whose contents are not part of this model. Here it is a single opaque value. No transition produces it.
- `SpanToken::Scalar` holds two `usize` offsets. The model uses unbounded naturals, since no scalar is ever emitted.
- `Clone`/`Copy` derives, `Debug` rendering of tokens and the `from_str_reader` iterator type are not modelled.
- Directive, error-token and plain-scalar scanning appear in the crate's tests but not in `scanner.rs`. The `DocStart` and `Post` states have no transitions there either, so none is invented here. A consequence: `SpanToken` has no directive or error variant, and under the assumed driver `Stream.Tokenize` yields only `StreamStart, StreamEnd` for every input, so the crate's two tests (which expect `#YAML 1.3`, `ERR` and `+VAL null` lines) cannot pass against `scanner.rs` as written.
