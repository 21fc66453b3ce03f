/** A thin driver over the scanner. The pull iterator that wraps the scanner
    is not part of this model; `Tokenize` is an assumed driver built only from
    `NextState`, `EmitEndOfStream` and `PopToken`: it runs transitions until
    one reports end of input, closes the stream, and drains the queue. */
module Stream {
  import opened Reader
  import opened Tokenizer

  /** All tokens of a scan of `input`, in the order they were queued. Comments
      never produce tokens, so every input yields the same two. */
  method Tokenize(input: seq<byte>) returns (out: seq<SpanToken>)
    ensures out == [SpanToken.StreamStart, SpanToken.StreamEnd]
  {
    var reader := new StrReader(input);
    var scanner := new Scanner();
    var c := scanner.NextState(reader);
    while c == Continue
      invariant reader.Valid()
      invariant scanner.state != State.StreamStart
      invariant scanner.tokens == [SpanToken.StreamStart]
      invariant !c.Err?
      decreases if c == Continue then 1 else 0
    {
      c := scanner.NextState(reader);
    }
    scanner.EmitEndOfStream();
    out := [];
    var t := scanner.PopToken();
    while t.Some?
      invariant t.None? ==> scanner.tokens == []
      invariant out + (if t.Some? then [t.value] else []) + scanner.tokens
                == [SpanToken.StreamStart, SpanToken.StreamEnd]
      decreases |scanner.tokens| + (if t.Some? then 1 else 0)
    {
      out := out + [t.value];
      t := scanner.PopToken();
    }
  }
}
