/** The YAML scanner state machine: an enumerated state, a FIFO queue of
    tokens changed in place, and an end-of-input flag. One call of
    `NextState` makes one transition against a `StrReader`. */
module Tokenizer {
  import opened Reader

  /** The scanner's current grammar state; `StreamStart` is the default. */
  datatype State = StreamStart | DocStart | Post

  /** The error carried by `Control.Err`; its contents are not part of this model. */
  datatype YamlError = YamlError

  /** What one transition tells its driver. */
  datatype Control = Continue | Eof | Err(error: YamlError)

  /** The tokens the scanner can queue. `Scalar` is declared but never emitted. */
  datatype SpanToken = Scalar(start: nat, end: nat) | StreamStart | StreamEnd

  datatype Option<T> = None | Some(value: T)

  /** Where `try_read_comments` leaves a cursor at `p`: past the leading
      spaces and tabs and, when the next byte is `#`, through the end of that
      comment line (a comment in the sense of section 6.6 of YAML 1.2.2). */
  function SkipComments(s: seq<byte>, p: nat): (q: nat)
    requires p <= |s|
    ensures p <= q <= |s|
    // the blanks are always skipped; more is consumed exactly when a comment starts there
    ensures var b := SkipSpaceTabFrom(s, p);
      b <= q && (b < q <==> b < |s| && s[b] == HASH)
    // a consumed comment is consumed through the end of its line
    ensures var b := SkipSpaceTabFrom(s, p);
      b < q ==> q == |s| || (IsBreak(s[q - 1]) && !(s[q - 1] == CR && s[q] == LF))
    // at most one line is consumed
    ensures forall k :: p <= k < q && IsBreak(s[k]) ==>
              k == q - 1 || (k == q - 2 && s[k] == CR && s[k + 1] == LF)
  {
    var b := SkipSpaceTabFrom(s, p);
    assert forall k :: p <= k < b ==> !IsBreak(s[k]);
    if b < |s| && s[b] == HASH then ReadLineFrom(s, b) else b
  }

  /** The observable part of a scanner together with its cursor position. */
  datatype Config = Config(state: State, tokens: seq<SpanToken>, pos: nat)

  datatype Outcome = Outcome(control: Control, next: Config)

  /** One transition of the state machine over `input`. */
  function Step(c: Config, input: seq<byte>): (r: Outcome)
    requires c.pos <= |input|
    ensures !r.control.Err?
    ensures r.control == Continue <==> c.state == State.StreamStart
    ensures r.next.state != State.StreamStart
    ensures c.pos <= r.next.pos <= |input|
    // a transition appends at most one token, a StreamStart, and keeps the queued ones in order
    ensures r.next.tokens == c.tokens + (if r.control == Continue then [SpanToken.StreamStart] else [])
    // a transition that reports end of input changes nothing
    ensures r.control == Eof ==> r.next == c
    ensures r.control == Continue ==> r.next.state == State.DocStart && r.next.pos == SkipComments(input, c.pos)
  {
    match c.state
    case StreamStart =>
      Outcome(Continue, Config(State.DocStart, c.tokens + [SpanToken.StreamStart], SkipComments(input, c.pos)))
    case _ => Outcome(Eof, c)
  }

  /** `n` transitions in a row, as a driver that only calls `NextState` makes them. */
  function Run(c: Config, input: seq<byte>, n: nat): (r: Config)
    requires c.pos <= |input|
    ensures c.pos <= r.pos <= |input|
    ensures c.tokens <= r.tokens
    decreases n
  {
    if n == 0 then c else Run(Step(c, input).next, input, n - 1)
  }

  /** The number of `StreamStart` tokens in a queue. */
  function CountStreamStart(ts: seq<SpanToken>): nat
  {
    if ts == [] then 0
    else (if ts[0] == SpanToken.StreamStart then 1 else 0) + CountStreamStart(ts[1..])
  }

  lemma {:induction false} CountStreamStartAppend(a: seq<SpanToken>, b: seq<SpanToken>)
    ensures CountStreamStart(a + b) == CountStreamStart(a) + CountStreamStart(b)
  {
    if a != [] {
      assert (a + b)[1..] == a[1..] + b;
      CountStreamStartAppend(a[1..], b);
    } else {
      assert a + b == b;
    }
  }

  /** Once the scanner has left `StreamStart`, no transition changes anything. */
  lemma {:induction false} RunSettled(c: Config, input: seq<byte>, n: nat)
    requires c.pos <= |input|
    requires c.state != State.StreamStart
    ensures Run(c, input, n) == c
    decreases n
  {
    if n > 0 {
      RunSettled(c, input, n - 1);
    }
  }

  /** The second of two transitions in a row always reports end of input. */
  lemma SecondStepIsEof(c: Config, input: seq<byte>)
    requires c.pos <= |input|
    ensures Step(Step(c, input).next, input).control == Eof
  {
  }

  /** A scanner driven only by transitions queues at most one `StreamStart`
      beyond those already queued, and none once it has left `StreamStart`. */
  lemma {:induction false} AtMostOneStreamStart(c: Config, input: seq<byte>, n: nat)
    requires c.pos <= |input|
    ensures CountStreamStart(Run(c, input, n).tokens)
            <= CountStreamStart(c.tokens) + (if c.state == State.StreamStart then 1 else 0)
  {
    if n > 0 {
      var r := Step(c, input);
      RunSettled(r.next, input, n - 1);
      if r.control == Continue {
        CountStreamStartAppend(c.tokens, [SpanToken.StreamStart]);
        assert CountStreamStart([SpanToken.StreamStart]) == 1;
      }
    }
  }

  /** From the default scanner, any positive number of transitions queues
      exactly one `StreamStart`, lands in `DocStart` and has consumed only
      the leading blanks and comment line. */
  lemma FreshScannerRun(input: seq<byte>, n: nat)
    requires n >= 1
    ensures Run(Config(State.StreamStart, [], 0), input, n)
            == Config(State.DocStart, [SpanToken.StreamStart], SkipComments(input, 0))
  {
    var r := Step(Config(State.StreamStart, [], 0), input);
    RunSettled(r.next, input, n - 1);
  }

  /** The scanner object: `state`, the `tokens` queue (front first) and `eof`. */
  class Scanner {
    var state: State
    var tokens: seq<SpanToken>
    var eof: bool

    /** `Scanner::default()`: in `StreamStart`, nothing queued, not at end. */
    constructor ()
      ensures state == State.StreamStart && tokens == [] && !eof
    {
      state := State.StreamStart;
      tokens := [];
      eof := false;
    }

    /** `emit_end_of_stream`: queues one `StreamEnd` behind the queued tokens. */
    method EmitEndOfStream()
      modifies this`tokens
      ensures tokens == old(tokens) + [SpanToken.StreamEnd]
      ensures state == old(state) && eof == old(eof)
    {
      tokens := tokens + [SpanToken.StreamEnd];
    }

    /** `pop_token`: takes the front token, or `None` when nothing is queued. */
    method PopToken() returns (t: Option<SpanToken>)
      modifies this`tokens
      ensures old(tokens) == [] ==> t == None && tokens == []
      ensures old(tokens) != [] ==> t == Some(old(tokens)[0]) && tokens == old(tokens)[1..]
      ensures state == old(state) && eof == old(eof)
    {
      if tokens == [] {
        t := None;
      } else {
        t := Some(tokens[0]);
        tokens := tokens[1..];
      }
    }

    /** `next_state`: one transition, as `Step` describes it. */
    method NextState(reader: StrReader) returns (c: Control)
      requires reader.Valid()
      modifies this`state, this`tokens, reader`pos
      ensures reader.Valid()
      ensures Step(Config(old(state), old(tokens), old(reader.pos)), reader.input)
              == Outcome(c, Config(state, tokens, reader.pos))
      ensures eof == old(eof)
    {
      match state {
        case StreamStart => ReadStartStream(reader);
        case _ => return Eof;
      }
      c := Continue;
    }

    /** `read_start_stream`: skips blanks and a comment line, moves to
        `DocStart` and queues `StreamStart`. */
    method ReadStartStream(reader: StrReader)
      requires reader.Valid()
      modifies this`state, this`tokens, reader`pos
      ensures reader.Valid()
      ensures state == State.DocStart
      ensures tokens == old(tokens) + [SpanToken.StreamStart]
      ensures reader.pos == SkipComments(reader.input, old(reader.pos))
      ensures eof == old(eof)
    {
      TryReadComments(reader);
      state := State.DocStart;
      tokens := tokens + [SpanToken.StreamStart];
    }

    /** `try_read_comments`: moves only the cursor, never the scanner. */
    method TryReadComments(reader: StrReader)
      requires reader.Valid()
      modifies reader`pos
      ensures reader.Valid()
      ensures reader.pos == SkipComments(reader.input, old(reader.pos))
    {
      reader.SkipSpaceTab();
      var hash := reader.PeekByteIs(HASH);
      if hash {
        reader.ReadLine();
      }
    }
  }
}
