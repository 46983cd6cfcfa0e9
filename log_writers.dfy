/** The two `io.Writer`s of the host's logging: `StringWriter`, the buffer hclog renders one line
    into, and `StderrToLogWriter`, which forwards the plugin's stderr to the sink. */
module LogWriters {
  import opened GoTypes
  import opened Text
  import opened LogRouting
  import Zerolog

  /** Everything in `chunks`, in order. */
  function Concat(chunks: seq<string>): (r: string)
    ensures chunks == [] ==> r == []
  {
    if chunks == [] then [] else Concat(chunks[..|chunks| - 1]) + chunks[|chunks| - 1]
  }

  /** Writing one batch of pieces and then another leaves the first batch's text followed by
      the second's. */
  lemma {:induction false} ConcatAppend(a: seq<string>, b: seq<string>)
    ensures Concat(a + b) == Concat(a) + Concat(b)
    decreases |b|
  {
    if b == [] {
      assert a + b == a;
    } else {
      var init := b[..|b| - 1];
      assert (a + b)[..|a + b| - 1] == a + init;
      ConcatAppend(a, init);
    }
  }

  /** A `strings.Builder` behind the Writer methods. `chunks` records every piece written. */
  class StringWriter {
    var builder: string
    ghost var chunks: seq<string>

    ghost predicate Valid()
      reads this
    {
      builder == Concat(chunks)
    }

    constructor ()
      ensures Valid() && chunks == []
    {
      builder := [];
      chunks := [];
    }

    method Write(p: string) returns (n: int, err: Option<Error>)
      requires Valid()
      modifies this
      ensures Valid() && chunks == old(chunks) + [p]
      ensures builder == old(builder) + p
      ensures n == |p| && err == None
    {
      builder := builder + p;
      chunks := chunks + [p];
      n, err := |p|, None;
    }

    method WriteString(s: string) returns (n: int, err: Option<Error>)
      requires Valid()
      modifies this
      ensures Valid() && chunks == old(chunks) + [s]
      ensures builder == old(builder) + s
      ensures n == |s| && err == None
    {
      builder := builder + s;
      chunks := chunks + [s];
      n, err := |s|, None;
    }

    method WriteByte(b: char) returns (err: Option<Error>)
      requires Valid()
      modifies this
      ensures Valid() && chunks == old(chunks) + [[b]]
      ensures builder == old(builder) + [b]
      ensures err == None
    {
      builder := builder + [b];
      chunks := chunks + [[b]];
      err := None;
    }

    /** The in-order concatenation of everything written so far. */
    function String(): (r: string)
      requires Valid()
      reads this
      ensures r == Concat(chunks)
    {
      builder
    }
  }

  /** The plugin's stderr, forwarded to the sink. */
  class StderrToLogWriter {
    const lg: EventSink

    constructor (lg: EventSink)
      ensures this.lg == lg
    {
      this.lg := lg;
    }

    /** Every write becomes one debug event holding the trimmed text, and reports success. */
    method Write(p: string) returns (n: int, err: Option<Error>)
      modifies lg
      ensures lg.events == old(lg.events) + [Event(Zerolog.DebugLevel, TrimSpace(p))]
      ensures n == |p| && err == None
    {
      var msg := TrimSpace(p);
      lg.Msg(Zerolog.DebugLevel, msg);
      return |p|, None;
    }
  }
}
