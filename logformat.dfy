/** The two line formats of the deployment log and the rendering of a run of
    log entries against the clock.

    writeLogEntry writes "[<ts>] <message>\n"; readAndLogOutput writes
    "[<ts>] [<stream>] <line>\n". A file's contents are kept as its lines, so
    the trailing newline is the separation between elements. */
module LogFormat {
  import opened Os

  /** The line writeLogEntry writes. */
  function Entry(ts: string, msg: string): string {
    "[" + ts + "] " + msg
  }

  /** The message part of a stream line. */
  function StreamMessage(prefix: string, text: string): string {
    "[" + prefix + "] " + text
  }

  /** The line readAndLogOutput writes is an ordinary entry whose message is
      the bracketed stream name and the captured line. */
  function StreamLine(ts: string, prefix: string, text: string): (r: string)
    ensures r == "[" + ts + "] [" + prefix + "] " + text
  {
    Entry(ts, StreamMessage(prefix, text))
  }

  /** Index of the first ']' at or after `from`, or |s| if there is none. */
  function FindClose(s: string, from: nat): (k: nat)
    requires from <= |s|
    ensures from <= k <= |s|
    ensures k < |s| ==> s[k] == ']'
    ensures forall j :: from <= j < k ==> s[j] != ']'
    decreases |s| - from
  {
    if from == |s| || s[from] == ']' then from else FindClose(s, from + 1)
  }

  /** Reads a log line back as its timestamp and its message. */
  function SplitEntry(line: string): Option<(string, string)> {
    if |line| == 0 || line[0] != '[' then None
    else
      var k := FindClose(line, 1);
      if k + 1 < |line| && line[k + 1] == ' ' then Some((line[1..k], line[k + 2..])) else None
  }

  /** An entry can be read back, provided its timestamp has no ']' (neither
      time layout of the program produces one). */
  lemma SplitEntryOfEntry(ts: string, msg: string)
    requires ']' !in ts
    ensures SplitEntry(Entry(ts, msg)) == Some((ts, msg))
  {
    var line := Entry(ts, msg);
    var n := 1 + |ts|;
    assert line[n] == ']' && line[n + 1] == ' ';
    assert forall j :: 1 <= j < n ==> line[j] == ts[j - 1];
    var k := FindClose(line, 1);
    assert k == n;
    assert line[1..k] == ts;
    assert line[k + 2..] == msg;
  }

  /** One log entry to be written. A Plain entry takes one clock reading (its
      timestamp). A Timed entry's message embeds a clock reading of its own,
      taken first: before + <time> + after. */
  datatype Item = Plain(msg: string) | Timed(before: string, after: string)

  function Cost(it: Item): nat {
    if it.Plain? then 1 else 2
  }

  /** Number of clock readings a run of entries takes. */
  function Ticks(items: seq<Item>): nat {
    if items == [] then 0 else Cost(items[0]) + Ticks(items[1..])
  }

  function Stamp(clock: nat -> nat, layout: nat -> string, k: nat): string {
    layout(clock(k))
  }

  /** The line an entry becomes when the clock readings start at index k. */
  function Line(clock: nat -> nat, layout: nat -> string, k: nat, it: Item): string {
    match it
    case Plain(m) => Entry(Stamp(clock, layout, k), m)
    case Timed(b, a) => Entry(Stamp(clock, layout, k + 1), b + Stamp(clock, layout, k) + a)
  }

  /** The lines a run of entries becomes, written one after the other with the
      clock readings starting at index k. */
  function Render(clock: nat -> nat, layout: nat -> string, k: nat, items: seq<Item>): (r: seq<string>)
    ensures |r| == |items|
    decreases items
  {
    if items == [] then []
    else [Line(clock, layout, k, items[0])] + Render(clock, layout, k + Cost(items[0]), items[1..])
  }

  lemma {:induction false} TicksAppend(a: seq<Item>, b: seq<Item>)
    ensures Ticks(a + b) == Ticks(a) + Ticks(b)
    decreases a
  {
    if a == [] {
      assert a + b == b;
    } else {
      assert (a + b)[1..] == a[1..] + b;
      TicksAppend(a[1..], b);
    }
  }

  /** Writing two runs one after the other gives the lines of both, the second
      stamped from where the first left the clock. */
  lemma {:induction false} RenderAppend(clock: nat -> nat, layout: nat -> string, k: nat, a: seq<Item>, b: seq<Item>)
    ensures Render(clock, layout, k, a + b) == Render(clock, layout, k, a) + Render(clock, layout, k + Ticks(a), b)
    decreases a
  {
    if a == [] {
      assert a + b == b;
    } else {
      var k' := k + Cost(a[0]);
      var x := Line(clock, layout, k, a[0]);
      assert (a + b)[1..] == a[1..] + b;
      assert Render(clock, layout, k, a + b) == [x] + Render(clock, layout, k', a[1..] + b);
      RenderAppend(clock, layout, k', a[1..], b);
      ConsAssoc(x, Render(clock, layout, k', a[1..]), Render(clock, layout, k + Ticks(a), b));
    }
  }

  lemma ConsAssoc<T>(x: T, p: seq<T>, q: seq<T>)
    ensures [x] + (p + q) == ([x] + p) + q
  {
  }

  /** The i-th line written is the i-th entry stamped with the clock readings
      that precede it. */
  lemma {:induction false} RenderAt(clock: nat -> nat, layout: nat -> string, k: nat, items: seq<Item>, i: nat)
    requires i < |items|
    ensures Render(clock, layout, k, items)[i] == Line(clock, layout, k + Ticks(items[..i]), items[i])
    decreases i
  {
    if i > 0 {
      RenderAt(clock, layout, k + Cost(items[0]), items[1..], i - 1);
      assert items[1..][..i - 1] == items[1..i];
      assert items[..i] == [items[0]] + items[1..i];
      assert Ticks(items[..i]) == Cost(items[0]) + Ticks(items[1..i]) by {
        assert items[..i][1..] == items[1..i];
      }
    }
  }
}
