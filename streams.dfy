/** The output of the deployment script as the two reader goroutines see it.

    Each reader copies one pipe line by line, so each stream keeps its own
    order; which reader writes next is decided by the scheduler. A schedule is
    modelled as a sequence of choices (true: the stdout reader goes next),
    consulted only while both readers still have lines. Merge is the log order
    a schedule produces; the lemmas show that Merge keeps each stream intact
    and in order, and that every order-keeping interleaving is produced by
    some schedule. */
module Streams {
  import opened LogFormat

  datatype Stream = Stdout | Stderr

  /** The tag readAndLogOutput is given for each stream. */
  function Prefix(s: Stream): string {
    if s == Stdout then "STDOUT" else "STDERR"
  }

  datatype OutLine = OutLine(stream: Stream, text: string)

  function Tag(s: Stream, lines: seq<string>): (r: seq<OutLine>)
    ensures |r| == |lines|
    ensures forall i :: 0 <= i < |lines| ==> r[i] == OutLine(s, lines[i])
  {
    if lines == [] then [] else [OutLine(s, lines[0])] + Tag(s, lines[1..])
  }

  function Rest(schedule: seq<bool>): seq<bool> {
    if schedule == [] then [] else schedule[1..]
  }

  /** The order in which the two readers' lines reach the log under `schedule`;
      an exhausted schedule lets the stdout reader go first. */
  function Merge(schedule: seq<bool>, out: seq<string>, err: seq<string>): seq<OutLine>
    decreases |out| + |err|
  {
    if out == [] then Tag(Stderr, err)
    else if err == [] then Tag(Stdout, out)
    else if schedule == [] || schedule[0] then [OutLine(Stdout, out[0])] + Merge(Rest(schedule), out[1..], err)
    else [OutLine(Stderr, err[0])] + Merge(schedule[1..], out, err[1..])
  }

  /** The lines of one stream, in log order. */
  function Only(m: seq<OutLine>, s: Stream): seq<string> {
    if m == [] then []
    else if m[0].stream == s then [m[0].text] + Only(m[1..], s)
    else Only(m[1..], s)
  }

  lemma {:induction false} OnlyAppend(a: seq<OutLine>, b: seq<OutLine>, s: Stream)
    ensures Only(a + b, s) == Only(a, s) + Only(b, s)
    decreases a
  {
    if a == [] {
      assert a + b == b;
    } else {
      assert (a + b)[1..] == a[1..] + b;
      OnlyAppend(a[1..], b, s);
    }
  }

  lemma {:induction false} OnlyTag(s: Stream, t: Stream, lines: seq<string>)
    ensures Only(Tag(s, lines), t) == if s == t then lines else []
    decreases lines
  {
    if lines != [] {
      OnlyTag(s, t, lines[1..]);
      assert Tag(s, lines)[1..] == Tag(s, lines[1..]);
    }
  }

  lemma OnlyCons(x: OutLine, m: seq<OutLine>, s: Stream)
    ensures Only([x] + m, s) == (if x.stream == s then [x.text] else []) + Only(m, s)
  {
    assert ([x] + m)[1..] == m;
  }

  /** Nothing is dropped, nothing is duplicated, and each stream keeps its
      order: the stdout lines of the log are exactly the script's stdout, and
      likewise for stderr. */
  lemma {:induction false} MergeKeepsEachStream(schedule: seq<bool>, out: seq<string>, err: seq<string>)
    ensures Only(Merge(schedule, out, err), Stdout) == out
    ensures Only(Merge(schedule, out, err), Stderr) == err
    ensures |Merge(schedule, out, err)| == |out| + |err|
    decreases |out| + |err|
  {
    if out == [] {
      OnlyTag(Stderr, Stdout, err);
      OnlyTag(Stderr, Stderr, err);
    } else if err == [] {
      OnlyTag(Stdout, Stdout, out);
      OnlyTag(Stdout, Stderr, out);
    } else if schedule == [] || schedule[0] {
      var rest := Merge(Rest(schedule), out[1..], err);
      MergeKeepsEachStream(Rest(schedule), out[1..], err);
      OnlyCons(OutLine(Stdout, out[0]), rest, Stdout);
      OnlyCons(OutLine(Stdout, out[0]), rest, Stderr);
      assert out == [out[0]] + out[1..];
    } else {
      var rest := Merge(schedule[1..], out, err[1..]);
      MergeKeepsEachStream(schedule[1..], out, err[1..]);
      OnlyCons(OutLine(Stderr, err[0]), rest, Stdout);
      OnlyCons(OutLine(Stderr, err[0]), rest, Stderr);
      assert err == [err[0]] + err[1..];
    }
  }

  /** The schedule under which the readers produce the log order `m`. */
  function ScheduleOf(m: seq<OutLine>): (r: seq<bool>)
    ensures |r| == |m|
  {
    if m == [] then [] else [m[0].stream == Stdout] + ScheduleOf(m[1..])
  }

  /** A log with no lines of stream t holds only lines of the other stream. */
  lemma {:induction false} AllOneStream(m: seq<OutLine>, s: Stream, t: Stream)
    requires s != t && Only(m, t) == []
    ensures m == Tag(s, Only(m, s))
    decreases m
  {
    if m != [] {
      AllOneStream(m[1..], s, t);
      assert m[0].stream == s;
      assert Tag(s, Only(m, s))[1..] == Tag(s, Only(m[1..], s));
    }
  }

  /** Every interleaving of the two streams that keeps each stream's order is
      the log order of some schedule. */
  lemma {:induction false} MergeReachesEveryInterleaving(m: seq<OutLine>)
    ensures Merge(ScheduleOf(m), Only(m, Stdout), Only(m, Stderr)) == m
    decreases m
  {
    if m == [] {
    } else {
      var out, err := Only(m, Stdout), Only(m, Stderr);
      var rest := m[1..];
      MergeReachesEveryInterleaving(rest);
      if m[0].stream == Stdout {
        assert out == [m[0].text] + Only(rest, Stdout);
        assert err == Only(rest, Stderr);
        if err == [] {
          AllOneStream(m, Stdout, Stderr);
        } else {
          assert ScheduleOf(m)[0] && Rest(ScheduleOf(m)) == ScheduleOf(rest);
        }
      } else {
        assert err == [m[0].text] + Only(rest, Stderr);
        assert out == Only(rest, Stdout);
        if out == [] {
          AllOneStream(m, Stderr, Stdout);
        } else {
          assert !ScheduleOf(m)[0] && ScheduleOf(m)[1..] == ScheduleOf(rest);
        }
      }
    }
  }

  /** The log entries of the captured lines, in log order. */
  function StreamItems(m: seq<OutLine>): (r: seq<Item>)
    ensures |r| == |m|
    ensures forall i :: 0 <= i < |m| ==> r[i] == Plain(StreamMessage(Prefix(m[i].stream), m[i].text))
  {
    if m == [] then [] else [Plain(StreamMessage(Prefix(m[0].stream), m[0].text))] + StreamItems(m[1..])
  }
}
