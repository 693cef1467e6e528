/**
 * The line-buffering adapter the in-process runner installs as sys.stdout and
 * sys.stderr: write() appends to a buffer and hands over every complete line
 * (newline included); flush() hands over what is left.
 */
module LineStream {
  import opened Wrappers
  import opened Text
  import opened Events

  /** A piece as write() hands it over: text whose only newline is its last character. */
  predicate IsLine(p: string)
  {
    p != [] && p[|p| - 1] == '\n' && '\n' !in p[..|p| - 1]
  }

  function Concat(ps: seq<string>): string
  {
    if ps == [] then "" else ps[0] + Concat(ps[1..])
  }

  lemma {:induction false} ConcatAppend(a: seq<string>, b: seq<string>)
    ensures Concat(a + b) == Concat(a) + Concat(b)
  {
    if a == [] {
      assert a + b == b;
    } else {
      assert (a + b)[1..] == a[1..] + b;
      ConcatAppend(a[1..], b);
    }
  }

  /** The complete lines of x, cut at each newline in turn. */
  function Pieces(x: string): seq<string>
    decreases |x|
  {
    match FirstIndexOf(x, '\n')
    case None => []
    case Some(k) => [x[..k + 1]] + Pieces(x[k + 1..])
  }

  /** What stays buffered: the text after the last newline of x. */
  function Rest(x: string): string
    decreases |x|
  {
    match FirstIndexOf(x, '\n')
    case None => x
    case Some(k) => Rest(x[k + 1..])
  }

  /** Every piece is a complete line: its one newline is its last character. */
  lemma {:induction false} PiecesAreLines(x: string)
    ensures forall k :: 0 <= k < |Pieces(x)| ==> IsLine(Pieces(x)[k])
    decreases |x|
  {
    match FirstIndexOf(x, '\n')
    case None =>
    case Some(k) =>
      assert x[..k + 1][..k] == x[..k];
      PiecesAreLines(x[k + 1..]);
  }

  /** What stays buffered holds no newline. */
  lemma {:induction false} RestHasNoNewline(x: string)
    ensures '\n' !in Rest(x)
    decreases |x|
  {
    match FirstIndexOf(x, '\n')
    case None =>
    case Some(k) => RestHasNoNewline(x[k + 1..]);
  }

  /** Nothing is lost or reordered: the lines followed by the remainder spell x. */
  lemma {:induction false} Conserves(x: string)
    ensures Concat(Pieces(x)) + Rest(x) == x
    decreases |x|
  {
    var r := FirstIndexOf(x, '\n');
    if r.Some? {
      var k := r.value;
      var head, tail := x[..k + 1], x[k + 1..];
      Unfold(x, k);
      ConcatCons(head, Pieces(tail));
      Conserves(tail);
      Assoc(head, Concat(Pieces(tail)), Rest(tail));
      SplitAt(x, k + 1);
    }
  }

  lemma ConcatCons(p: string, ps: seq<string>)
    ensures Concat([p] + ps) == p + Concat(ps)
  {
    assert ([p] + ps)[1..] == ps;
  }

  lemma SplitAt(x: string, n: nat)
    requires n <= |x|
    ensures x[..n] + x[n..] == x
  {
  }

  /** The first newline of p + t, when p is a line, is the last character of p. */
  lemma FirstNewline(p: string, t: string)
    requires IsLine(p)
    ensures FirstIndexOf(p + t, '\n') == Some(|p| - 1)
  {
    var x := p + t;
    var r := FirstIndexOf(x, '\n');
    assert x[|p| - 1] == '\n';
    assert x[..|p| - 1] == p[..|p| - 1];
  }

  /**
   * Pieces and Rest are the only split of x into complete lines and a
   * newline-free remainder.
   */
  lemma {:induction false} Unique(ps: seq<string>, r: string, x: string)
    requires forall k :: 0 <= k < |ps| ==> IsLine(ps[k])
    requires '\n' !in r
    requires Concat(ps) + r == x
    ensures ps == Pieces(x) && r == Rest(x)
    decreases |ps|
  {
    if ps == [] {
      assert FirstIndexOf(x, '\n').None?;
    } else {
      var p := ps[0];
      var t := Concat(ps[1..]) + r;
      assert x == p + t;
      FirstNewline(p, t);
      assert x[..|p|] == p && x[|p|..] == t;
      Unique(ps[1..], r, t);
      assert ps == [p] + ps[1..];
    }
  }

  lemma {:induction false} Unfold(x: string, k: nat)
    requires FirstIndexOf(x, '\n') == Some(k)
    ensures Pieces(x) == [x[..k + 1]] + Pieces(x[k + 1..])
    ensures Rest(x) == Rest(x[k + 1..])
  {
    UnfoldPieces(x, k);
    UnfoldRest(x, k);
  }

  lemma {:induction false} UnfoldPieces(x: string, k: nat)
    requires FirstIndexOf(x, '\n') == Some(k)
    ensures Pieces(x) == [x[..k + 1]] + Pieces(x[k + 1..])
  {
  }

  lemma {:induction false} UnfoldRest(x: string, k: nat)
    requires FirstIndexOf(x, '\n') == Some(k)
    ensures Rest(x) == Rest(x[k + 1..])
  {
  }

  lemma Regroup3(a: seq<string>, b: seq<string>, c: seq<string>)
    ensures a + (b + c) == (a + b) + c
  {
  }

  lemma Settled(x: string)
    requires '\n' !in x
    ensures Pieces(x) == [] && Rest(x) == x
  {
    assert FirstIndexOf(x, '\n').None?;
  }

  lemma CutLine(x: string, k: nat)
    requires k < |x| && x[k] == '\n'
    ensures x[..k] + "\n" == x[..k + 1]
  {
  }

  lemma AllLines(a: seq<string>, b: seq<string>)
    requires forall k :: 0 <= k < |a| ==> IsLine(a[k])
    requires forall k :: 0 <= k < |b| ==> IsLine(b[k])
    ensures forall k :: 0 <= k < |a + b| ==> IsLine((a + b)[k])
  {
    forall k | 0 <= k < |a + b|
      ensures IsLine((a + b)[k])
    {
      if k < |a| { assert (a + b)[k] == a[k]; } else { assert (a + b)[k] == b[k - |a|]; }
    }
  }

  lemma Regroup(p: string, q: string, v: string, u: string, y: string)
    requires q + v == u + y
    ensures (p + q) + v == (p + u) + y
  {
    assert (p + q) + v == p + (q + v);
    assert (p + u) + y == p + (u + y);
  }

  /** Two writes hand over the same lines, and keep the same remainder, as one write of both. */
  lemma Chunked(x: string, y: string)
    ensures Pieces(x) + Pieces(Rest(x) + y) == Pieces(x + y)
    ensures Rest(Rest(x) + y) == Rest(x + y)
  {
    var a, u := Pieces(x), Rest(x);
    var b, v := Pieces(u + y), Rest(u + y);
    Conserves(x);
    Conserves(u + y);
    ConcatAppend(a, b);
    Regroup(Concat(a), Concat(b), v, u, y);
    PiecesAreLines(x);
    PiecesAreLines(u + y);
    RestHasNoNewline(u + y);
    AllLines(a, b);
    Unique(a + b, v, x + y);
  }

  /** What flush() hands over for a buffer: the buffer itself, unless it is empty. */
  function Flushed(buf: string): seq<Event>
  {
    if buf == "" then [] else [Line(buf)]
  }

  /** The _Stream object: a text buffer and the callback it hands lines to. */
  class Stream {
    var buf: string
    const sink: Channel

    constructor (sink: Channel)
      ensures buf == "" && this.sink == sink
    {
      buf := "";
      this.sink := sink;
    }

    /** Appends s and hands over every complete line now in the buffer. */
    method Write(s: string)
      modifies this, sink
      ensures buf == Rest(old(buf) + s)
      ensures sink.events == old(sink.events) + Lines(Pieces(old(buf) + s))
    {
      buf := buf + s;
      ghost var x := buf;
      ghost var emitted: seq<string> := [];
      while '\n' in buf
        invariant Pieces(x) == emitted + Pieces(buf)
        invariant Rest(x) == Rest(buf)
        invariant sink.events == old(sink.events) + Lines(emitted)
        decreases |buf|
      {
        var k := FirstIndexOf(buf, '\n').value;
        var line := buf[..k];
        ghost var before := buf;
        Unfold(before, k);
        buf := buf[k + 1..];
        sink.Emit(line + "\n");
        CutLine(before, k);
        ghost var piece := line + "\n";
        assert Pieces(before) == [piece] + Pieces(buf);
        Regroup3(emitted, [piece], Pieces(buf));
        LinesAppend(emitted, [line + "\n"]);
        LinesOne(line + "\n");
        emitted := emitted + [line + "\n"];
      }
      Settled(buf);
    }

    /** Hands over a non-empty remainder once and empties the buffer. */
    method Flush()
      modifies this, sink
      ensures buf == ""
      ensures sink.events == old(sink.events) + Flushed(old(buf))
    {
      if buf != "" {
        sink.Emit(buf);
        buf := "";
      }
    }
  }
}
