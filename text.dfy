/**
 * The string primitives the core leans on: Python's int() and str() on
 * ASCII digits, str.strip(), " ".join, `x in s` for strings, and
 * shlex.quote, whose unsafe-character search is compiled with re.ASCII
 * and can therefore be written out exactly.
 */
module Text {
  import opened Wrappers

  predicate IsDigit(c: char) { '0' <= c <= '9' }

  predicate AllDigits(s: string) { forall k :: 0 <= k < |s| ==> IsDigit(s[k]) }

  /** Whitespace below U+0080 as Python's str.isspace and the regex class \s see it. */
  predicate IsSpace(c: char) { c == ' ' || 9 <= c as int <= 13 || 28 <= c as int <= 31 }

  function DigitValue(c: char): nat
    requires IsDigit(c)
  {
    c as int - '0' as int
  }

  function DigitChar(d: nat): (c: char)
    requires d < 10
    ensures IsDigit(c) && DigitValue(c) == d
  {
    ('0' as int + d) as char
  }

  /** int() of a string of ASCII digits (any width, leading zeros allowed). */
  function DigitsValue(s: string): nat
    requires AllDigits(s)
  {
    if s == [] then 0 else DigitsValue(s[..|s| - 1]) * 10 + DigitValue(s[|s| - 1])
  }

  /** str() of a natural number: canonical decimal digits that read back as the number. */
  function NatToString(n: nat): (s: string)
    ensures s != [] && AllDigits(s)
    ensures s[0] == '0' ==> s == "0"
    ensures DigitsValue(s) == n
  {
    if n < 10 then [DigitChar(n)]
    else
      var front := NatToString(n / 10);
      var s := front + [DigitChar(n % 10)];
      assert s[..|s| - 1] == front;
      s
  }

  /** str() of an integer, with a leading '-' for negative values. */
  function IntToString(i: int): (s: string)
    ensures s != []
    ensures i < 0 <==> s[0] == '-'
    ensures var d := if i < 0 then s[1..] else s;
            d != [] && AllDigits(d) && DigitsValue(d) == (if i < 0 then -i else i) && (d[0] == '0' ==> d == "0")
  {
    if i < 0 then
      var d := NatToString(-i);
      assert ("-" + d)[1..] == d;
      "-" + d
    else NatToString(i)
  }

  /** What str.lstrip() leaves: a suffix of s whose removed head is all whitespace. */
  function TrimStart(s: string): (r: string)
    ensures |r| <= |s| && r == s[|s| - |r|..]
    ensures forall k :: 0 <= k < |s| - |r| ==> IsSpace(s[k])
    ensures r == [] || !IsSpace(r[0])
  {
    if s != [] && IsSpace(s[0]) then
      var r := TrimStart(s[1..]);
      assert s[1..][|s| - 1 - |r|..] == s[|s| - |r|..];
      assert forall k :: 1 <= k < |s| - |r| ==> s[k] == s[1..][k - 1];
      r
    else s
  }

  /** What str.rstrip() leaves: a prefix of s whose removed tail is all whitespace. */
  function TrimEnd(s: string): (r: string)
    ensures |r| <= |s| && r == s[..|r|]
    ensures forall k :: |r| <= k < |s| ==> IsSpace(s[k])
    ensures r == [] || !IsSpace(r[|r| - 1])
  {
    if s != [] && IsSpace(s[|s| - 1]) then TrimEnd(s[..|s| - 1]) else s
  }

  /** str.strip(). */
  function Strip(s: string): (r: string)
    ensures |r| <= |s|
    ensures exists i :: PaddedAt(s, r, i)
    ensures r == [] || (!IsSpace(r[0]) && !IsSpace(r[|r| - 1]))
  {
    var t := TrimStart(s);
    var r := TrimEnd(t);
    Padded(s, t, r);
    r
  }

  /**
   * A prefix r of a suffix t of s, with only whitespace before t and after
   * r in t, sits padded in s; when t and r have no whitespace at their ends
   * neither has r.
   */
  lemma Padded(s: string, t: string, r: string)
    requires |t| <= |s| && t == s[|s| - |t|..] && |r| <= |t| && r == t[..|r|]
    requires forall k :: 0 <= k < |s| - |t| ==> IsSpace(s[k])
    requires forall k :: |r| <= k < |t| ==> IsSpace(t[k])
    requires t == [] || !IsSpace(t[0])
    requires r == [] || !IsSpace(r[|r| - 1])
    ensures PaddedAt(s, r, |s| - |t|)
    ensures r == [] || (!IsSpace(r[0]) && !IsSpace(r[|r| - 1]))
  {
    var i := |s| - |t|;
    assert s[i..i + |r|] == r;
    forall k | i + |r| <= k < |s|
      ensures IsSpace(s[k])
    {
      assert s[k] == t[k - i];
    }
  }

  /** r sits in s at offset i with nothing but whitespace before and after it. */
  predicate PaddedAt(s: string, r: string, i: int)
  {
    0 <= i <= |s| - |r| && s[i..i + |r|] == r &&
    (forall k :: 0 <= k < i ==> IsSpace(s[k])) &&
    (forall k :: i + |r| <= k < |s| ==> IsSpace(s[k]))
  }

  /** sep.join(parts). */
  function Join(parts: seq<string>, sep: string): string
  {
    if parts == [] then ""
    else if |parts| == 1 then parts[0]
    else parts[0] + sep + Join(parts[1..], sep)
  }

  /** shlex.quote applied to each argument. */
  function QuoteAll(args: seq<string>): (r: seq<string>)
    ensures |r| == |args| && forall k :: 0 <= k < |r| ==> r[k] == Quote(args[k])
  {
    seq(|args|, k requires 0 <= k < |args| => Quote(args[k]))
  }

  /** The first index of c in s, as str.find / str.split(c, 1) locate it. */
  function FirstIndexOf(s: string, c: char): (r: Option<nat>)
    ensures r.None? <==> c !in s
    ensures r.Some? ==> r.value < |s| && s[r.value] == c && c !in s[..r.value]
  {
    if s == [] then None
    else if s[0] == c then Some(0)
    else
      var r := FirstIndexOf(s[1..], c);
      if r.None? then None
      else
        assert s[..r.value + 1] == [s[0]] + s[1..][..r.value];
        Some(r.value + 1)
  }

  /** Python's `needle in haystack` on strings. */
  predicate Contains(haystack: string, needle: string)
    decreases |haystack|
  {
    needle <= haystack || (haystack != [] && Contains(haystack[1..], needle))
  }

  /** needle occurs in haystack at offset k. */
  predicate OccursAt(haystack: string, needle: string, k: int)
  {
    0 <= k <= |haystack| - |needle| && haystack[k..k + |needle|] == needle
  }

  /** `needle in haystack` holds exactly when needle occurs at some offset. */
  lemma {:induction false} ContainsAt(haystack: string, needle: string)
    ensures Contains(haystack, needle) <==> exists k :: OccursAt(haystack, needle, k)
    decreases |haystack|
  {
    if needle <= haystack {
      assert OccursAt(haystack, needle, 0);
    } else if haystack == [] {
    } else {
      ContainsAt(haystack[1..], needle);
      if exists k :: OccursAt(haystack, needle, k) {
        var k :| OccursAt(haystack, needle, k);
        if k == 0 {
          assert false;
        }
        assert OccursAt(haystack[1..], needle, k - 1);
      }
      if Contains(haystack[1..], needle) {
        var k :| OccursAt(haystack[1..], needle, k);
        assert OccursAt(haystack, needle, k + 1);
      }
    }
  }

  // ---------------------------------------------------------------- shlex.quote

  /** Characters shlex.quote leaves bare: ASCII word characters and @%+=:,./- */
  predicate IsShellSafe(c: char)
  {
    ('a' <= c <= 'z') || ('A' <= c <= 'Z') || IsDigit(c) || c == '_' || c in "@%+=:,./-"
  }

  /** s.replace("'", "'\"'\"'"). */
  function EscapeQuotes(s: string): string
  {
    if s == [] then [] else (if s[0] == '\'' then "'\"'\"'" else [s[0]]) + EscapeQuotes(s[1..])
  }

  /** shlex.quote(s). */
  function Quote(s: string): (r: string)
    ensures r != []
  {
    if s == [] then "''"
    else if forall k :: 0 <= k < |s| ==> IsShellSafe(s[k]) then s
    else "'" + EscapeQuotes(s) + "'"
  }

  datatype QuoteState = Bare | InSingle | InDouble

  function Prepend(p: string, r: Option<string>): Option<string>
  {
    if r.None? then None else Some(p + r.value)
  }

  /**
   * How a POSIX shell reads one word built from bare characters, '...' runs
   * and "..." runs, for words without backslashes, `$` or backquotes (the
   * only kind shlex.quote produces). None: a quote is left open.
   */
  function ShellWord(w: string, st: QuoteState): Option<string>
    decreases |w|
  {
    if w == [] then (if st == Bare then Some([]) else None)
    else
      var c := w[0];
      match st
      case Bare =>
        if c == '\'' then ShellWord(w[1..], InSingle)
        else if c == '"' then ShellWord(w[1..], InDouble)
        else Prepend([c], ShellWord(w[1..], Bare))
      case InSingle =>
        if c == '\'' then ShellWord(w[1..], Bare) else Prepend([c], ShellWord(w[1..], InSingle))
      case InDouble =>
        if c == '"' then ShellWord(w[1..], Bare) else Prepend([c], ShellWord(w[1..], InDouble))
  }

  lemma PrependPrepend(p: string, q: string, r: Option<string>)
    ensures Prepend(p, Prepend(q, r)) == Prepend(p + q, r)
  {
    if r.Some? { assert p + (q + r.value) == (p + q) + r.value; }
  }

  lemma Assoc(a: string, b: string, c: string)
    ensures (a + b) + c == a + (b + c)
  {
  }

  lemma Cons(c: char, w: string)
    ensures ([c] + w)[0] == c && ([c] + w)[1..] == w
  {
  }

  /** Inside single quotes, the five characters '"'"' read back as one quote. */
  lemma ShellWordQuoteEscape(rest: string)
    ensures ShellWord("'\"'\"'" + rest, InSingle) == Prepend("'", ShellWord(rest, InSingle))
  {
    var r1 := ['\''] + rest;
    var r2 := ['"'] + r1;
    var r3 := ['\''] + r2;
    var r4 := ['"'] + r3;
    assert "'\"'\"'" + rest == ['\''] + r4;
    Cons('\'', r4);
    Cons('"', r3);
    Cons('\'', r2);
    Cons('"', r1);
    Cons('\'', rest);
    assert ShellWord(['\''] + r4, InSingle) == ShellWord(r4, Bare);
    assert ShellWord(r4, Bare) == ShellWord(r3, InDouble);
    assert ShellWord(r3, InDouble) == Prepend("'", ShellWord(r2, InDouble));
    assert ShellWord(r2, InDouble) == ShellWord(r1, Bare);
    assert ShellWord(r1, Bare) == ShellWord(rest, InSingle);
  }

  /** One escaping step for a leading quote, given the claim for the rest of s. */
  lemma EscapedQuote(s: string, tail: string)
    requires s != [] && s[0] == '\''
    requires ShellWord(EscapeQuotes(s[1..]) + tail, InSingle) == Prepend(s[1..], ShellWord(tail, InSingle))
    ensures ShellWord(EscapeQuotes(s) + tail, InSingle) == Prepend(s, ShellWord(tail, InSingle))
  {
    var e := EscapeQuotes(s[1..]);
    var rest := e + tail;
    assert EscapeQuotes(s) == "'\"'\"'" + e;
    Assoc("'\"'\"'", e, tail);
    ShellWordQuoteEscape(rest);
    PrependPrepend("'", s[1..], ShellWord(tail, InSingle));
    assert "'" + s[1..] == s;
  }

  /** Escaping leaves a leading character other than a quote as it is. */
  lemma EscapePlainHead(s: string)
    requires s != [] && s[0] != '\''
    ensures EscapeQuotes(s) == [s[0]] + EscapeQuotes(s[1..])
  {
  }

  /** Inside single quotes, a character other than a quote is read as itself. */
  lemma SingleQuotedPlain(c: char, rest: string)
    requires c != '\''
    ensures ShellWord([c] + rest, InSingle) == Prepend([c], ShellWord(rest, InSingle))
  {
    Cons(c, rest);
  }

  lemma HeadTail(s: string)
    requires s != []
    ensures [s[0]] + s[1..] == s
  {
  }

  /** One escaping step for a leading character other than a quote. */
  lemma EscapedPlain(s: string, tail: string)
    requires s != [] && s[0] != '\''
    requires ShellWord(EscapeQuotes(s[1..]) + tail, InSingle) == Prepend(s[1..], ShellWord(tail, InSingle))
    ensures ShellWord(EscapeQuotes(s) + tail, InSingle) == Prepend(s, ShellWord(tail, InSingle))
  {
    var e := EscapeQuotes(s[1..]);
    EscapePlainHead(s);
    Assoc([s[0]], e, tail);
    SingleQuotedPlain(s[0], e + tail);
    PrependPrepend([s[0]], s[1..], ShellWord(tail, InSingle));
    HeadTail(s);
  }

  /** Inside single quotes, the escaped text reads back as the original. */
  lemma {:induction false} ShellWordEscaped(s: string, tail: string)
    ensures ShellWord(EscapeQuotes(s) + tail, InSingle) == Prepend(s, ShellWord(tail, InSingle))
  {
    if s == [] {
      assert EscapeQuotes(s) + tail == tail;
      var r := ShellWord(tail, InSingle);
      if r.Some? { assert s + r.value == r.value; }
    } else {
      ShellWordEscaped(s[1..], tail);
      if s[0] == '\'' {
        EscapedQuote(s, tail);
      } else {
        EscapedPlain(s, tail);
      }
    }
  }

  lemma {:induction false} ShellWordBare(s: string)
    requires forall k :: 0 <= k < |s| ==> IsShellSafe(s[k])
    ensures ShellWord(s, Bare) == Some(s)
  {
    if s != [] {
      assert IsShellSafe(s[0]);
      ShellWordBare(s[1..]);
      assert [s[0]] + s[1..] == s;
    }
  }

  /** A shell reading the quoted word gets the original argument back. */
  lemma {:induction false} QuoteRoundTrip(s: string)
    ensures ShellWord(Quote(s), Bare) == Some(s)
  {
    if s == [] {
      assert "''"[1..] == "'" && "'"[1..] == [];
      assert ShellWord("'", InSingle) == ShellWord([], Bare);
    } else if forall k :: 0 <= k < |s| ==> IsShellSafe(s[k]) {
      ShellWordBare(s);
    } else {
      QuotedReadBack(s);
    }
  }

  /** A word in single quotes, its quotes escaped, reads back as itself. */
  lemma QuotedReadBack(s: string)
    ensures ShellWord("'" + EscapeQuotes(s) + "'", Bare) == Some(s)
  {
    var q := "'" + EscapeQuotes(s) + "'";
    assert q[0] == '\'' && q[1..] == EscapeQuotes(s) + "'";
    ShellWordEscaped(s, "'");
    assert ShellWord("'", InSingle) == ShellWord([], Bare);
    assert s + [] == s;
  }


  // ------------------------------------------------------ reading the echo back

  /** The quote state after reading c in state st. */
  function NextState(st: QuoteState, c: char): QuoteState
  {
    match st
    case Bare => if c == '\'' then InSingle else if c == '"' then InDouble else Bare
    case InSingle => if c == '\'' then Bare else InSingle
    case InDouble => if c == '"' then Bare else InDouble
  }

  /** The raw text of each word of a line: the line cut at every blank read outside quotes. */
  function Split(w: string, st: QuoteState): (r: seq<string>)
    ensures r != []
    decreases |w|
  {
    if w == [] then [""]
    else if st == Bare && w[0] == ' ' then [""] + Split(w[1..], Bare)
    else
      var rest := Split(w[1..], NextState(st, w[0]));
      [[w[0]] + rest[0]] + rest[1..]
  }

  /** The state after reading p from st, or None when p holds a blank outside quotes. */
  function Glued(p: string, st: QuoteState): Option<QuoteState>
    decreases |p|
  {
    if p == [] then Some(st)
    else if st == Bare && p[0] == ' ' then None
    else Glued(p[1..], NextState(st, p[0]))
  }

  /** Each raw word read as ShellWord reads it; None when one of them leaves a quote open. */
  function Words(pieces: seq<string>): Option<seq<string>>
  {
    if pieces == [] then Some([])
    else
      match ShellWord(pieces[0], Bare)
      case None => None
      case Some(w) =>
        match Words(pieces[1..])
        case None => None
        case Some(ws) => Some([w] + ws)
  }

  /**
   * The arguments a POSIX shell reads from a line whose words are separated
   * by single blanks (the form " ".join gives); a blank line has none.
   */
  function ShellLine(line: string): Option<seq<string>>
  {
    if line == "" then Some([]) else Words(Split(line, Bare))
  }

  /** A word that keeps no blank outside quotes stays one piece, glued to the first piece after it. */
  lemma {:induction false} SplitGlued(p: string, st: QuoteState, tail: string)
    requires Glued(p, st).Some?
    ensures var rest := Split(tail, Glued(p, st).value);
            Split(p + tail, st) == [p + rest[0]] + rest[1..]
    decreases |p|
  {
    var rest := Split(tail, Glued(p, st).value);
    if p == [] {
      assert p + tail == tail;
      assert p + rest[0] == rest[0];
      assert rest == [rest[0]] + rest[1..];
    } else {
      var next := NextState(st, p[0]);
      assert Glued(p, st) == Glued(p[1..], next);
      SplitGlued(p[1..], next, tail);
      var inner := Split(p[1..] + tail, next);
      assert inner == [p[1..] + rest[0]] + rest[1..];
      assert (p + tail)[0] == p[0] && (p + tail)[1..] == p[1..] + tail;
      assert Split(p + tail, st) == [[p[0]] + inner[0]] + inner[1..];
      assert inner[0] == p[1..] + rest[0] && inner[1..] == rest[1..];
      assert [p[0]] + (p[1..] + rest[0]) == p + rest[0];
    }
  }

  lemma {:induction false} GluedAppend(p: string, q: string, st: QuoteState)
    requires Glued(p, st).Some?
    ensures Glued(p + q, st) == Glued(q, Glued(p, st).value)
    decreases |p|
  {
    if p == [] {
      assert p + q == q;
    } else {
      assert (p + q)[0] == p[0] && (p + q)[1..] == p[1..] + q;
      GluedAppend(p[1..], q, NextState(st, p[0]));
    }
  }

  /** Inside single quotes, the escaped text keeps every blank quoted and ends inside the quotes. */
  lemma {:induction false} EscapedGlued(s: string)
    ensures Glued(EscapeQuotes(s), InSingle) == Some(InSingle)
  {
    if s != [] {
      EscapedGlued(s[1..]);
      var head := if s[0] == '\'' then "'\"'\"'" else [s[0]];
      assert EscapeQuotes(s) == head + EscapeQuotes(s[1..]);
      if s[0] == '\'' {
        EscapedQuoteGlued();
      } else {
        assert head[1..] == [];
      }
      GluedAppend(head, EscapeQuotes(s[1..]), InSingle);
    }
  }

  /** The '"'"' that stands for one quote inside single quotes ends back inside them. */
  lemma EscapedQuoteGlued()
    ensures Glued("'\"'\"'", InSingle) == Some(InSingle)
  {
    var h := "'\"'\"'";
    assert h[1..] == "\"'\"'" && h[1..][1..] == "'\"'";
    assert h[1..][1..][1..] == "\"'" && h[1..][1..][1..][1..] == "'";
    assert Glued("'", Bare) == Some(InSingle);
    assert Glued("\"'", InDouble) == Some(InSingle);
    assert Glued("'\"'", InDouble) == Some(InSingle);
    assert Glued("\"'\"'", Bare) == Some(InSingle);
  }

  lemma {:induction false} SafeGlued(s: string)
    requires forall k :: 0 <= k < |s| ==> IsShellSafe(s[k])
    ensures Glued(s, Bare) == Some(Bare)
  {
    if s != [] {
      assert IsShellSafe(s[0]);
      assert forall k :: 0 <= k < |s[1..]| ==> IsShellSafe(s[1..][k]) by {
        forall k | 0 <= k < |s[1..]|
          ensures IsShellSafe(s[1..][k])
        {
          assert s[1..][k] == s[k + 1];
        }
      }
      SafeGlued(s[1..]);
    }
  }

  /** A quoted word holds no blank outside quotes and leaves the reader outside quotes. */
  lemma QuoteGlued(s: string)
    ensures Glued(Quote(s), Bare) == Some(Bare)
  {
    if s == [] {
    } else if forall k :: 0 <= k < |s| ==> IsShellSafe(s[k]) {
      SafeGlued(s);
    } else {
      var e := EscapeQuotes(s);
      assert Quote(s) == "'" + (e + "'");
      EscapedGlued(s);
      GluedAppend("'", e + "'", Bare);
      GluedAppend(e, "'", InSingle);
    }
  }

  lemma JoinCons(ps: seq<string>, sep: string)
    requires |ps| >= 2
    ensures Join(ps, sep) == ps[0] + sep + Join(ps[1..], sep)
  {
  }

  lemma {:induction false} JoinNonEmpty(ps: seq<string>, sep: string)
    requires ps != [] && ps[0] != []
    ensures Join(ps, sep) != []
  {
  }

  /** The first quoted word and the blank after it split off as one piece. */
  lemma SplitFirst(a: string, j: string)
    requires Glued(Quote(a), Bare) == Some(Bare)
    ensures Split(Quote(a) + (" " + j), Bare) == [Quote(a)] + Split(j, Bare)
  {
    var sp := " " + j;
    SplitGlued(Quote(a), Bare, sp);
    assert sp[0] == ' ' && sp[1..] == j;
    var rest := Split(sp, Bare);
    assert rest == [""] + Split(j, Bare);
    assert rest[0] == "" && rest[1..] == Split(j, Bare);
    assert Quote(a) + "" == Quote(a);
  }

  /** A single quoted word reads back as itself. */
  lemma SplitOnly(a: string)
    requires Glued(Quote(a), Bare) == Some(Bare)
    ensures Split(Quote(a), Bare) == [Quote(a)]
  {
    SplitGlued(Quote(a), Bare, "");
    assert Quote(a) + "" == Quote(a);
  }

  /** Reading back a quoted word in front of a line that reads back as ws. */
  lemma ReadsBackCons(a: string, j: string, ws: seq<string>)
    requires j != "" && ShellLine(j) == Some(ws)
    ensures ShellLine(Quote(a) + (" " + j)) == Some([a] + ws)
  {
    QuoteRoundTrip(a);
    QuoteGlued(a);
    SplitFirst(a, j);
    var pieces := [Quote(a)] + Split(j, Bare);
    assert pieces[0] == Quote(a) && pieces[1..] == Split(j, Bare);
  }

  /** Reading back a line of one quoted word. */
  lemma ReadsBackOne(a: string)
    ensures ShellLine(Quote(a)) == Some([a])
  {
    QuoteRoundTrip(a);
    QuoteGlued(a);
    SplitOnly(a);
    var pieces := [Quote(a)];
    assert pieces[0] == Quote(a) && pieces[1..] == [];
    assert ShellWord(pieces[0], Bare) == Some(a);
    assert Words(pieces[1..]) == Some([]);
    assert Words(pieces) == Some([a] + []);
    assert [a] + [] == [a];
  }

  /** The joined quoted arguments: the first one, a blank, then the joined rest, which is never empty. */
  lemma JoinQuoted(args: seq<string>)
    requires |args| >= 2
    ensures var j := Join(QuoteAll(args[1..]), " ");
            j != "" && Join(QuoteAll(args), " ") == Quote(args[0]) + (" " + j)
  {
    var q := QuoteAll(args);
    assert QuoteAll(args[1..]) == q[1..];
    JoinNonEmpty(q[1..], " ");
    JoinCons(q, " ");
  }

  /**
   * The echoed command line reads back: a shell splitting the blank-joined
   * shlex.quote'd arguments gets exactly the arguments, in order.
   */
  lemma {:induction false} EchoReadsBack(args: seq<string>)
    ensures ShellLine(Join(QuoteAll(args), " ")) == Some(args)
  {
    if |args| == 1 {
      ReadsBackOne(args[0]);
      assert args == [args[0]];
    } else if |args| >= 2 {
      EchoReadsBack(args[1..]);
      JoinQuoted(args);
      ReadsBackCons(args[0], Join(QuoteAll(args[1..]), " "), args[1..]);
      assert [args[0]] + args[1..] == args;
    }
  }
}
