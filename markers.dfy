/**
 * The two progress markers both front ends look for in the tool's output,
 * `Duration:\s*(\d+):(\d+):(\d+\.?\d*)` and `time=(\d+):(\d+):(\d+\.?\d*)`,
 * found the way re.search finds them (the leftmost offset where the pattern
 * matches), and the seconds value int(h) * 3600 + int(m) * 60 + float(s)
 * the callers compute from the three groups.
 *
 * Every group is a greedy run followed either by a character the run cannot
 * contain or by the end of the pattern, so the regex never backtracks into
 * a shorter run: a match at an offset is decided by maximal runs alone.
 */
module Markers {
  import opened Wrappers
  import opened Text

  datatype Kind = Duration | Time

  /** The three groups of a match, as m.groups() returns them. */
  datatype Groups = Groups(hours: string, minutes: string, seconds: string)

  const DurationKey: string := "Duration:"
  const TimeKey: string := "time="

  /** Length of the longest run of ASCII digits starting at offset i. */
  function DigitRun(s: string, i: nat): (n: nat)
    requires i <= |s|
    ensures i + n <= |s|
    ensures forall k :: i <= k < i + n ==> IsDigit(s[k])
    ensures i + n == |s| || !IsDigit(s[i + n])
    decreases |s| - i
  {
    if i < |s| && IsDigit(s[i]) then 1 + DigitRun(s, i + 1) else 0
  }

  /** Length of the longest run of whitespace starting at offset i (what `\s*` takes). */
  function SpaceRun(s: string, i: nat): (n: nat)
    requires i <= |s|
    ensures i + n <= |s|
    ensures forall k :: i <= k < i + n ==> IsSpace(s[k])
    ensures i + n == |s| || !IsSpace(s[i + n])
    decreases |s| - i
  {
    if i < |s| && IsSpace(s[i]) then 1 + SpaceRun(s, i + 1) else 0
  }

  /** The text `\d+\.?\d*` can capture as a whole: digits, then optionally a dot and more digits. */
  predicate IsSecondsText(t: string)
  {
    var d := DigitRun(t, 0);
    d > 0 && (d == |t| || (t[d] == '.' && AllDigits(t[d + 1..])))
  }

  predicate WellFormed(g: Groups)
  {
    g.hours != [] && AllDigits(g.hours) && g.minutes != [] && AllDigits(g.minutes) && IsSecondsText(g.seconds)
  }

  /** What `\d+\.?\d*` captures at the start of t: empty when t does not start with a digit. */
  function SecondsPrefix(t: string): (sec: string)
    ensures sec <= t
    ensures sec == [] <==> (t == [] || !IsDigit(t[0]))
    ensures sec != [] ==> IsSecondsText(sec)
  {
    var c := DigitRun(t, 0);
    if c == 0 then []
    else if c < |t| && t[c] == '.' then
      var sec := t[..c + 1 + DigitRun(t, c + 1)];
      assert DigitRun(sec, 0) == c by { DigitRunPrefix(t, |sec|, c); }
      assert forall q :: c + 1 <= q < |sec| ==> IsDigit(sec[q]);
      sec
    else
      var sec := t[..c];
      assert DigitRun(sec, 0) == c by { DigitRunPrefix(t, c, c); }
      sec
  }

  /** Cutting t after its first run leaves that run's length unchanged. */
  lemma DigitRunPrefix(t: string, n: nat, c: nat)
    requires c <= n <= |t| && DigitRun(t, 0) == c
    ensures DigitRun(t[..n], 0) == c
  {
    DigitRunOf(t[..n], 0, c);
  }

  /** `(\d+):(\d+):(\d+\.?\d*)` anchored at the start of t. */
  function Clock(t: string): (r: Option<Groups>)
    ensures r.Some? ==> WellFormed(r.value)
  {
    var a := DigitRun(t, 0);
    if a == 0 || a == |t| || t[a] != ':' then None
    else ClockAfterHours(t[..a], t[a + 1..])
  }

  /** The rest of the clock pattern once the hours group h and its colon are taken. */
  function ClockAfterHours(h: string, t: string): (r: Option<Groups>)
    requires h != [] && AllDigits(h)
    ensures r.Some? ==> WellFormed(r.value)
  {
    var b := DigitRun(t, 0);
    if b == 0 || b == |t| || t[b] != ':' then None
    else
      var sec := SecondsPrefix(t[b + 1..]);
      if sec == [] then None
      else Some(Groups(h, t[..b], sec))
  }

  /** The pattern of the given kind anchored at offset i. */
  function MatchAt(kind: Kind, s: string, i: nat): Option<Groups>
    requires i <= |s|
  {
    match kind
    case Duration =>
      if DurationKey <= s[i..] then
        var j := i + |DurationKey|;
        Clock(s[j + SpaceRun(s, j)..])
      else None
    case Time =>
      if TimeKey <= s[i..] then Clock(s[i + |TimeKey|..]) else None
  }

  /** The leftmost offset at or after i where the pattern matches. */
  function FindFrom(kind: Kind, s: string, i: nat): (r: Option<nat>)
    requires i <= |s|
    ensures r.Some? ==> i <= r.value <= |s| && MatchAt(kind, s, r.value).Some?
    ensures r.Some? ==> forall j :: i <= j < r.value ==> MatchAt(kind, s, j).None?
    ensures r.None? ==> forall j :: i <= j <= |s| ==> MatchAt(kind, s, j).None?
    decreases |s| - i
  {
    if MatchAt(kind, s, i).Some? then Some(i)
    else if i == |s| then None
    else FindFrom(kind, s, i + 1)
  }

  /** re.search: the groups of the leftmost match, or None when the line holds no marker. */
  function Search(kind: Kind, s: string): (r: Option<Groups>)
    ensures r.None? <==> forall i :: 0 <= i <= |s| ==> MatchAt(kind, s, i).None?
    ensures r.Some? ==> WellFormed(r.value)
  {
    var p := FindFrom(kind, s, 0);
    if p.None? then None else MatchAt(kind, s, p.value)
  }

  /** Search reports the match at the first offset where the pattern matches. */
  lemma SearchIsLeftmost(kind: Kind, s: string, i: nat)
    requires i <= |s| && MatchAt(kind, s, i).Some?
    requires forall j :: 0 <= j < i ==> MatchAt(kind, s, j).None?
    ensures Search(kind, s) == MatchAt(kind, s, i)
  {
    var p := FindFrom(kind, s, 0);
    assert p.Some? && p.value == i;
  }

  function Pow10(n: nat): (p: nat)
    ensures p >= 1
  {
    if n == 0 then 1 else 10 * Pow10(n - 1)
  }

  /** float() of a seconds group: whole digits plus the fraction after the dot ("12." is 12). */
  function SecondsValue(t: string): (v: real)
    requires IsSecondsText(t)
    ensures v >= 0.0
  {
    var d := DigitRun(t, 0);
    if d == |t| then DigitsValue(t) as real
    else DigitsValue(t[..d]) as real + DigitsValue(t[d + 1..]) as real / Pow10(|t| - d - 1) as real
  }

  /** int(h) * 3600 + int(m) * 60 + float(s). */
  function Seconds(g: Groups): (v: real)
    requires WellFormed(g)
    ensures v >= 0.0
  {
    (DigitsValue(g.hours) * 3600 + DigitsValue(g.minutes) * 60) as real + SecondsValue(g.seconds)
  }

  // ------------------------------------------------------------ rendered markers

  /** A run of digits laid at an offset is exactly the run DigitRun reports there. */
  lemma DigitRunOf(s: string, i: nat, n: nat)
    requires i + n <= |s|
    requires forall k :: i <= k < i + n ==> IsDigit(s[k])
    requires i + n == |s| || !IsDigit(s[i + n])
    ensures DigitRun(s, i) == n
  {
  }

  lemma SpaceRunOf(s: string, i: nat, n: nat)
    requires i + n <= |s|
    requires forall k :: i <= k < i + n ==> IsSpace(s[k])
    requires i + n == |s| || !IsSpace(s[i + n])
    ensures SpaceRun(s, i) == n
  {
  }

  /** A digit string followed by a non-digit is one whole run. */
  lemma LeadingRun(d: string, rest: string)
    requires AllDigits(d)
    requires rest == [] || !IsDigit(rest[0])
    ensures DigitRun(d + rest, 0) == |d|
  {
    var t := d + rest;
    assert forall k :: 0 <= k < |d| ==> t[k] == d[k];
    assert |d| < |t| ==> t[|d|] == rest[0];
    DigitRunOf(t, 0, |d|);
  }

  /** What may follow a rendered seconds group without being swallowed by `\.?\d*`. */
  predicate Delimits(sec: string, tail: string)
  {
    tail == [] || (!IsDigit(tail[0]) && (tail[0] == '.' ==> '.' in sec))
  }

  /** A seconds group with no dot, followed by a delimiting tail, is captured in full. */
  lemma SecondsWhole(sec: string, tail: string)
    requires IsSecondsText(sec) && DigitRun(sec, 0) == |sec| && Delimits(sec, tail)
    ensures SecondsPrefix(sec + tail) == sec
  {
    var u := sec + tail;
    LeadingRun(sec, tail);
    assert '.' !in sec;
    assert u[..|sec|] == sec;
  }

  /** The digits after the dot, followed by the tail, form one whole run of u. */
  lemma FractionRun(u: string, c: nat, f: string, tail: string)
    requires AllDigits(f) && (tail == [] || !IsDigit(tail[0]))
    requires c + 1 <= |u| && u[c + 1..] == f + tail
    ensures DigitRun(u, c + 1) == |f|
  {
    var v := f + tail;
    assert forall q :: 0 <= q < |f| ==> u[c + 1 + q] == v[q];
    assert c + 1 + |f| < |u| ==> u[c + 1 + |f|] == v[|f|];
    DigitRunOf(u, c + 1, |f|);
  }

  lemma DropAppend(a: string, b: string, k: nat)
    requires k <= |a|
    ensures (a + b)[k..] == a[k..] + b
  {
  }

  /** When the first run is followed by a dot, the capture runs to the end of the digits after it. */
  lemma PrefixAfterDot(t: string, c: nat, f: nat)
    requires c > 0 && DigitRun(t, 0) == c && c < |t| && t[c] == '.' && DigitRun(t, c + 1) == f
    ensures SecondsPrefix(t) == t[..c + 1 + f]
  {
  }

  /** Appending a tail does not change the run of whole digits before the dot. */
  lemma DottedLead(sec: string, tail: string)
    requires IsSecondsText(sec) && DigitRun(sec, 0) < |sec|
    ensures DigitRun(sec + tail, 0) == DigitRun(sec, 0)
  {
    var c := DigitRun(sec, 0);
    assert sec + tail == sec[..c] + (sec[c..] + tail);
    LeadingRun(sec[..c], sec[c..] + tail);
  }

  /** After the dot, the run of digits of sec + tail ends where sec ends. */
  lemma DottedFraction(sec: string, tail: string)
    requires IsSecondsText(sec) && DigitRun(sec, 0) < |sec| && Delimits(sec, tail)
    ensures var c := DigitRun(sec, 0);
            (sec + tail)[c] == '.' && DigitRun(sec + tail, c + 1) == |sec| - c - 1
  {
    var u := sec + tail;
    var c := DigitRun(sec, 0);
    var f := sec[c + 1..];
    assert AllDigits(f);
    DropAppend(sec, tail, c + 1);
    FractionRun(u, c, f, tail);
  }

  lemma TakeAppend(a: string, b: string)
    ensures (a + b)[..|a|] == a
  {
  }

  /** A seconds group with a dot, followed by a delimiting tail, is captured in full. */
  lemma SecondsDotted(sec: string, tail: string)
    requires IsSecondsText(sec) && DigitRun(sec, 0) < |sec| && Delimits(sec, tail)
    ensures SecondsPrefix(sec + tail) == sec
  {
    var c := DigitRun(sec, 0);
    DottedLead(sec, tail);
    DottedFraction(sec, tail);
    PrefixAfterDot(sec + tail, c, |sec| - c - 1);
    TakeAppend(sec, tail);
  }

  /** The seconds group followed by a delimiting tail is captured in full, and no further. */
  lemma SecondsRun(sec: string, tail: string)
    requires IsSecondsText(sec) && Delimits(sec, tail)
    ensures SecondsPrefix(sec + tail) == sec
  {
    if DigitRun(sec, 0) == |sec| {
      SecondsWhole(sec, tail);
    } else {
      SecondsDotted(sec, tail);
    }
  }

  /** Digits, a colon, then anything: the digits are the hours and parsing goes on after the colon. */
  lemma ClockHours(h: string, rest: string)
    requires h != [] && AllDigits(h)
    ensures Clock(h + ":" + rest) == ClockAfterHours(h, rest)
  {
    var t := h + ":" + rest;
    assert t == h + (":" + rest);
    LeadingRun(h, ":" + rest);
    assert t[|h|] == ':' && t[|h| + 1..] == rest && t[..|h|] == h;
  }

  lemma ClockMinutes(h: string, m: string, u: string)
    requires h != [] && AllDigits(h) && m != [] && AllDigits(m)
    ensures ClockAfterHours(h, m + ":" + u) ==
            (var sec := SecondsPrefix(u); if sec == [] then None else Some(Groups(h, m, sec)))
  {
    var t := m + ":" + u;
    assert t == m + (":" + u);
    LeadingRun(m, ":" + u);
    assert t[|m|] == ':' && t[|m| + 1..] == u && t[..|m|] == m;
  }

  /** The clock text h:m:sec as the tool prints it. */
  function ClockText(h: string, m: string, sec: string): string
  {
    h + ":" + m + ":" + sec
  }

  /** Clock text `h:m:sec` parses back to exactly its three parts. */
  lemma ClockRendered(h: string, m: string, sec: string, tail: string)
    requires h != [] && AllDigits(h) && m != [] && AllDigits(m) && IsSecondsText(sec)
    requires Delimits(sec, tail)
    ensures Clock(ClockText(h, m, sec) + tail) == Some(Groups(h, m, sec))
  {
    assert ClockText(h, m, sec) + tail == h + ":" + (m + ":" + (sec + tail));
    ClockHours(h, m + ":" + (sec + tail));
    ClockMinutes(h, m, sec + tail);
    SecondsRun(sec, tail);
  }

  /** A key written after pre is found at offset |pre|, with rest following it. */
  lemma KeyAt(pre: string, key: string, rest: string)
    ensures var s := pre + key + rest;
            |pre| + |key| <= |s| && key <= s[|pre|..] && s[|pre| + |key|..] == rest
  {
    var s := pre + key + rest;
    assert s[|pre|..] == key + rest;
  }

  /** After the Duration key, `\s*` takes exactly the whitespace ws and the clock is read from c. */
  lemma DurationAt(pre: string, ws: string, c: string)
    requires forall q :: 0 <= q < |ws| ==> IsSpace(ws[q])
    requires c == [] || !IsSpace(c[0])
    ensures MatchAt(Duration, pre + DurationKey + ws + c, |pre|) == Clock(c)
  {
    var s := pre + DurationKey + ws + c;
    var t := ws + c;
    assert s == pre + DurationKey + t;
    KeyAt(pre, DurationKey, t);
    var j := |pre| + |DurationKey|;
    assert s[j..] == t;
    assert forall q :: 0 <= q < |ws| ==> s[j + q] == t[q];
    assert j + |ws| < |s| ==> s[j + |ws|] == t[|ws|];
    SpaceRunOf(s, j, |ws|);
    assert s[j + |ws|..] == c;
  }

  /** A Duration marker written at an offset is matched there with its three groups. */
  lemma DurationRendered(pre: string, ws: string, h: string, m: string, sec: string, tail: string)
    requires forall q :: 0 <= q < |ws| ==> IsSpace(ws[q])
    requires h != [] && AllDigits(h) && m != [] && AllDigits(m) && IsSecondsText(sec)
    requires Delimits(sec, tail)
    ensures MatchAt(Duration, pre + DurationKey + ws + (ClockText(h, m, sec) + tail), |pre|)
            == Some(Groups(h, m, sec))
  {
    var c := ClockText(h, m, sec) + tail;
    assert c[0] == h[0];
    DurationAt(pre, ws, c);
    ClockRendered(h, m, sec, tail);
  }

  /** A time= marker written at an offset is matched there with its three groups. */
  lemma TimeRendered(pre: string, h: string, m: string, sec: string, tail: string)
    requires h != [] && AllDigits(h) && m != [] && AllDigits(m) && IsSecondsText(sec)
    requires Delimits(sec, tail)
    ensures MatchAt(Time, pre + TimeKey + (ClockText(h, m, sec) + tail), |pre|) == Some(Groups(h, m, sec))
  {
    KeyAt(pre, TimeKey, ClockText(h, m, sec) + tail);
    ClockRendered(h, m, sec, tail);
  }

  /** W.F is seconds text whose whole part is W and whose fraction is F. */
  lemma DottedParts(ws: string, frac: string)
    requires ws != [] && AllDigits(ws) && AllDigits(frac)
    ensures var sec := ws + "." + frac;
            DigitRun(sec, 0) == |ws| && sec[..|ws|] == ws && sec[|ws| + 1..] == frac && IsSecondsText(sec)
  {
    var sec := ws + "." + frac;
    assert sec[|ws|] == '.';
    DigitRunOf(sec, 0, |ws|);
    assert sec[..|ws|] == ws;
    assert sec[|ws| + 1..] == frac;
  }

  /** Seconds of a clock written as H:M:W.F reads back as H*3600 + M*60 + W + F/10^|F|. */
  lemma SecondsRendered(h: nat, m: nat, w: nat, frac: string)
    requires AllDigits(frac)
    ensures var sec := NatToString(w) + "." + frac;
            IsSecondsText(sec) &&
            Seconds(Groups(NatToString(h), NatToString(m), sec))
            == (h * 3600 + m * 60 + w) as real + DigitsValue(frac) as real / Pow10(|frac|) as real
  {
    var ws := NatToString(w);
    DottedParts(ws, frac);
    var sec := ws + "." + frac;
    assert SecondsValue(sec) == w as real + DigitsValue(frac) as real / Pow10(|frac|) as real;
  }

  /** The seconds of the line's first Duration marker, when it has one. */
  function DurationMark(text: string): Option<real>
  {
    match Search(Duration, text)
    case None => None
    case Some(g) => Some(Seconds(g))
  }

  /** The seconds of the line's first time= marker, when it has one. */
  function TimeMark(text: string): Option<real>
  {
    match Search(Time, text)
    case None => None
    case Some(g) => Some(Seconds(g))
  }

  /** A marker worth more than 0 seconds. */
  predicate Positive(mark: Option<real>)
  {
    mark.Some? && mark.value > 0.0
  }

  /** Python truthiness of a stored total: neither None nor 0.0. */
  predicate Known(total: Option<real>)
  {
    total.Some? && total.value != 0.0
  }

  /** Two-digit text, as ffmpeg pads hours, minutes, seconds and hundredths. */
  function Pad2(v: nat): (s: string)
    requires v < 100
    ensures |s| == 2 && AllDigits(s) && DigitsValue(s) == v
  {
    var s := [DigitChar(v / 10), DigitChar(v % 10)];
    assert s[..1] == [DigitChar(v / 10)] && s[..1][..0] == [];
    assert DigitsValue(s[..1]) == v / 10;
    s
  }

  /** HH:MM:SS.CC read back: WellFormed, and worth h * 3600 + m * 60 + w + c / 100 seconds. */
  lemma PaddedSeconds(h: nat, m: nat, w: nat, c: nat)
    requires h < 100 && m < 100 && w < 100 && c < 100
    ensures var g := Groups(Pad2(h), Pad2(m), Pad2(w) + "." + Pad2(c));
            WellFormed(g) && Seconds(g) == (h * 3600 + m * 60 + w) as real + c as real / 100.0
  {
    DottedParts(Pad2(w), Pad2(c));
    assert Pow10(2) == 100;
  }
}
