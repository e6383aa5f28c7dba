/** Text helpers the launchers and the buildd base rely on: Python's `repr` of
    strings and lists (used in every error message that quotes a value), lines,
    `key<sep>value` files such as /etc/environment and /etc/os-release, and
    Python's `str.strip`. */
module Text {
  import opened Wrappers

  // ---------------------------------------------------------------------
  // Python repr() of a str
  // ---------------------------------------------------------------------

  /** The characters Python's `repr` writes as a `\xNN` escape (ASCII only). */
  predicate IsControl(c: char) {
    c as int < 0x20 || c as int == 0x7f
  }

  /** Python quotes with `"` only when the text holds `'` and no `"`. */
  function QuoteFor(s: string): (q: char)
    ensures q == '\'' || q == '"'
  {
    if '\'' in s && '"' !in s then '"' else '\''
  }

  /** The lower-case hexadecimal digit of `n`. */
  function HexDigit(n: nat): (c: char)
    requires n < 16
  {
    if n < 10 then ('0' as int + n) as char else ('a' as int + n - 10) as char
  }

  /** The value of a lower-case hexadecimal digit. */
  function HexValue(c: char): (v: Option<nat>)
    ensures v.Some? ==> v.value < 16
  {
    if '0' <= c <= '9' then Some(c as int - '0' as int)
    else if 'a' <= c <= 'f' then Some(c as int - 'a' as int + 10)
    else None
  }

  /** How `repr` writes one character inside quotes `q`. */
  function EscapeChar(c: char, q: char): string {
    if c == '\\' then "\\\\"
    else if c == q then ['\\', q]
    else if c == '\n' then "\\n"
    else if c == '\r' then "\\r"
    else if c == '\t' then "\\t"
    else if IsControl(c) then ['\\', 'x', HexDigit(c as int / 16), HexDigit(c as int % 16)]
    else [c]
  }

  function Escape(s: string, q: char): string
    decreases |s|
  {
    if s == [] then [] else EscapeChar(s[0], q) + Escape(s[1..], q)
  }

  /** Python's `repr(s)` for a `str`. */
  function Repr(s: string): string {
    var q := QuoteFor(s);
    [q] + Escape(s, q) + [q]
  }

  /** How an `Optional[str]` is rendered by `{value!r}`: `None` or the repr. */
  function ReprOption(o: Option<string>): string {
    match o
    case None => "None"
    case Some(s) => Repr(s)
  }

  /** Python's `str(list_of_str)`: `['a', 'b']`. */
  function ListRepr(xs: seq<string>): string {
    "[" + JoinRepr(xs) + "]"
  }

  function JoinRepr(xs: seq<string>): string
    decreases |xs|
  {
    if |xs| == 0 then ""
    else if |xs| == 1 then Repr(xs[0])
    else Repr(xs[0]) + ", " + JoinRepr(xs[1..])
  }

  /** Text that `repr` copies verbatim between single quotes. */
  predicate Plain(s: string) {
    forall i :: 0 <= i < |s| ==> s[i] != '\\' && s[i] != '\'' && s[i] != '"' && !IsControl(s[i])
  }

  function Prepend(c: char, o: Option<string>): Option<string> {
    match o
    case None => None
    case Some(u) => Some([c] + u)
  }

  /** Reads back the escapes `Escape` writes (the inverse of `repr` between its quotes). */
  function Unescape(t: string): Option<string>
    decreases |t|
  {
    if |t| == 0 then Some("")
    else if t[0] != '\\' then Prepend(t[0], Unescape(t[1..]))
    else if |t| < 2 then None
    else if t[1] == '\\' || t[1] == '\'' || t[1] == '"' then Prepend(t[1], Unescape(t[2..]))
    else if t[1] == 'n' then Prepend('\n', Unescape(t[2..]))
    else if t[1] == 'r' then Prepend('\r', Unescape(t[2..]))
    else if t[1] == 't' then Prepend('\t', Unescape(t[2..]))
    else if t[1] == 'x' && |t| >= 4 && HexValue(t[2]).Some? && HexValue(t[3]).Some? then
      Prepend((HexValue(t[2]).value * 16 + HexValue(t[3]).value) as char, Unescape(t[4..]))
    else None
  }

  /** Reads a quoted literal back, as Python's `ast.literal_eval` would for `repr` output. */
  function Unrepr(r: string): Option<string> {
    if |r| >= 2 && (r[0] == '\'' || r[0] == '"') && r[|r| - 1] == r[0] then Unescape(r[1..|r| - 1])
    else None
  }

  lemma HexRoundTrip(n: nat)
    requires n < 16
    ensures HexValue(HexDigit(n)) == Some(n)
  {
  }

  lemma {:induction false} UnescapeEscapeChar(c: char, q: char, rest: string)
    requires q == '\'' || q == '"'
    ensures Unescape(EscapeChar(c, q) + rest) == Prepend(c, Unescape(rest))
  {
    var e := EscapeChar(c, q);
    if c == '\\' || c == q || c == '\n' || c == '\r' || c == '\t' {
      assert (e + rest)[2..] == rest;
    } else if IsControl(c) {
      var hi, lo := c as int / 16, c as int % 16;
      HexRoundTrip(hi);
      HexRoundTrip(lo);
      assert (e + rest)[2] == HexDigit(hi) && (e + rest)[3] == HexDigit(lo);
      assert (e + rest)[4..] == rest;
      assert (hi * 16 + lo) as char == c;
    } else {
      assert e == [c];
      assert (e + rest)[1..] == rest;
    }
  }

  lemma {:induction false} UnescapeEscape(s: string, q: char)
    requires q == '\'' || q == '"'
    ensures Unescape(Escape(s, q)) == Some(s)
    decreases |s|
  {
    if s != [] {
      UnescapeEscape(s[1..], q);
      UnescapeEscapeChar(s[0], q, Escape(s[1..], q));
      assert [s[0]] + s[1..] == s;
    }
  }

  /** `repr` loses nothing: the quoted form reads back to the original text. */
  lemma ReprRoundTrip(s: string)
    ensures Unrepr(Repr(s)) == Some(s)
  {
    var q := QuoteFor(s);
    var r := Repr(s);
    assert r[1..|r| - 1] == Escape(s, q);
    UnescapeEscape(s, q);
  }

  lemma {:induction false} EscapePlain(s: string)
    requires Plain(s)
    ensures Escape(s, '\'') == s
    decreases |s|
  {
    if s != [] {
      EscapePlain(s[1..]);
      assert [s[0]] + s[1..] == s;
    }
  }

  /** For plain text `repr` is the text between single quotes. */
  lemma ReprPlain(s: string)
    requires Plain(s)
    ensures Repr(s) == "'" + s + "'"
  {
    assert forall i :: 0 <= i < |s| ==> s[i] != '\'';
    assert QuoteFor(s) == '\'';
    EscapePlain(s);
  }

  /** The rendering of a two-element list of plain names. */
  lemma ListReprPair(a: string, b: string)
    requires Plain(a) && Plain(b)
    ensures ListRepr([a, b]) == "['" + a + "', '" + b + "']"
  {
    ReprPlain(a);
    ReprPlain(b);
    assert [a, b][1..] == [b];
    assert JoinRepr([a, b]) == "'" + a + "'" + ", " + ("'" + b + "'");
    assert "[" + ("'" + a + "'" + ", " + ("'" + b + "'")) + "]" == "['" + a + "', '" + b + "']";
  }

  // ---------------------------------------------------------------------
  // Lines
  // ---------------------------------------------------------------------

  /** The first position of `c` in `s`, or `|s|` when there is none. */
  function IndexOf(s: string, c: char): (i: nat)
    ensures i <= |s|
    ensures i < |s| ==> s[i] == c
    ensures forall j :: 0 <= j < i ==> s[j] != c
    decreases |s|
  {
    if s == [] then 0
    else if s[0] == c then 0
    else 1 + IndexOf(s[1..], c)
  }

  lemma IndexOfSeparator(a: string, c: char, b: string)
    requires c !in a
    ensures IndexOf(a + [c] + b, c) == |a|
  {
    var s := a + [c] + b;
    var i := IndexOf(s, c);
    assert s[|a|] == c;
    assert forall j :: 0 <= j < |a| ==> s[j] == a[j];
  }

  /** Splits text at each `\n`; a final `\n` ends the last line rather than
      starting an empty one. */
  function SplitLines(s: string): seq<string>
    decreases |s|
  {
    if s == [] then []
    else
      var i := IndexOf(s, '\n');
      if i == |s| then [s] else [s[..i]] + SplitLines(s[i + 1..])
  }

  /** Each line followed by `\n`. */
  function JoinLines(ls: seq<string>): string
    decreases |ls|
  {
    if ls == [] then "" else ls[0] + "\n" + JoinLines(ls[1..])
  }

  lemma {:induction false} SplitJoinLines(ls: seq<string>)
    requires forall i :: 0 <= i < |ls| ==> '\n' !in ls[i]
    ensures SplitLines(JoinLines(ls)) == ls
    decreases |ls|
  {
    if ls != [] {
      var rest := JoinLines(ls[1..]);
      var s := ls[0] + "\n" + rest;
      IndexOfSeparator(ls[0], '\n', rest);
      assert s[..|ls[0]|] == ls[0];
      assert s[|ls[0]| + 1..] == rest;
      SplitJoinLines(ls[1..]);
      assert [ls[0]] + ls[1..] == ls;
    }
  }

  // ---------------------------------------------------------------------
  // key<sep>value files
  // ---------------------------------------------------------------------

  /** Splits a line at the first `sep`. */
  function SplitAt(line: string, sep: char): (r: Option<(string, string)>)
    ensures r.Some? ==> r.value.0 + [sep] + r.value.1 == line && sep !in r.value.0
    ensures r.None? <==> sep !in line
  {
    var i := IndexOf(line, sep);
    if i == |line| then None
    else
      assert line[..i] + [sep] + line[i + 1..] == line;
      Some((line[..i], line[i + 1..]))
  }

  function ParseLines(ls: seq<string>, sep: char): seq<(string, string)>
    decreases |ls|
  {
    if ls == [] then []
    else
      match SplitAt(ls[0], sep)
      case None => ParseLines(ls[1..], sep)
      case Some(p) => [p] + ParseLines(ls[1..], sep)
  }

  /** The `(key, value)` pairs of a `key<sep>value` file in file order; lines
      without a separator are skipped. */
  function ParsePairs(s: string, sep: char): seq<(string, string)> {
    ParseLines(SplitLines(s), sep)
  }

  /** Writes each pair as `key<sep>value\n`, in order. */
  function RenderPairs(ps: seq<(string, string)>, sep: char): string
    decreases |ps|
  {
    if ps == [] then "" else ps[0].0 + [sep] + ps[0].1 + "\n" + RenderPairs(ps[1..], sep)
  }

  function PairLines(ps: seq<(string, string)>, sep: char): seq<string>
    decreases |ps|
  {
    if ps == [] then [] else [ps[0].0 + [sep] + ps[0].1] + PairLines(ps[1..], sep)
  }

  /** Pairs that survive a write and a read: no separator in a key, no newline anywhere. */
  predicate WellFormedPairs(ps: seq<(string, string)>, sep: char) {
    forall i :: 0 <= i < |ps| ==> sep !in ps[i].0 && '\n' !in ps[i].0 && '\n' !in ps[i].1
  }

  lemma {:induction false} RenderIsJoinLines(ps: seq<(string, string)>, sep: char)
    ensures RenderPairs(ps, sep) == JoinLines(PairLines(ps, sep))
    decreases |ps|
  {
    if ps != [] {
      RenderIsJoinLines(ps[1..], sep);
    }
  }

  lemma {:induction false} PairLinesHaveNoNewline(ps: seq<(string, string)>, sep: char)
    requires sep != '\n' && WellFormedPairs(ps, sep)
    ensures |PairLines(ps, sep)| == |ps|
    ensures forall i :: 0 <= i < |ps| ==> '\n' !in PairLines(ps, sep)[i]
    decreases |ps|
  {
    if ps != [] {
      PairLinesHaveNoNewline(ps[1..], sep);
      var l := ps[0].0 + [sep] + ps[0].1;
      assert forall j :: 0 <= j < |l| ==> l[j] != '\n' by {
        forall j | 0 <= j < |l| ensures l[j] != '\n' {
          if j < |ps[0].0| { assert l[j] == ps[0].0[j]; }
          else if j > |ps[0].0| { assert l[j] == ps[0].1[j - |ps[0].0| - 1]; }
        }
      }
      forall i | 0 <= i < |ps| ensures '\n' !in PairLines(ps, sep)[i] {
        if i > 0 {
          assert PairLines(ps, sep)[i] == PairLines(ps[1..], sep)[i - 1];
        }
      }
    }
  }

  lemma {:induction false} ParsePairLines(ps: seq<(string, string)>, sep: char)
    requires WellFormedPairs(ps, sep)
    ensures ParseLines(PairLines(ps, sep), sep) == ps
    decreases |ps|
  {
    if ps != [] {
      var ls := PairLines(ps, sep);
      IndexOfSeparator(ps[0].0, sep, ps[0].1);
      var l := ps[0].0 + [sep] + ps[0].1;
      assert l[..|ps[0].0|] == ps[0].0;
      assert l[|ps[0].0| + 1..] == ps[0].1;
      assert SplitAt(ls[0], sep) == Some(ps[0]);
      assert ls[1..] == PairLines(ps[1..], sep);
      ParsePairLines(ps[1..], sep);
      assert [ps[0]] + ps[1..] == ps;
    }
  }

  /** Reading back a written `key<sep>value` file gives the same pairs in the same order. */
  lemma ParseRenderPairs(ps: seq<(string, string)>, sep: char)
    requires sep != '\n' && WellFormedPairs(ps, sep)
    ensures ParsePairs(RenderPairs(ps, sep), sep) == ps
  {
    RenderIsJoinLines(ps, sep);
    PairLinesHaveNoNewline(ps, sep);
    SplitJoinLines(PairLines(ps, sep));
    ParsePairLines(ps, sep);
  }

  /** Python's `dict(pairs)[key]`: the last binding of `key` wins. */
  function Lookup(ps: seq<(string, string)>, key: string): (r: Option<string>)
    ensures r.Some? ==> exists i :: 0 <= i < |ps| && ps[i] == (key, r.value) &&
                                   forall j :: i < j < |ps| ==> ps[j].0 != key
    ensures r.None? ==> forall i :: 0 <= i < |ps| ==> ps[i].0 != key
    decreases |ps|
  {
    if ps == [] then None
    else if ps[|ps| - 1].0 == key then Some(ps[|ps| - 1].1)
    else
      var init := ps[..|ps| - 1];
      var r := Lookup(init, key);
      if r.Some? then
        ghost var i :| 0 <= i < |init| && init[i] == (key, r.value) &&
                       forall j :: i < j < |init| ==> init[j].0 != key;
        assert ps[i] == (key, r.value);
        assert forall j :: i < j < |ps| ==> ps[j].0 != key by {
          forall j | i < j < |ps| ensures ps[j].0 != key {
            if j < |init| {
              assert ps[j] == init[j];
            }
          }
        }
        r
      else r
  }

  // ---------------------------------------------------------------------
  // str.strip()
  // ---------------------------------------------------------------------

  /** Space, tab, newline, vertical tab, form feed and carriage return: the
      ASCII part of what Python's `str.strip()` removes. */
  predicate IsSpace(c: char) {
    c == ' ' || 9 <= c as int <= 13
  }

  function TrimStart(s: string): (r: string)
    ensures |r| <= |s| && r == s[|s| - |r|..]
    ensures r != [] ==> !IsSpace(r[0])
    ensures forall j :: 0 <= j < |s| - |r| ==> IsSpace(s[j])
    decreases |s|
  {
    if s != [] && IsSpace(s[0]) then TrimStart(s[1..]) else s
  }

  function TrimEnd(s: string): (r: string)
    ensures |r| <= |s| && r == s[..|r|]
    ensures r != [] ==> !IsSpace(r[|r| - 1])
    ensures forall j :: |r| <= j < |s| ==> IsSpace(s[j])
    decreases |s|
  {
    if s != [] && IsSpace(s[|s| - 1]) then TrimEnd(s[..|s| - 1]) else s
  }

  /** Python's `s.strip()`: the text with leading and trailing whitespace removed. */
  function Trim(s: string): (r: string)
    ensures |r| <= |s|
    ensures r != [] ==> !IsSpace(r[0]) && !IsSpace(r[|r| - 1])
  {
    TrimEnd(TrimStart(s))
  }

  /** What `Trim` keeps is the input between its leading and its trailing
      whitespace: a slice of it with only whitespace before and after. */
  lemma TrimContent(s: string)
    ensures exists i, j :: 0 <= i <= j <= |s| && Trim(s) == s[i..j] &&
                           (forall k :: 0 <= k < i ==> IsSpace(s[k])) &&
                           (forall k :: j <= k < |s| ==> IsSpace(s[k]))
  {
    var t := TrimStart(s);
    BlankEnds(s, t, TrimEnd(t));
  }

  /** A prefix `r` of a suffix `t` of `s`, where only blanks were cut off on
      either side, is a slice of `s` with only blanks before and after it. */
  lemma BlankEnds(s: string, t: string, r: string)
    requires |t| <= |s| && t == s[|s| - |t|..] && forall k :: 0 <= k < |s| - |t| ==> IsSpace(s[k])
    requires |r| <= |t| && r == t[..|r|] && forall k :: |r| <= k < |t| ==> IsSpace(t[k])
    ensures exists i, j :: 0 <= i <= j <= |s| && r == s[i..j] &&
                           (forall k :: 0 <= k < i ==> IsSpace(s[k])) &&
                           (forall k :: j <= k < |s| ==> IsSpace(s[k]))
  {
    var i := |s| - |t|;
    var j := i + |r|;
    assert r == s[i..j];
    forall k | j <= k < |s| ensures IsSpace(s[k]) {
      assert s[k] == t[k - i];
    }
  }

  /** Only whitespace at the ends is removed: text with none is returned as it is. */
  lemma TrimKeeps(s: string)
    requires s != [] ==> !IsSpace(s[0]) && !IsSpace(s[|s| - 1])
    ensures Trim(s) == s
  {
  }

  /** Stripping twice strips nothing more. */
  lemma TrimIdempotent(s: string)
    ensures Trim(Trim(s)) == Trim(s)
  {
    TrimKeeps(Trim(s));
  }

  /** Drops one pair of surrounding double quotes, as /etc/os-release values use them. */
  function Unquote(v: string): (r: string)
    ensures |v| >= 2 && v[0] == '"' && v[|v| - 1] == '"' ==> ['"'] + r + ['"'] == v
    ensures !(|v| >= 2 && v[0] == '"' && v[|v| - 1] == '"') ==> r == v
  {
    if |v| >= 2 && v[0] == '"' && v[|v| - 1] == '"' then v[1..|v| - 1] else v
  }
}
