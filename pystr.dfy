/** The Python string built-ins the scripts rely on, on `seq<char>`:
    `s.split()`, `s.split('=')`, `t in s`, `re.sub("#", " ", s)`,
    `s.split(' (')[0]`, `int(s)`, `float(s)` and `str(n)`. */
module PyStr {
  import opened Py

  // ---------------------------------------------------------------------------
  // s.split(): whitespace tokenisation
  // ---------------------------------------------------------------------------

  /** The characters at which Python's `str.split()` with no argument splits:
      those for which `str.isspace()` holds (the ASCII controls 9-13 and
      28-31, the space, and the Unicode spaces and line separators). */
  predicate IsSpace(c: char) {
    var n := c as int;
    (9 <= n <= 13) || (28 <= n <= 32) || n == 0x85 || n == 0xA0 || n == 0x1680 ||
    (0x2000 <= n <= 0x200A) || n == 0x2028 || n == 0x2029 || n == 0x202F ||
    n == 0x205F || n == 0x3000
  }

  /** A token of `s.split()`: non-empty and free of whitespace. */
  predicate IsWord(w: string) {
    |w| > 0 && forall i :: 0 <= i < |w| ==> !IsSpace(w[i])
  }

  /** Length of the longest whitespace-free prefix of `s`. */
  function WordLen(s: string): (n: nat)
    ensures n <= |s|
    ensures forall i :: 0 <= i < n ==> !IsSpace(s[i])
    ensures n < |s| ==> IsSpace(s[n])
  {
    if s == [] || IsSpace(s[0]) then 0 else 1 + WordLen(s[1..])
  }

  /** Python `s.split()` with no argument: runs of whitespace separate tokens;
      leading and trailing whitespace yield no empty token. */
  function Split(s: string): (words: seq<string>)
    ensures forall k :: 0 <= k < |words| ==> IsWord(words[k])
    decreases |s|
  {
    if s == [] then []
    else if IsSpace(s[0]) then Split(s[1..])
    else
      var n := WordLen(s);
      [s[..n]] + Split(s[n..])
  }

  /** A word followed by any whitespace character splits off as the first
      token, whatever follows. */
  lemma {:induction false} SplitAtSpace(w: string, c: char, rest: string)
    requires IsWord(w) && IsSpace(c)
    ensures Split(w + [c] + rest) == [w] + Split(rest)
  {
    var s := w + [c] + rest;
    assert s == w + ([c] + rest);
    WordLenOfWord(w, [c] + rest);
    assert s[..|w|] == w;
    assert s[|w|..] == [c] + rest;
    assert ([c] + rest)[1..] == rest;
  }

  /** A no-break space separates tokens as an ASCII space does. */
  lemma {:induction false} SplitNoBreakSpace(a: string, b: string)
    requires a == "kpi_seg=Core" && b == "kpi_choke=X"
    ensures Split(a + ['\U{00A0}'] + b) == [a, b]
  {
    assert IsWord(a) && IsWord(b);
    SplitAtSpace(a, '\U{00A0}', b);
    SplitJoinSpace([b]);
  }

  /** `" ".join(words)` */
  function JoinSpace(words: seq<string>): string {
    if words == [] then ""
    else if |words| == 1 then words[0]
    else words[0] + " " + JoinSpace(words[1..])
  }

  lemma {:induction false} WordLenOfWord(w: string, rest: string)
    requires IsWord(w)
    requires rest == [] || IsSpace(rest[0])
    ensures WordLen(w + rest) == |w|
    decreases |w|
  {
    if |w| > 1 {
      assert (w + rest)[1..] == w[1..] + rest;
      WordLenOfWord(w[1..], rest);
    } else {
      assert (w + rest)[1..] == rest;
    }
  }

  /** Splitting the space-joined tokens gives the tokens back. */
  lemma {:induction false} SplitJoinSpace(words: seq<string>)
    requires forall k :: 0 <= k < |words| ==> IsWord(words[k])
    ensures Split(JoinSpace(words)) == words
  {
    if words == [] {
    } else if |words| == 1 {
      WordLenOfWord(words[0], "");
      assert words[0] + "" == words[0];
      assert words[0][|words[0]|..] == [];
    } else {
      var w, rest := words[0], JoinSpace(words[1..]);
      var s := w + " " + rest;
      assert s == w + (" " + rest);
      WordLenOfWord(w, " " + rest);
      assert s[..|w|] == w;
      assert s[|w|..] == " " + rest;
      assert (" " + rest)[1..] == rest;
      SplitJoinSpace(words[1..]);
    }
  }

  // ---------------------------------------------------------------------------
  // t in s: substring test
  // ---------------------------------------------------------------------------

  /** Python `t in s` for strings. */
  predicate Contains(s: string, t: string)
    decreases |s|
  {
    |t| <= |s| && (s[..|t|] == t || Contains(s[1..], t))
  }

  /** `t` occurs in `s` starting at position `i`. */
  predicate OccursAt(s: string, t: string, i: int) {
    0 <= i && i + |t| <= |s| && s[i..i + |t|] == t
  }

  /** `Contains` means: `t` occurs in `s` at some position. */
  lemma {:induction false} ContainsAt(s: string, t: string)
    ensures Contains(s, t) <==> exists i :: OccursAt(s, t, i)
    decreases |s|
  {
    if |t| <= |s| {
      if s[..|t|] == t {
        assert OccursAt(s, t, 0);
      } else {
        ContainsAt(s[1..], t);
        forall i | 1 <= i
          ensures OccursAt(s, t, i) <==> OccursAt(s[1..], t, i - 1)
        {
          if i + |t| <= |s| {
            var u, w := s[i..i + |t|], s[1..][i - 1..i - 1 + |t|];
            forall m | 0 <= m < |t|
              ensures u[m] == w[m]
            {
              assert u[m] == s[i + m];
              assert w[m] == s[1..][i - 1 + m] == s[i + m];
            }
            assert u == w;
          }
        }
        assert !OccursAt(s, t, 0);
        if exists i :: OccursAt(s, t, i) {
          var i :| OccursAt(s, t, i);
          assert OccursAt(s[1..], t, i - 1);
        }
        if Contains(s[1..], t) {
          var i :| OccursAt(s[1..], t, i);
          assert OccursAt(s, t, i + 1);
        }
      }
    }
  }

  /** Every character of a contained string is a character of the container. */
  lemma {:induction false} ContainsChar(s: string, t: string, c: char)
    requires Contains(s, t) && c in t
    ensures c in s
    decreases |s|
  {
    if s[..|t|] == t {
      var j :| 0 <= j < |t| && t[j] == c;
      assert s[j] == c;
    } else {
      ContainsChar(s[1..], t, c);
    }
  }

  /** A string lacking one of `t`'s characters does not contain `t`. */
  lemma {:induction false} Lacks(s: string, t: string, c: char)
    requires c in t && c !in s
    ensures !Contains(s, t)
  {
    if Contains(s, t) {
      ContainsChar(s, t, c);
    }
  }

  // ---------------------------------------------------------------------------
  // s.split(c) for a one-character separator
  // ---------------------------------------------------------------------------

  function Count(s: string, c: char): (n: nat)
    ensures n == 0 <==> c !in s
  {
    if s == [] then 0 else (if s[0] == c then 1 else 0) + Count(s[1..], c)
  }

  /** Python `s.split(c)`: always one more part than there are separators, and
      no part holds the separator. */
  function SplitOn(s: string, c: char): (parts: seq<string>)
    ensures |parts| == Count(s, c) + 1
    ensures forall k :: 0 <= k < |parts| ==> c !in parts[k]
  {
    if s == [] then [""]
    else
      var rest := SplitOn(s[1..], c);
      if s[0] == c then [""] + rest
      else [[s[0]] + rest[0]] + rest[1..]
  }

  /** `c.join(parts)` */
  function JoinOn(parts: seq<string>, c: char): string {
    if parts == [] then ""
    else if |parts| == 1 then parts[0]
    else parts[0] + [c] + JoinOn(parts[1..], c)
  }

  /** Joining the parts with the separator gives the string back. */
  lemma {:induction false} SplitOnJoin(s: string, c: char)
    ensures JoinOn(SplitOn(s, c), c) == s
  {
    if s != [] {
      var rest := SplitOn(s[1..], c);
      SplitOnJoin(s[1..], c);
      if s[0] == c {
        JoinOnSep(rest, c);
      } else {
        JoinOnPrepend([s[0]], rest, c);
      }
      assert s == [s[0]] + s[1..];
    }
  }

  /** An empty first part adds a leading separator. */
  lemma {:induction false} JoinOnSep(parts: seq<string>, c: char)
    requires |parts| >= 1
    ensures JoinOn([""] + parts, c) == [c] + JoinOn(parts, c)
  {
    assert ([""] + parts)[1..] == parts;
  }

  /** Extending the first part extends the joined string at its front. */
  lemma {:induction false} JoinOnPrepend(x: string, parts: seq<string>, c: char)
    requires |parts| >= 1
    ensures JoinOn([x + parts[0]] + parts[1..], c) == x + JoinOn(parts, c)
  {
    if |parts| > 1 {
      assert ([x + parts[0]] + parts[1..])[1..] == parts[1..];
    }
  }

  lemma {:induction false} SplitOnNoSep(s: string, c: char)
    requires c !in s
    ensures SplitOn(s, c) == [s]
    decreases |s|
  {
    if s != [] {
      SplitOnNoSep(s[1..], c);
      assert [s[0]] + s[1..] == s;
    }
  }

  lemma {:induction false} SplitOnSep(a: string, b: string, c: char)
    requires c !in a
    ensures SplitOn(a + [c] + b, c) == [a] + SplitOn(b, c)
    decreases |a|
  {
    var s := a + [c] + b;
    if a == [] {
      assert s == [c] + b;
      assert s[0] == c && s[1..] == b;
    } else {
      assert s[0] == a[0] && a[0] != c;
      assert s[1..] == a[1..] + [c] + b;
      SplitOnSep(a[1..], b, c);
      var rest := SplitOn(s[1..], c);
      assert rest == [a[1..]] + SplitOn(b, c);
      assert rest[0] == a[1..] && rest[1..] == SplitOn(b, c);
      assert SplitOn(s, c) == [[a[0]] + rest[0]] + rest[1..];
      assert [a[0]] + a[1..] == a;
    }
  }

  /** Splitting the join of separator-free parts gives the parts back. */
  lemma {:induction false} JoinOnSplit(parts: seq<string>, c: char)
    requires |parts| >= 1
    requires forall k :: 0 <= k < |parts| ==> c !in parts[k]
    ensures SplitOn(JoinOn(parts, c), c) == parts
    decreases |parts|
  {
    if |parts| == 1 {
      SplitOnNoSep(parts[0], c);
    } else {
      JoinOnSplit(parts[1..], c);
      SplitOnSep(parts[0], JoinOn(parts[1..], c), c);
      assert [parts[0]] + parts[1..] == parts;
    }
  }

  /** `key, value = token.split('=')`: succeeds exactly when the token holds a
      single '=', and then the token is `key + "=" + value`. */
  function KeyValue(token: string): (kv: Option<(string, string)>)
    ensures kv.Some? <==> Count(token, '=') == 1
    ensures kv.Some? ==> token == kv.value.0 + "=" + kv.value.1
    ensures kv.Some? ==> '=' !in kv.value.0 && '=' !in kv.value.1
  {
    var parts := SplitOn(token, '=');
    SplitOnJoin(token, '=');
    if |parts| == 2 then Some((parts[0], parts[1])) else None
  }

  /** A key and a value without '=' are split back out of `key=value`. */
  lemma {:induction false} KeyValueOf(k: string, v: string)
    requires '=' !in k && '=' !in v
    ensures KeyValue(k + "=" + v) == Some((k, v))
  {
    JoinOnSplit([k, v], '=');
    assert JoinOn([k, v], '=') == k + "=" + v by {
      assert [k, v][1..] == [v];
    }
  }

  // ---------------------------------------------------------------------------
  // re.sub("#", " ", s) and s.split(' (')[0]
  // ---------------------------------------------------------------------------

  /** `re.sub("#", " ", s)` */
  function ReplaceHash(s: string): (r: string)
    ensures |r| == |s|
    ensures forall i :: 0 <= i < |s| ==> r[i] == (if s[i] == '#' then ' ' else s[i])
  {
    if s == [] then [] else [if s[0] == '#' then ' ' else s[0]] + ReplaceHash(s[1..])
  }

  /** A `" ("` separator starts at position `i` of `d`. */
  predicate SepAt(d: string, i: nat) {
    i + 1 < |d| && d[i] == ' ' && d[i + 1] == '('
  }

  /** Position of the first `" ("` at or after `j`, or `|d|` if there is none. */
  function SepIndex(d: string, j: nat): (k: nat)
    requires j <= |d|
    requires forall i :: 0 <= i < j ==> !SepAt(d, i)
    ensures j <= k <= |d|
    ensures forall i :: 0 <= i < k ==> !SepAt(d, i)
    ensures k < |d| ==> SepAt(d, k)
    decreases |d| - j
  {
    if j + 1 >= |d| then |d|
    else if SepAt(d, j) then j
    else SepIndex(d, j + 1)
  }

  /** `d.split(' (')[0]`: the text before the first `" ("`, or all of `d`. */
  function DeviceName(d: string): string {
    d[..SepIndex(d, 0)]
  }

  /** The device name is a prefix of the label, holds no `" ("` except possibly
      straddling its end, and is followed by `" ("` whenever it is shorter. */
  lemma {:induction false} DeviceNamePrefix(d: string)
    ensures DeviceName(d) <= d
    ensures forall i :: 0 <= i < |DeviceName(d)| ==> !SepAt(d, i)
    ensures |DeviceName(d)| < |d| ==> SepAt(d, |DeviceName(d)|)
    ensures (forall i :: 0 <= i < |d| ==> !SepAt(d, i)) ==> DeviceName(d) == d
  {
  }

  // ---------------------------------------------------------------------------
  // int(s), float(s), str(n)
  // ---------------------------------------------------------------------------

  predicate IsDigit(c: char) { '0' <= c <= '9' }

  predicate AllDigits(s: string) { forall i :: 0 <= i < |s| ==> IsDigit(s[i]) }

  function DigitsValue(ds: string): nat
    requires AllDigits(ds)
  {
    if ds == [] then 0
    else DigitsValue(ds[..|ds| - 1]) * 10 + (ds[|ds| - 1] as int - '0' as int)
  }

  /** Python `int(s)` on a string: an optional sign followed by decimal digits.
      Anything else raises ValueError, modelled as None. */
  function ParseInt(s: string): Option<int> {
    if |s| > 1 && (s[0] == '-' || s[0] == '+') && AllDigits(s[1..]) then
      Some(if s[0] == '-' then -(DigitsValue(s[1..]) as int) else DigitsValue(s[1..]))
    else if |s| > 0 && AllDigits(s) then Some(DigitsValue(s))
    else None
  }

  function Pow10(n: nat): (p: nat)
    ensures p > 0
  {
    if n == 0 then 1 else 10 * Pow10(n - 1)
  }

  /** Python `float(s)` on a string: an integer literal, or digits around a
      single '.', with an optional sign. Anything else raises ValueError (None). */
  function ParseFloat(s: string): Option<real> {
    match ParseInt(s)
    case Some(n) => Some(n as real)
    case None =>
      var neg := |s| > 0 && s[0] == '-';
      var body := if |s| > 0 && (s[0] == '-' || s[0] == '+') then s[1..] else s;
      var parts := SplitOn(body, '.');
      if |parts| == 2 && AllDigits(parts[0]) && AllDigits(parts[1]) && |parts[0]| + |parts[1]| > 0 then
        var mag := DigitsValue(parts[0]) as real + DigitsValue(parts[1]) as real / Pow10(|parts[1]|) as real;
        Some(if neg then -mag else mag)
      else None
  }

  function DigitChar(d: nat): char
    requires d < 10
  {
    ('0' as int + d) as char
  }

  function NatToString(n: nat): (s: string)
    ensures |s| > 0 && AllDigits(s)
  {
    if n < 10 then [DigitChar(n)] else NatToString(n / 10) + [DigitChar(n % 10)]
  }

  /** Python `str(n)` for an int. */
  function IntToString(n: int): string {
    if n < 0 then "-" + NatToString(-n) else NatToString(n)
  }

  lemma {:induction false} NatToStringValue(n: nat)
    ensures DigitsValue(NatToString(n)) == n
  {
    if n >= 10 {
      var s := NatToString(n);
      NatToStringValue(n / 10);
      assert s[..|s| - 1] == NatToString(n / 10);
    }
  }

  /** `int(str(n)) == n` */
  lemma {:induction false} ParseIntToString(n: int)
    ensures ParseInt(IntToString(n)) == Some(n)
  {
    var s := IntToString(n);
    if n < 0 {
      var m := NatToString(-n);
      assert s == "-" + m && s[1..] == m;
      assert AllDigits(s[1..]) && |s| > 1 && s[0] == '-';
      NatToStringValue(-n);
    } else {
      NatToStringValue(n);
      assert |s| > 0 && AllDigits(s);
      assert s[0] != '-' && s[0] != '+';
    }
  }

  /** `str(n)` is a one-character string only for 0..9 and `-0` does not exist:
      `str(n) == [d]` for a digit `d` exactly when `n` is that digit's value. */
  lemma {:induction false} IntToStringDigit(n: int, d: nat)
    requires d < 10
    ensures IntToString(n) == [DigitChar(d)] <==> n == d
  {
    if n >= 10 {
      assert |NatToString(n)| >= 2 by {
        assert NatToString(n) == NatToString(n / 10) + [DigitChar(n % 10)];
      }
    }
  }
}
