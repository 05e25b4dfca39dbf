/**
 * String helpers the components use to derive file names and to test input:
 * `path.split('/').pop()`, `name.split('.')` without its last part, the
 * `.replace(/\.[^/.]+$/, "")` extension strip, `String.prototype.trim` and the
 * decimal rendering of a millisecond timestamp.
 */
module Text {

  predicate StartsWith(s: string, prefix: string) {
    |prefix| <= |s| && s[..|prefix|] == prefix
  }

  /** A string that starts with `prefix` agrees with it position by position. */
  lemma StartsWithAt(s: string, prefix: string, i: nat)
    requires StartsWith(s, prefix) && i < |prefix|
    ensures s[i] == prefix[i]
  {
    assert s[..|prefix|][i] == s[i];
  }

  /** `s.includes(t)`: `t` occurs somewhere in `s`. */
  predicate Contains(s: string, t: string)
    decreases |s|
  {
    StartsWith(s, t) || (s != [] && Contains(s[1..], t))
  }

  lemma {:induction false} ContainsInfix(a: string, t: string, b: string)
    ensures Contains(a + t + b, t)
    decreases |a|
  {
    if a == [] {
      assert (a + t + b)[..|t|] == t;
    } else {
      assert (a + t + b)[1..] == a[1..] + t + b;
      ContainsInfix(a[1..], t, b);
    }
  }

  // ---------------------------------------------------------------------------
  // URL pieces shared by the two link recognisers

  /** `[a-zA-Z0-9_-]`: the characters of a video id or a post slug. */
  predicate IsSlugChar(c: char) {
    ('a' <= c <= 'z') || ('A' <= c <= 'Z') || ('0' <= c <= '9') || c == '_' || c == '-'
  }

  predicate AllSlugChars(s: string) {
    forall i :: 0 <= i < |s| ==> IsSlugChar(s[i])
  }

  /** The characters a regular-expression `.` does not match (no `s` flag). */
  predicate IsLineTerminator(c: char) {
    c == '\n' || c == '\r' || c == '\U{2028}' || c == '\U{2029}'
  }

  /** `http://` or `https://`. */
  datatype Scheme = Http | Https

  function SchemeText(scheme: Scheme): (t: string)
    ensures StartsWith(t, "http") && t[|t| - 3..] == "://"
  {
    match scheme
    case Http => "http://"
    case Https => "https://"
  }

  // ---------------------------------------------------------------------------
  // Last path segment: `path.split('/').pop()`

  /** The text after the last '/' of `s` (all of `s` when it has none). */
  function LastSegment(s: string): (r: string)
    ensures |r| <= |s|
    ensures '/' !in r
    ensures |r| < |s| ==> s[|s| - |r| - 1] == '/'
  {
    if s == [] then []
    else if s[|s| - 1] == '/' then []
    else LastSegment(s[..|s| - 1]) + [s[|s| - 1]]
  }

  /** The last segment is the tail end of the path. */
  lemma {:induction false} LastSegmentIsSuffix(s: string)
    ensures LastSegment(s) == s[|s| - |LastSegment(s)|..]
    decreases |s|
  {
    if s != [] && s[|s| - 1] != '/' {
      var p := s[..|s| - 1];
      LastSegmentIsSuffix(p);
      assert p[|p| - |LastSegment(p)|..] + [s[|s| - 1]] == s[|s| - |LastSegment(p)| - 1..];
    }
  }

  /** `path.split('/').pop() || fallback`. */
  function FileNameFromPath(path: string, fallback: string): (r: string)
    ensures LastSegment(path) != "" ==> r == LastSegment(path)
    ensures LastSegment(path) == "" ==> r == fallback
    ensures fallback != "" ==> r != ""
    ensures '/' !in fallback ==> '/' !in r
  {
    var last := LastSegment(path);
    if last != "" then last else fallback
  }

  /** A server path `dir/name` yields `name`: the file name is read back from the path. */
  lemma {:induction false} LastSegmentOfJoin(dir: string, name: string)
    requires '/' !in name
    ensures LastSegment(dir + "/" + name) == name
    decreases |name|
  {
    var s := dir + "/" + name;
    if name == [] {
      assert s[|s| - 1] == '/';
    } else {
      var n := |name|;
      assert s[..|s| - 1] == dir + "/" + name[..n - 1];
      assert name[n - 1] in name;
      LastSegmentOfJoin(dir, name[..n - 1]);
      assert name[..n - 1] + [name[n - 1]] == name;
    }
  }

  /** With a non-empty name after the last '/', the fallback is never used. */
  lemma FileNameFromPathOfJoin(dir: string, name: string, fallback: string)
    requires name != "" && '/' !in name
    ensures FileNameFromPath(dir + "/" + name, fallback) == name
  {
    LastSegmentOfJoin(dir, name);
  }

  // ---------------------------------------------------------------------------
  // Base name: `const p = name.split('.'); p.pop(); p.join('.')`

  /** Everything before the last '.' of `s`; the empty string when `s` has no '.'. */
  function BeforeLastDot(s: string): (r: string)
    ensures |r| <= |s| && r == s[..|r|]
    ensures '.' in s ==> |r| < |s| && s[|r|] == '.' && '.' !in s[|r| + 1..]
    ensures '.' !in s ==> r == []
  {
    if s == [] then []
    else if s[|s| - 1] == '.' then s[..|s| - 1]
    else
      var r := BeforeLastDot(s[..|s| - 1]);
      assert s == s[..|s| - 1] + [s[|s| - 1]];
      assert '.' in s ==> '.' in s[..|s| - 1];
      assert '.' in s ==> s[|r| + 1..] == s[..|s| - 1][|r| + 1..] + [s[|s| - 1]];
      r
  }

  /** `base.ext` with an extension free of '.' gives back `base`. */
  lemma {:induction false} BeforeLastDotOfJoin(base: string, ext: string)
    requires '.' !in ext
    ensures BeforeLastDot(base + "." + ext) == base
    decreases |ext|
  {
    var s := base + "." + ext;
    if ext == [] {
      assert s[..|s| - 1] == base;
    } else {
      var n := |ext|;
      assert s[..|s| - 1] == base + "." + ext[..n - 1];
      assert ext[n - 1] in ext;
      BeforeLastDotOfJoin(base, ext[..n - 1]);
    }
  }

  // ---------------------------------------------------------------------------
  // Extension strip: `title.replace(/\.[^/.]+$/, "")`

  /** Length of the longest suffix of `s` holding neither '/' nor '.'. */
  function TrailingPlainRun(s: string): (n: nat)
    ensures n <= |s|
    ensures forall i :: |s| - n <= i < |s| ==> s[i] != '/' && s[i] != '.'
    ensures n < |s| ==> s[|s| - n - 1] == '/' || s[|s| - n - 1] == '.'
  {
    if s == [] || s[|s| - 1] == '/' || s[|s| - 1] == '.' then 0
    else 1 + TrailingPlainRun(s[..|s| - 1])
  }

  /**
   * Drops a final `.ext` whose `ext` is non-empty and holds no '/' and no '.';
   * any other string is left as it is.
   */
  function StripExtension(s: string): (r: string)
    ensures r == s || (|r| + 1 < |s| && r == s[..|r|] && s[|r|] == '.' &&
                       forall i :: |r| < i < |s| ==> s[i] != '/' && s[i] != '.')
  {
    var n := TrailingPlainRun(s);
    if 0 < n < |s| && s[|s| - n - 1] == '.' then s[..|s| - n - 1] else s
  }

  lemma {:induction false} TrailingPlainRunOfJoin(base: string, ext: string)
    requires forall i :: 0 <= i < |ext| ==> ext[i] != '/' && ext[i] != '.'
    ensures TrailingPlainRun(base + "." + ext) == |ext|
    decreases |ext|
  {
    var s := base + "." + ext;
    if ext != [] {
      var n := |ext|;
      assert s[..|s| - 1] == base + "." + ext[..n - 1];
      TrailingPlainRunOfJoin(base, ext[..n - 1]);
    }
  }

  /** The regex removes exactly a trailing `.ext`, so `base.ext` becomes `base`. */
  lemma StripExtensionOfJoin(base: string, ext: string)
    requires ext != []
    requires forall i :: 0 <= i < |ext| ==> ext[i] != '/' && ext[i] != '.'
    ensures StripExtension(base + "." + ext) == base
  {
    TrailingPlainRunOfJoin(base, ext);
    var s := base + "." + ext;
    assert s[|s| - |ext| - 1] == '.';
    assert s[..|s| - |ext| - 1] == base;
  }

  /** A name without any '.' is never changed by the extension strip. */
  lemma StripExtensionWithoutDot(s: string)
    requires '.' !in s
    ensures StripExtension(s) == s
  {
  }

  // ---------------------------------------------------------------------------
  // `String.prototype.trim`

  /** The ECMAScript WhiteSpace and LineTerminator code points that `trim` removes. */
  predicate IsTrimmable(c: char) {
    c == '\t' || c == '\n' || c == '\U{000B}' || c == '\U{000C}' || c == '\r' || c == ' ' ||
    c == '\U{00A0}' || c == '\U{1680}' || ('\U{2000}' <= c <= '\U{200A}') ||
    c == '\U{2028}' || c == '\U{2029}' || c == '\U{202F}' || c == '\U{205F}' ||
    c == '\U{3000}' || c == '\U{FEFF}'
  }

  function TrimStart(s: string): (r: string)
    ensures |r| <= |s| && r == s[|s| - |r|..]
    ensures forall i :: 0 <= i < |s| - |r| ==> IsTrimmable(s[i])
    ensures r != [] ==> !IsTrimmable(r[0])
  {
    if s != [] && IsTrimmable(s[0]) then TrimStart(s[1..]) else s
  }

  function TrimEnd(s: string): (r: string)
    ensures |r| <= |s| && r == s[..|r|]
    ensures forall i :: |r| <= i < |s| ==> IsTrimmable(s[i])
    ensures r != [] ==> !IsTrimmable(r[|r| - 1])
  {
    if s != [] && IsTrimmable(s[|s| - 1]) then TrimEnd(s[..|s| - 1]) else s
  }

  /** `String.prototype.trim`: whitespace and line terminators off both ends. */
  function Trim(s: string): (r: string)
    ensures |r| <= |s|
    ensures r != [] ==> !IsTrimmable(r[0]) && !IsTrimmable(r[|r| - 1])
  {
    TrimEnd(TrimStart(s))
  }

  /** Every character of `s` is one `trim` removes. */
  predicate IsBlank(s: string) {
    forall i :: 0 <= i < |s| ==> IsTrimmable(s[i])
  }

  lemma {:induction false} TrimStartEmptyIffBlank(s: string)
    ensures TrimStart(s) == [] <==> IsBlank(s)
    decreases |s|
  {
    if s != [] && IsTrimmable(s[0]) {
      TrimStartEmptyIffBlank(s[1..]);
      assert IsBlank(s[1..]) ==> IsBlank(s) by {
        if IsBlank(s[1..]) {
          forall i | 0 <= i < |s| ensures IsTrimmable(s[i]) {
            if i > 0 { assert s[i] == s[1..][i - 1]; }
          }
        }
      }
    }
  }

  lemma {:induction false} TrimEndEmptyIffBlank(s: string)
    ensures TrimEnd(s) == [] <==> IsBlank(s)
    decreases |s|
  {
    if s != [] && IsTrimmable(s[|s| - 1]) {
      var p := s[..|s| - 1];
      TrimEndEmptyIffBlank(p);
      assert IsBlank(p) ==> IsBlank(s) by {
        if IsBlank(p) {
          forall i | 0 <= i < |s| ensures IsTrimmable(s[i]) {
            if i < |s| - 1 { assert s[i] == p[i]; }
          }
        }
      }
    }
  }

  /** `s.trim() === ""` exactly when `s` is made of whitespace and line terminators only. */
  lemma TrimEmptyIffBlank(s: string)
    ensures Trim(s) == [] <==> IsBlank(s)
  {
    var t := TrimStart(s);
    TrimStartEmptyIffBlank(s);
    if t != [] {
      TrimEndEmptyIffBlank(t);
      assert !IsTrimmable(t[0]);
    }
  }

  /**
   * `trim()` is the input with only trimmable characters cut from its two ends:
   * it is the infix starting where `TrimStart` stopped.
   */
  lemma TrimIsInfix(s: string)
    ensures |s| - |TrimStart(s)| + |Trim(s)| <= |s|
    ensures Trim(s) == s[|s| - |TrimStart(s)|..|s| - |TrimStart(s)| + |Trim(s)|]
    ensures forall i :: 0 <= i < |s| - |TrimStart(s)| ==> IsTrimmable(s[i])
    ensures forall i :: |s| - |TrimStart(s)| + |Trim(s)| <= i < |s| ==> IsTrimmable(s[i])
  {
    var t := TrimStart(s);
    var r := TrimEnd(t);
    assert Trim(s) == r;
    TrimmedEnds(s, t, r);
  }

  /** Cutting trimmable characters off the front and then off the back leaves an infix. */
  lemma TrimmedEnds(s: string, t: string, r: string)
    requires |t| <= |s| && t == s[|s| - |t|..]
    requires forall i :: 0 <= i < |s| - |t| ==> IsTrimmable(s[i])
    requires |r| <= |t| && r == t[..|r|]
    requires forall j :: |r| <= j < |t| ==> IsTrimmable(t[j])
    ensures |s| - |t| + |r| <= |s| && r == s[|s| - |t|..|s| - |t| + |r|]
    ensures forall i :: |s| - |t| + |r| <= i < |s| ==> IsTrimmable(s[i])
  {
    var k := |s| - |t|;
    forall i | k + |r| <= i < |s|
      ensures IsTrimmable(s[i])
    {
      assert s[i] == t[i - k];
    }
  }

  // ---------------------------------------------------------------------------
  // Decimal rendering: `${Date.now()}`

  function DigitChar(d: nat): (c: char)
    requires d < 10
    ensures '0' <= c <= '9'
  {
    ['0', '1', '2', '3', '4', '5', '6', '7', '8', '9'][d]
  }

  function DigitValue(c: char): nat
    requires '0' <= c <= '9'
  {
    (c as int - '0' as int) as nat
  }

  /** The decimal digits of `n`, most significant first, without leading zeros. */
  function NatToDecimal(n: nat): (r: string)
    ensures r != []
    ensures forall i :: 0 <= i < |r| ==> '0' <= r[i] <= '9'
    ensures |r| > 1 ==> r[0] != '0'
  {
    if n < 10 then [DigitChar(n)]
    else NatToDecimal(n / 10) + [DigitChar(n % 10)]
  }

  /** The number a string of decimal digits denotes. */
  function DecimalValue(s: string): nat
    requires forall i :: 0 <= i < |s| ==> '0' <= s[i] <= '9'
  {
    if s == [] then 0 else 10 * DecimalValue(s[..|s| - 1]) + DigitValue(s[|s| - 1])
  }

  /** The rendered timestamp reads back as the same number. */
  lemma {:induction false} DecimalRoundTrip(n: nat)
    ensures DecimalValue(NatToDecimal(n)) == n
    decreases n
  {
    var r := NatToDecimal(n);
    if n < 10 {
      assert DigitValue(DigitChar(n)) == n;
    } else {
      DecimalRoundTrip(n / 10);
      assert r[..|r| - 1] == NatToDecimal(n / 10);
      assert DigitValue(DigitChar(n % 10)) == n % 10;
    }
  }
}
