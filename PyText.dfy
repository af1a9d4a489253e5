/**
 * The parts of Python's string handling that the handlers and the load tests
 * rely on: `str.rfind`, `posixpath.basename`, `posixpath.splitext`,
 * `str.lower`, `str(int)` (f-string formatting) and `int(str)`.
 */
module PyText {
  import opened Wrappers

  /** `s.rfind(c)` for a single character: the last index of `c` in `s`, or -1. */
  function RFind(s: string, c: char): (r: int)
    ensures -1 <= r < |s|
    ensures r >= 0 ==> s[r] == c
    ensures forall k :: r < k < |s| ==> s[k] != c
  {
    if s == [] then -1
    else if s[|s| - 1] == c then |s| - 1
    else RFind(s[..|s| - 1], c)
  }

  /** `s.startswith(p)`. */
  predicate StartsWith(s: string, p: string)
  {
    |p| <= |s| && s[..|p|] == p
  }

  /** `s.endswith(p)`. */
  predicate EndsWith(s: string, p: string)
  {
    |p| <= |s| && s[|s| - |p|..] == p
  }

  /** `os.path.basename(p)` on a POSIX system: everything after the last '/'. */
  function Basename(p: string): (b: string)
    ensures |b| <= |p| && b == p[|p| - |b|..]
    ensures forall i :: 0 <= i < |b| ==> b[i] != '/'
  {
    p[RFind(p, '/') + 1..]
  }

  /** A path without '/' is its own base name, and the base name is the whole last component. */
  lemma BasenameIsLastComponent(p: string)
    ensures '/' !in Basename(p)
    ensures var b := Basename(p); b == p || (|b| < |p| && p[|p| - |b| - 1] == '/')
  {
    var b := Basename(p);
    if '/' !in p {
      RFindAbsent(p, '/');
    }
  }

  /** The base name of "<d>/<name>" is `name` when `name` holds no '/'. */
  lemma BasenameOfJoined(d: string, name: string)
    requires '/' !in name
    ensures Basename(d + "/" + name) == name
  {
    var p := d + "/" + name;
    forall k | |d| < k < |p| ensures p[k] != '/' {
      assert p[k] == name[k - |d| - 1];
    }
    RFindIsLast(p, '/', |d|);
    assert p[|d| + 1..] == name;
  }

  /** True when `p[lo..hi]` holds some character other than '.'. */
  predicate HasNonDot(p: string, lo: int, hi: int)
    requires 0 <= lo <= hi <= |p|
  {
    exists k :: lo <= k < hi && p[k] != '.'
  }

  /**
   * `os.path.splitext(p)` on a POSIX system: the extension is the text from the
   * last '.' of the last path component, unless everything before that dot in
   * the component is dots (so ".png" and "..a" have no extension).
   */
  function SplitExt(p: string): (parts: (string, string))
  {
    var sep := RFind(p, '/');
    var dot := RFind(p, '.');
    if dot > sep && HasNonDot(p, sep + 1, dot) then (p[..dot], p[dot..]) else (p, [])
  }

  /** The extension part of `SplitExt` (`os.path.splitext(p)[-1]`). */
  function Extension(p: string): string
  {
    SplitExt(p).1
  }

  /** `os.path.splitext(os.path.basename(p))[0]`: the file name without directory and final extension. */
  function Stem(p: string): string
  {
    SplitExt(Basename(p)).0
  }

  /** `str.lower` on one character, for the ASCII letters. */
  function LowerChar(c: char): char
  {
    if 'A' <= c <= 'Z' then (c as int + 32) as char else c
  }

  /** `s.lower()`, for the ASCII letters. */
  function Lower(s: string): string
  {
    seq(|s|, i requires 0 <= i < |s| => LowerChar(s[i]))
  }

  /** The decimal digit character for `d`. */
  function DigitChar(d: nat): char
    requires d < 10
  {
    ('0' as int + d) as char
  }

  predicate IsDigit(c: char)
  {
    '0' <= c <= '9'
  }

  /** `str(n)` for a natural number: its decimal digits, most significant first. */
  function NatToString(n: nat): (s: string)
    ensures |s| > 0
  {
    if n < 10 then [DigitChar(n)] else NatToString(n / 10) + [DigitChar(n % 10)]
  }

  /** `str(i)` (and `f"{i}"`) for any integer: a '-' in front of negative numbers. */
  function IntToString(i: int): (s: string)
    ensures s != [] && (s[0] == '-' <==> i < 0)
  {
    NatToStringDigits(if i < 0 then -i else i);
    if i < 0 then "-" + NatToString(-i) else NatToString(i)
  }

  /** The value of a string of decimal digits, most significant first. */
  function DigitsValue(s: string): nat
    requires AllDigits(s)
  {
    if s == [] then 0
    else
      assert IsDigit(s[|s| - 1]);
      DigitsValue(s[..|s| - 1]) * 10 + (s[|s| - 1] as int - '0' as int)
  }

  /** The characters that `int()` strips from both ends (the ASCII ones among Python's whitespace). */
  predicate IsSpace(c: char)
  {
    c == ' ' || c == '\t' || c == '\n' || c == '\r' || c == '\U{B}' || c == '\U{C}'
    || ('\U{1C}' <= c <= '\U{1F}')
  }

  function TrimLeft(s: string): string
  {
    if s != [] && IsSpace(s[0]) then TrimLeft(s[1..]) else s
  }

  function TrimRight(s: string): string
  {
    if s != [] && IsSpace(s[|s| - 1]) then TrimRight(s[..|s| - 1]) else s
  }

  /** `s.strip()` for the whitespace above. */
  function Strip(s: string): string
  {
    TrimRight(TrimLeft(s))
  }

  predicate AllDigits(s: string)
  {
    forall i :: 0 <= i < |s| ==> IsDigit(s[i])
  }

  /**
   * `int(s)` for a string, base 10: surrounding whitespace is ignored, then an
   * optional sign and one or more digits; anything else is Python's ValueError,
   * shown here as None.
   */
  function ParseInt(s: string): Option<int>
  {
    var t := Strip(s);
    var negative := t != [] && t[0] == '-';
    var digits := if t != [] && (t[0] == '-' || t[0] == '+') then t[1..] else t;
    if digits != [] && AllDigits(digits) then
      var magnitude: int := DigitsValue(digits);
      Some(if negative then -magnitude else magnitude)
    else None
  }

  // ---------------------------------------------------------------------------
  // Properties

  /** Splitting loses nothing: root and extension put back together give the path. */
  lemma SplitExtJoins(p: string)
    ensures SplitExt(p).0 + SplitExt(p).1 == p
  {
    var sep := RFind(p, '/');
    var dot := RFind(p, '.');
    if dot > sep && HasNonDot(p, sep + 1, dot) {
      assert p[..dot] + p[dot..] == p;
    }
  }

  /**
   * The extension is empty or a single final extension: one leading '.', no
   * other '.', no '/'; and when there is one, the root keeps a character other
   * than '.' in its last component.
   */
  lemma SplitExtIsFinalExtension(p: string)
    ensures var ext := SplitExt(p).1;
      ext == [] || (ext[0] == '.' && '.' !in ext[1..] && '/' !in ext)
  {
    var sep := RFind(p, '/');
    var dot := RFind(p, '.');
    if dot > sep && HasNonDot(p, sep + 1, dot) {
      var ext := p[dot..];
      forall k | 0 <= k < |ext[1..]| ensures ext[1..][k] != '.' {
        assert ext[1..][k] == p[dot + 1 + k];
      }
      forall k | 0 <= k < |ext| ensures ext[k] != '/' {
        assert ext[k] == p[dot + k];
      }
    }
  }

  /**
   * Only the final extension is removed: a name whose stem holds something
   * other than dots, followed by '.' and an extension free of '.' and '/',
   * splits exactly there ("a.b" + ".jpg" gives ("a.b", ".jpg")).
   */
  lemma SplitExtOfAppended(root: string, ext: string)
    requires '/' !in root && exists k :: 0 <= k < |root| && root[k] != '.'
    requires '.' !in ext && '/' !in ext
    ensures SplitExt(root + "." + ext) == (root, "." + ext)
  {
    var p := root + "." + ext;
    var dot := |root|;
    assert p[dot] == '.';
    forall k | dot < k < |p| ensures p[k] != '.' && p[k] != '/' {
      assert p[k] == ext[k - dot - 1];
    }
    RFindIsLast(p, '.', dot);
    forall k | 0 <= k < |p| ensures p[k] != '/' {
      if k < dot { assert p[k] == root[k]; }
    }
    RFindAbsent(p, '/');
    var w :| 0 <= w < |root| && root[w] != '.';
    assert p[w] == root[w];
    assert HasNonDot(p, 0, dot);
    assert p[..dot] == root;
    assert p[dot..] == "." + ext;
  }

  /** A text put between a prefix and a suffix starts with the one, ends with the other, and is found between them. */
  lemma Affixes(a: string, m: string, z: string)
    ensures var o := a + m + z;
      StartsWith(o, a) && EndsWith(o, z) && o[|a|..|o| - |z|] == m
  {
    var o := a + m + z;
    assert o[..|a|] == a;
    assert o[|o| - |z|..] == z;
  }

  /** The stem drops the directory and only the final extension: "dir/a.b.jpg" gives "a.b". */
  lemma StemExample()
    ensures Stem("dir/a.b.jpg") == "a.b"
  {
    var p := "dir/a.b.jpg";
    RFindIsLast(p, '/', 3);
    assert Basename(p) == p[4..] == "a.b.jpg";
    assert "a.b"[0] != '.';
    SplitExtOfAppended("a.b", "jpg");
    assert "a.b" + "." + "jpg" == "a.b.jpg";
  }

  /** `RFind` finds an occurrence with nothing equal after it. */
  lemma {:induction false} RFindIsLast(s: string, c: char, i: int)
    requires 0 <= i < |s| && s[i] == c
    requires forall k :: i < k < |s| ==> s[k] != c
    ensures RFind(s, c) == i
  {
    if i < |s| - 1 {
      RFindIsLast(s[..|s| - 1], c, i);
    }
  }

  /** `RFind` of a character that does not occur is -1. */
  lemma RFindAbsent(s: string, c: char)
    requires forall k :: 0 <= k < |s| ==> s[k] != c
    ensures RFind(s, c) == -1
  {
  }

  /** Lower-casing keeps '.' and '/' where they were and adds none. */
  lemma {:induction false} RFindLower(s: string, c: char)
    requires c == '.' || c == '/'
    ensures RFind(Lower(s), c) == RFind(s, c)
  {
    if s != [] {
      var t := s[..|s| - 1];
      assert Lower(s)[..|s| - 1] == Lower(t);
      RFindLower(t, c);
    }
  }

  /** Lower-casing twice is lower-casing once. */
  lemma LowerIdempotent(s: string)
    ensures Lower(Lower(s)) == Lower(s)
  {
  }

  /** `splitext` commutes with `lower`: lower-casing a path lower-cases its root and its extension. */
  lemma SplitExtLower(p: string)
    ensures SplitExt(Lower(p)) == (Lower(SplitExt(p).0), Lower(SplitExt(p).1))
  {
    var q := Lower(p);
    RFindLower(p, '/');
    RFindLower(p, '.');
    var sep := RFind(p, '/');
    var dot := RFind(p, '.');
    assert Lower([]) == [];
    if dot > sep {
      if HasNonDot(p, sep + 1, dot) {
        var k :| sep + 1 <= k < dot && p[k] != '.';
        assert q[k] != '.';
        assert HasNonDot(q, sep + 1, dot);
        assert q[..dot] == Lower(p[..dot]);
        assert q[dot..] == Lower(p[dot..]);
      }
    }
  }

  /** `str(n)` is made of decimal digits only. */
  lemma {:induction false} NatToStringDigits(n: nat)
    ensures AllDigits(NatToString(n))
  {
    if n >= 10 {
      NatToStringDigits(n / 10);
      var s := NatToString(n);
      forall i | 0 <= i < |s| ensures IsDigit(s[i]) {
        if i < |s| - 1 {
          assert s[i] == NatToString(n / 10)[i];
        }
      }
    }
  }

  /** Reading back the digits of `n` gives `n`. */
  lemma {:induction false} DigitsRoundTrip(n: nat)
    ensures AllDigits(NatToString(n)) && DigitsValue(NatToString(n)) == n
  {
    NatToStringDigits(n);
    if n >= 10 {
      var s := NatToString(n);
      assert s[..|s| - 1] == NatToString(n / 10);
      DigitsRoundTrip(n / 10);
    }
  }

  /** `int(str(i)) == i`: formatting an integer and parsing it back is the identity. */
  lemma IntStringRoundTrip(i: int)
    ensures ParseInt(IntToString(i)) == Some(i)
  {
    var s := IntToString(i);
    var d := NatToString(if i < 0 then -i else i);
    DigitsRoundTrip(if i < 0 then -i else i);
    assert s[0] == '-' || IsDigit(s[0]);
    assert TrimLeft(s) == s;
    assert IsDigit(s[|s| - 1]);
    assert Strip(s) == s;
    if i < 0 {
      assert s[1..] == d;
    }
  }

  /** `str(i)` holds only digits and '-'. */
  lemma IntToStringChars(i: int)
    ensures forall j :: 0 <= j < |IntToString(i)| ==> IntToString(i)[j] == '-' || IsDigit(IntToString(i)[j])
  {
    NatToStringDigits(if i < 0 then -i else i);
  }

  /** Different integers print differently. */
  lemma IntToStringInjective(i: int, j: int)
    requires IntToString(i) == IntToString(j)
    ensures i == j
  {
    IntStringRoundTrip(i);
    IntStringRoundTrip(j);
  }
}
