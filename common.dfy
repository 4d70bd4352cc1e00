/** Building blocks shared by the browser and server models: optional values and
    results, the whitespace classes that JavaScript's `trim` and Python's `strip`
    remove, and the decimal renderings the code relies on (`str(int)`, `{:,.2f}`,
    en-US `toLocaleString`). */
module Common {

  datatype Option<+T> = None | Some(value: T)

  datatype Result<+T, +E> = Ok(value: T) | Err(error: E)

  /** A dictionary entry as Python's `d.get(key, default)` sees it: the key may be
      missing, present with `None`, or present with a value. */
  datatype Slot<+T> = Absent | Present(entry: Option<T>)
  {
    /** `d.get(key)`: a missing key and a `None` look the same. */
    function Get(): Option<T>
    {
      if Absent? then None else entry
    }

    /** `d.get(key, default)`: the default replaces only a missing key. */
    function GetOr(default: T): (r: Option<T>)
      ensures Absent? ==> r == Some(default)
      ensures Present? ==> r == entry
    {
      if Absent? then Some(default) else entry
    }
  }

  /** An error response raised by a route (FastAPI's `HTTPException`). */
  datatype HttpError = HttpError(status: int, detail: string)

  /** What an awaited HTTP call gives the browser code: the response body, or a
      rejection whose `err.response.data.detail` may be present. */
  datatype Remote<+T> = Done(value: T) | Failed(detail: Option<string>)

  /** `err?.response?.data?.detail || fallback`: the server's detail when it is a
      non-empty string, the fixed message otherwise. */
  function DetailOr(detail: Option<string>, fallback: string): (m: string)
  {
    if detail.Some? && detail.value != "" then detail.value else fallback
  }

  // ---------------------------------------------------------------------------
  // Duplicate-free sequences
  // ---------------------------------------------------------------------------

  predicate Distinct<T(==)>(s: seq<T>)
  {
    forall i, j :: 0 <= i < j < |s| ==> s[i] != s[j]
  }

  /** A sequence has as many distinct elements as entries exactly when it has no duplicate. */
  lemma {:induction false} DistinctIffCardinality<T>(s: seq<T>)
    ensures |set x | x in s| <= |s|
    ensures Distinct(s) <==> |set x | x in s| == |s|
  {
    if s != [] {
      var rest := s[1..];
      DistinctIffCardinality(rest);
      var sr := set x | x in rest;
      assert (set x | x in s) == sr + {s[0]};
      if s[0] in rest {
        assert (set x | x in s) == sr;
        var j :| 0 <= j < |rest| && rest[j] == s[0];
        assert s[0] == s[j + 1];
        assert !Distinct(s);
      } else {
        assert |set x | x in s| == |sr| + 1;
        if Distinct(s) {
          assert Distinct(rest) by {
            forall i, j | 0 <= i < j < |rest| ensures rest[i] != rest[j] {
              assert rest[i] == s[i + 1] && rest[j] == s[j + 1];
            }
          }
        } else {
          var i, j :| 0 <= i < j < |s| && s[i] == s[j];
          assert i > 0;
          assert rest[i - 1] == rest[j - 1];
        }
      }
    }
  }

  // ---------------------------------------------------------------------------
  // Whitespace and trimming
  // ---------------------------------------------------------------------------

  /** Unicode category Zs (space separators), shared by both languages. */
  predicate IsSpaceSeparator(c: char)
  {
    c == ' ' || c == '\U{A0}' || c == '\U{1680}' || ('\U{2000}' <= c <= '\U{200A}')
    || c == '\U{202F}' || c == '\U{205F}' || c == '\U{3000}'
  }

  /** What `String.prototype.trim` removes: ECMAScript WhiteSpace and LineTerminator. */
  predicate IsJsSpace(c: char)
  {
    c == '\t' || c == '\n' || c == '\U{B}' || c == '\U{C}' || c == '\r'
    || c == '\U{FEFF}' || c == '\U{2028}' || c == '\U{2029}' || IsSpaceSeparator(c)
  }

  /** What Python's `str.strip()` removes: the characters for which `str.isspace()` holds. */
  predicate IsPySpace(c: char)
  {
    ('\t' <= c <= '\r') || ('\U{1C}' <= c <= '\U{1F}') || c == '\U{85}'
    || c == '\U{2028}' || c == '\U{2029}' || IsSpaceSeparator(c)
  }

  /** The end of the run of `ws` characters that starts at `i`. */
  function SpaceRunEnd(s: string, ws: char -> bool, i: nat): (n: nat)
    requires i <= |s|
    ensures i <= n <= |s|
    ensures forall k :: i <= k < n ==> ws(s[k])
    ensures n < |s| ==> !ws(s[n])
    decreases |s| - i
  {
    if i < |s| && ws(s[i]) then SpaceRunEnd(s, ws, i + 1) else i
  }

  /** The start of the run of `ws` characters that ends at `j`, looking no
      further back than `lo`. */
  function SpaceRunStart(s: string, ws: char -> bool, lo: nat, j: nat): (n: nat)
    requires lo <= j <= |s|
    ensures lo <= n <= j
    ensures forall k :: n <= k < j ==> ws(s[k])
    ensures lo < n ==> !ws(s[n - 1])
    decreases j
  {
    if lo < j && ws(s[j - 1]) then SpaceRunStart(s, ws, lo, j - 1) else j
  }

  /** How many leading `ws` characters `Trim` cuts off. */
  function TrimOffset(s: string, ws: char -> bool): (i: nat)
    ensures i <= |s|
  {
    SpaceRunEnd(s, ws, 0)
  }

  /** Both ends trimmed: the leading run of `ws` characters is cut off, then the
      trailing run of what remains. */
  function Trim(s: string, ws: char -> bool): string
  {
    var i := TrimOffset(s, ws);
    s[i..SpaceRunStart(s, ws, i, |s|)]
  }

  /** The trimmed string is the slice of `s` that starts at `TrimOffset`, it
      starts and ends with a non-space character, and everything cut off on
      either side is space. */
  lemma TrimSpec(s: string, ws: char -> bool)
    ensures var r := Trim(s, ws);
      && TrimOffset(s, ws) + |r| <= |s|
      && r == s[TrimOffset(s, ws)..TrimOffset(s, ws) + |r|]
      && (forall k :: 0 <= k < TrimOffset(s, ws) ==> ws(s[k]))
      && (forall k :: TrimOffset(s, ws) + |r| <= k < |s| ==> ws(s[k]))
      && (r != [] ==> !ws(r[0]) && !ws(r[|r| - 1]))
  {
    var i := TrimOffset(s, ws);
    var j := SpaceRunStart(s, ws, i, |s|);
    var r := Trim(s, ws);
    assert |r| == j - i;
    if r != [] {
      assert r[0] == s[i] && r[|r| - 1] == s[j - 1];
    }
  }

  /** Trimming yields the empty string exactly when every character is space. */
  lemma TrimEmptyIffBlank(s: string, ws: char -> bool)
    ensures Trim(s, ws) == [] <==> forall k :: 0 <= k < |s| ==> ws(s[k])
  {
    var r := Trim(s, ws);
    TrimSpec(s, ws);
    if r != [] {
      assert s[TrimOffset(s, ws)] == r[0];
    }
  }

  /** A string that neither starts nor ends with space is its own trim. */
  lemma TrimKeepsUnpadded(s: string, ws: char -> bool)
    requires s != [] && !ws(s[0]) && !ws(s[|s| - 1])
    ensures Trim(s, ws) == s
  {
    assert TrimOffset(s, ws) == 0;
    assert SpaceRunStart(s, ws, 0, |s|) == |s|;
  }

  /** Trimming a second time changes nothing. */
  lemma TrimIdempotent(s: string, ws: char -> bool)
    ensures Trim(Trim(s, ws), ws) == Trim(s, ws)
  {
    var r := Trim(s, ws);
    TrimSpec(s, ws);
    if r != [] {
      TrimKeepsUnpadded(r, ws);
    }
  }

  // ---------------------------------------------------------------------------
  // Prefixes and suffixes
  // ---------------------------------------------------------------------------

  predicate StartsWith(s: string, p: string)
  {
    |p| <= |s| && s[..|p|] == p
  }

  predicate EndsWith(s: string, p: string)
  {
    |p| <= |s| && s[|s| - |p|..] == p
  }

  lemma PrefixOfAppend(a: string, b: string)
    ensures StartsWith(a + b, a)
  {
    assert (a + b)[..|a|] == a;
  }

  lemma SuffixOfAppend(a: string, b: string)
    ensures EndsWith(a + b, b)
  {
    assert (a + b)[|a|..] == b;
  }

  lemma KeepsPrefix(a: string, b: string, p: string)
    requires StartsWith(a, p)
    ensures StartsWith(a + b, p)
  {
    assert (a + b)[..|p|] == a[..|p|];
  }

  lemma StartsWithTrans(s: string, p: string, q: string)
    requires StartsWith(s, p) && StartsWith(p, q)
    ensures StartsWith(s, q)
  {
    assert s[..|q|] == p[..|q|];
  }

  // ---------------------------------------------------------------------------
  // Decimal digits
  // ---------------------------------------------------------------------------

  predicate IsDigit(c: char)
  {
    '0' <= c <= '9'
  }

  predicate AllDigits(s: string)
  {
    forall k :: 0 <= k < |s| ==> IsDigit(s[k])
  }

  function DigitChar(d: nat): (c: char)
    requires d < 10
    ensures IsDigit(c)
  {
    (48 + d) as char
  }

  /** The number a run of ASCII digits denotes, read most significant first. */
  function DigitsValue(s: string): nat
    requires AllDigits(s)
  {
    if s == [] then 0 else DigitsValue(s[..|s| - 1]) * 10 + (s[|s| - 1] as int - 48)
  }

  /** Python's `str(n)` / JavaScript's template rendering of a non-negative integer. */
  function NatToString(n: nat): (s: string)
    ensures s != [] && AllDigits(s)
    ensures |s| > 1 ==> s[0] != '0'
  {
    if n < 10 then [DigitChar(n)] else NatToString(n / 10) + [DigitChar(n % 10)]
  }

  /** Reading back the rendering of `n` gives `n`. */
  lemma {:induction false} NatToStringRoundTrip(n: nat)
    ensures DigitsValue(NatToString(n)) == n
  {
    if n >= 10 {
      var s := NatToString(n);
      assert s[..|s| - 1] == NatToString(n / 10);
      NatToStringRoundTrip(n / 10);
    }
  }

  /** Rendering of a signed integer. */
  function IntToString(i: int): (s: string)
    ensures s != []
    ensures i < 0 <==> s[0] == '-'
  {
    if i < 0 then "-" + NatToString(-i) else NatToString(i)
  }

  // ---------------------------------------------------------------------------
  // Money: amounts are whole cents
  // ---------------------------------------------------------------------------

  function Pow10(k: nat): (p: nat)
    ensures p >= 1
  {
    if k == 0 then 1 else 10 * Pow10(k - 1)
  }

  /** `n` written with exactly `width` digits, leading zeros included. */
  function Padded(n: nat, width: nat): (s: string)
    ensures |s| == width && AllDigits(s)
  {
    if width == 0 then "" else Padded(n / 10, width - 1) + [DigitChar(n % 10)]
  }

  /** `n` with a comma between every group of three digits (`{:,}`, en-US grouping). */
  function Grouped(n: nat): (s: string)
    ensures s != []
  {
    if n < 1000 then NatToString(n) else Grouped(n / 1000) + "," + Padded(n % 1000, 3)
  }

  function WithoutCommas(s: string): (r: string)
    ensures |r| <= |s|
  {
    if s == [] then [] else (if s[0] == ',' then [] else [s[0]]) + WithoutCommas(s[1..])
  }

  lemma {:induction false} WithoutCommasAppend(a: string, b: string)
    ensures WithoutCommas(a + b) == WithoutCommas(a) + WithoutCommas(b)
  {
    if a != [] {
      var head := if a[0] == ',' then [] else [a[0]];
      calc {
        WithoutCommas(a + b);
        { assert (a + b)[0] == a[0]; assert (a + b)[1..] == a[1..] + b; }
        head + WithoutCommas(a[1..] + b);
        { WithoutCommasAppend(a[1..], b); }
        head + (WithoutCommas(a[1..]) + WithoutCommas(b));
      }
    } else {
      assert a + b == b;
    }
  }

  lemma {:induction false} WithoutCommasOfDigits(s: string)
    requires AllDigits(s)
    ensures WithoutCommas(s) == s
  {
    if s != [] {
      WithoutCommasOfDigits(s[1..]);
    }
  }

  /** Appending `width` more digits to the rendering of a positive `q` renders `q * 10^width + r`. */
  lemma {:induction false} NatToStringShift(q: nat, r: nat, width: nat)
    requires q > 0 && r < Pow10(width)
    ensures NatToString(q * Pow10(width) + r) == NatToString(q) + Padded(r, width)
  {
    if width > 0 {
      ShiftDigit(q, r, width);
      NatToStringShift(q, r / 10, width - 1);
    }
  }

  /** The arithmetic behind one step of `NatToStringShift`. */
  lemma ShiftDigit(q: nat, r: nat, width: nat)
    requires q > 0 && width > 0 && r < Pow10(width)
    ensures q * Pow10(width) + r >= 10
    ensures (q * Pow10(width) + r) / 10 == q * Pow10(width - 1) + r / 10
    ensures (q * Pow10(width) + r) % 10 == r % 10
    ensures r / 10 < Pow10(width - 1)
  {
    var p := Pow10(width - 1);
    var m := q * p;
    assert q * Pow10(width) == 10 * m by {
      assert Pow10(width) == 10 * p;
    }
    assert m >= 1;
    assert q * Pow10(width) + r == 10 * (m + r / 10) + r % 10;
  }

  /** Dropping the group separators from `Grouped(n)` gives the plain rendering of `n`. */
  lemma {:induction false} GroupedDigits(n: nat)
    ensures WithoutCommas(Grouped(n)) == NatToString(n)
  {
    if n < 1000 {
      WithoutCommasOfDigits(NatToString(n));
    } else {
      var q, r := n / 1000, n % 1000;
      calc {
        WithoutCommas(Grouped(n));
        WithoutCommas(Grouped(q) + "," + Padded(r, 3));
        { WithoutCommasAppend(Grouped(q) + ",", Padded(r, 3)); }
        WithoutCommas(Grouped(q) + ",") + WithoutCommas(Padded(r, 3));
        { WithoutCommasAppend(Grouped(q), ","); WithoutCommasOfDigits(Padded(r, 3)); }
        WithoutCommas(Grouped(q)) + Padded(r, 3);
        { GroupedDigits(q); }
        NatToString(q) + Padded(r, 3);
        { assert Pow10(3) == 1000; NatToStringShift(q, r, 3); }
        NatToString(q * 1000 + r);
      }
    }
  }

  /** Python's `f"{amount:,.2f}"` for an amount of `cents` hundredths. */
  function PythonMoney(cents: nat): (s: string)
    ensures |s| >= 4
    ensures EndsWith(s, Padded(cents % 100, 2))
    ensures s[|s| - 3] == '.'
  {
    Grouped(cents / 100) + "." + Padded(cents % 100, 2)
  }

  /** en-US `Number.prototype.toLocaleString()` for an amount of `cents` hundredths:
      grouped units, and the fraction only when non-zero, without trailing zeros. */
  function LocaleMoney(cents: nat): (s: string)
    ensures cents % 100 == 0 ==> s == Grouped(cents / 100)
    ensures cents % 100 != 0 ==> StartsWith(s, Grouped(cents / 100) + ".")
  {
    var units := Grouped(cents / 100);
    if cents % 100 == 0 then units
    else if cents % 10 == 0 then units + "." + [DigitChar(cents / 10 % 10)]
    else units + "." + Padded(cents % 100, 2)
  }
}
