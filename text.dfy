/** The handful of JavaScript string and number primitives the configurator
    relies on: `includes`, ASCII `toLowerCase`, `trim`, `split` on one
    character, `replace` of the first occurrence, `substring`, `padStart`,
    `parseInt` and number-to-string conversion in a radix. */
module Text {
  import opened Wrappers

  // ---------------------------------------------------------------------------
  // Substring search (`String.prototype.includes`)
  // ---------------------------------------------------------------------------

  /** `p` occurs in `s` starting at index `i`. */
  predicate OccursAt(s: string, p: string, i: int) {
    0 <= i && i + |p| <= |s| && s[i..i + |p|] == p
  }

  /** Moving past a first character that does not start `p` keeps every occurrence. */
  lemma OccursShift(s: string, p: string)
    requires 1 <= |p| <= |s| && s[..|p|] != p
    ensures (exists i :: OccursAt(s, p, i)) <==> (exists j :: OccursAt(s[1..], p, j))
  {
    forall i | OccursAt(s, p, i) ensures OccursAt(s[1..], p, i - 1) {
      assert i != 0;
      assert s[1..][i - 1..i - 1 + |p|] == s[i..i + |p|];
    }
    forall j | OccursAt(s[1..], p, j) ensures OccursAt(s, p, j + 1) {
      assert s[1..][j..j + |p|] == s[j + 1..j + 1 + |p|];
    }
  }

  /** `s.includes(p)`: true exactly when `p` occurs somewhere in `s`. */
  function Contains(s: string, p: string): (r: bool)
    ensures r <==> exists i :: OccursAt(s, p, i)
    decreases |s|
  {
    if |p| > |s| then false
    else if s[..|p|] == p then (assert OccursAt(s, p, 0); true)
    else (OccursShift(s, p); Contains(s[1..], p))
  }

  /** A string contains every string that occurs in it at a given index,
      in particular each of its prefixes. */
  lemma ContainsAt(s: string, p: string, i: nat)
    requires OccursAt(s, p, i)
    ensures Contains(s, p)
  {
  }

  /** Containment is transitive: whatever occurs in `p` occurs in any string containing `p`. */
  lemma ContainsTrans(s: string, p: string, q: string)
    requires Contains(s, p) && Contains(p, q)
    ensures Contains(s, q)
  {
    var i :| OccursAt(s, p, i);
    var j :| OccursAt(p, q, j);
    forall k | 0 <= k < |q| ensures s[i + j + k] == q[k] {
      assert s[i..i + |p|][j + k] == s[i + j + k];
      assert p[j..j + |q|][k] == p[j + k];
    }
    assert s[i + j..i + j + |q|] == q;
    assert OccursAt(s, q, i + j);
  }

  // ---------------------------------------------------------------------------
  // Case and white space
  // ---------------------------------------------------------------------------

  /** ASCII lower-casing of one character. */
  function Lower(c: char): char {
    if 'A' <= c <= 'Z' then (c as int + 32) as char else c
  }

  /** `s.toLowerCase()` on ASCII letters: same length, no upper-case ASCII letter left. */
  function ToLower(s: string): (r: string)
    ensures |r| == |s|
    ensures forall i :: 0 <= i < |s| ==> r[i] == Lower(s[i])
    ensures forall i :: 0 <= i < |r| ==> !('A' <= r[i] <= 'Z')
  {
    seq(|s|, i requires 0 <= i < |s| => Lower(s[i]))
  }

  /** The ASCII white-space characters `trim` and `parseInt` skip. */
  predicate IsSpace(c: char) {
    c == ' ' || c == '\t' || c == '\n' || c == '\r' || c as int == 11 || c as int == 12
  }

  /** `s.trimStart()`: the suffix of `s` that starts at its first non-space. */
  function TrimStart(s: string): (r: string)
    ensures |r| <= |s| && r == s[|s| - |r|..]
    ensures r != [] ==> !IsSpace(r[0])
    ensures forall i :: 0 <= i < |s| - |r| ==> IsSpace(s[i])
  {
    if s != [] && IsSpace(s[0]) then TrimStart(s[1..]) else s
  }

  /** `s.trimEnd()`: the prefix of `s` that ends at its last non-space. */
  function TrimEnd(s: string): (r: string)
    ensures |r| <= |s| && r == s[..|r|]
    ensures r != [] ==> !IsSpace(r[|r| - 1])
    ensures forall i :: |r| <= i < |s| ==> IsSpace(s[i])
  {
    if s != [] && IsSpace(s[|s| - 1]) then TrimEnd(s[..|s| - 1]) else s
  }

  /** `s.trim()`. */
  function Trim(s: string): string {
    TrimEnd(TrimStart(s))
  }

  // ---------------------------------------------------------------------------
  // Other string operations
  // ---------------------------------------------------------------------------

  /** `s.split(c)` for a one-character separator: the pieces between separators. */
  function Split(s: string, c: char): (parts: seq<string>)
    ensures |parts| >= 1
    ensures forall k :: 0 <= k < |parts| ==> c !in parts[k]
    decreases |s|
  {
    if s == [] then [""]
    else
      var rest := Split(s[1..], c);
      if s[0] == c then [""] + rest else [[s[0]] + rest[0]] + rest[1..]
  }

  /** `parts.join(c)`. */
  function Join(parts: seq<string>, c: char): string
    decreases |parts|
  {
    if |parts| == 0 then ""
    else if |parts| == 1 then parts[0]
    else parts[0] + [c] + Join(parts[1..], c)
  }

  /** Splitting loses nothing: joining the pieces back gives the original string. */
  lemma {:induction false} SplitJoin(s: string, c: char)
    ensures Join(Split(s, c), c) == s
    decreases |s|
  {
    if s != [] {
      var rest := Split(s[1..], c);
      SplitJoin(s[1..], c);
      if s[0] == c {
        assert Split(s, c) == [""] + rest;
        assert ([""] + rest)[1..] == rest;
      } else {
        var parts := [[s[0]] + rest[0]] + rest[1..];
        assert Split(s, c) == parts;
        if |rest| == 1 {
          assert Join(parts, c) == [s[0]] + rest[0];
        } else {
          assert parts[1..] == rest[1..];
          assert Join(rest, c) == rest[0] + [c] + Join(rest[1..], c);
        }
      }
    }
  }

  /** A string without the separator is one piece. */
  lemma {:induction false} SplitNoSeparator(y: string, c: char)
    requires c !in y
    ensures Split(y, c) == [y]
    decreases |y|
  {
    if y != [] {
      SplitNoSeparator(y[1..], c);
      assert [y[0]] + y[1..] == y;
    }
  }

  /** The first separator of `x + [c] + y` ends the first piece, which is `x`. */
  lemma {:induction false} SplitAround(x: string, c: char, y: string)
    requires c !in x
    ensures Split(x + [c] + y, c) == [x] + Split(y, c)
    decreases |x|
  {
    var s := x + [c] + y;
    if x == [] {
      assert s[1..] == y;
    } else {
      assert s[1..] == x[1..] + [c] + y;
      SplitAround(x[1..], c, y);
      assert [x[0]] + x[1..] == x;
    }
  }

  /** `s.replace(c, "")` with a one-character pattern: drops the first `c`, if any. */
  function RemoveFirst(s: string, c: char): (r: string)
    ensures c !in s ==> r == s
    ensures c in s ==> |r| == |s| - 1
  {
    if s == [] then [] else if s[0] == c then s[1..] else [s[0]] + RemoveFirst(s[1..], c)
  }

  /** `s.substring(a, b)`: both bounds clamped to the string and swapped if reversed. */
  function Substring(s: string, a: int, b: int): (r: string)
    ensures |r| <= |s|
  {
    var x := if a < 0 then 0 else if a > |s| then |s| else a;
    var y := if b < 0 then 0 else if b > |s| then |s| else b;
    if x <= y then s[x..y] else s[y..x]
  }

  /** `s.padStart(n, ch)` with a one-character filler. */
  function PadStart(s: string, n: nat, ch: char): (r: string)
    ensures |r| == if |s| >= n then |s| else n
    ensures r[|r| - |s|..] == s
    decreases n - |s|
  {
    if |s| >= n then s else PadStart([ch] + s, n, ch)
  }

  // ---------------------------------------------------------------------------
  // Numbers
  // ---------------------------------------------------------------------------

  /** The value of `c` as a digit in bases up to 36, either letter case; 36 when it is none. */
  function DigitValue(c: char): (d: nat)
    ensures d <= 36
  {
    if '0' <= c <= '9' then c as int - '0' as int
    else if 'a' <= c <= 'z' then c as int - 'a' as int + 10
    else if 'A' <= c <= 'Z' then c as int - 'A' as int + 10
    else 36
  }

  predicate IsDigitIn(c: char, radix: nat) {
    DigitValue(c) < radix
  }

  /** Every character of `d` is a digit in base `radix`. */
  predicate AllDigits(d: string, radix: nat) {
    forall i :: 0 <= i < |d| ==> IsDigitIn(d[i], radix)
  }

  /** The lower-case character for digit `d`, as `Number.prototype.toString` writes it. */
  function DigitChar(d: nat): (c: char)
    requires d < 36
    ensures DigitValue(c) == d
  {
    if d < 10 then ('0' as int + d) as char else ('a' as int + d - 10) as char
  }

  /** Length of the run of digits at the start of `s`. */
  function DigitRun(s: string, radix: nat): (n: nat)
    ensures n <= |s|
    ensures forall i :: 0 <= i < n ==> IsDigitIn(s[i], radix)
    ensures n < |s| ==> !IsDigitIn(s[n], radix)
  {
    if s == [] || !IsDigitIn(s[0], radix) then 0 else 1 + DigitRun(s[1..], radix)
  }

  /** The number a string of digits denotes, most significant digit first. */
  function DigitsValue(d: string, radix: nat): nat
    decreases |d|
  {
    if d == [] then 0 else DigitsValue(d[..|d| - 1], radix) * radix + DigitValue(d[|d| - 1])
  }

  lemma DivStep(n: nat, radix: nat)
    requires 2 <= radix <= n
    ensures n / radix < n && n % radix < radix && n == (n / radix) * radix + n % radix
  {
  }

  /** Appending a digit multiplies by the radix and adds the digit. */
  lemma DigitsValueSnoc(d: string, c: char, radix: nat)
    ensures DigitsValue(d + [c], radix) == DigitsValue(d, radix) * radix + DigitValue(c)
  {
    assert (d + [c])[..|d|] == d;
  }

  /** `n.toString(radix)` for a non-negative integer: digits only, and they denote `n`. */
  function NatToString(n: nat, radix: nat): (r: string)
    requires 2 <= radix <= 36
    ensures |r| >= 1
    ensures forall i :: 0 <= i < |r| ==> IsDigitIn(r[i], radix)
    ensures DigitsValue(r, radix) == n
    decreases n
  {
    if n < radix then
      (assert [DigitChar(n)][..0] == []; [DigitChar(n)])
    else
      var q, m := n / radix, n % radix;
      DivStep(n, radix);
      var high := NatToString(q, radix);
      var c := DigitChar(m);
      DigitsValueSnoc(high, c, radix);
      assert DigitsValue(high + [c], radix) == q * radix + m;
      high + [c]
  }

  /** `n.toString(radix)` for any integer: a minus sign before the digits of `|n|`. */
  function IntToString(n: int, radix: nat): (r: string)
    requires 2 <= radix <= 36
  {
    if n < 0 then "-" + NatToString(-n, radix) else NatToString(n, radix)
  }

  /** JavaScript `parseInt(s, radix)`, with `radix == 0` for an omitted radix:
      skip leading white space, read an optional sign, then the unsigned part;
      `None` stands for NaN. */
  function ParseInt(s: string, radix: nat): Option<int>
    requires radix == 0 || 2 <= radix <= 36
  {
    var t := TrimStart(s);
    if |t| > 0 && t[0] == '-' then
      match ParseUnsigned(t[1..], radix)
      case Some(n) => Option<int>.Some(-(n as int))
      case None => None
    else if |t| > 0 && t[0] == '+' then
      match ParseUnsigned(t[1..], radix)
      case Some(n) => Some(n)
      case None => None
    else
      match ParseUnsigned(t, radix)
      case Some(n) => Some(n)
      case None => None
  }

  /** The part of `parseInt` after the sign: drop a `0x` prefix when the radix
      is 16 or omitted, then read the longest run of digits; `None` when there is none. */
  function ParseUnsigned(u: string, radix: nat): Option<nat>
    requires radix == 0 || 2 <= radix <= 36
  {
    var hex := (radix == 0 || radix == 16) && |u| >= 2 && u[0] == '0' && (u[1] == 'x' || u[1] == 'X');
    var base := if hex then 16 else if radix == 0 then 10 else radix;
    var digits := if hex then u[2..] else u;
    var n := DigitRun(digits, base);
    if n == 0 then None else Some(DigitsValue(digits[..n], base))
  }

  /** Reading back a formatted integer gives the integer: `parseInt(String(n)) == n`,
      and likewise `parseInt(n.toString(16), 16) == n`. */
  lemma ParseIntOfString(n: int, radix: nat)
    requires radix == 10 || radix == 16
    ensures ParseInt(IntToString(n, radix), radix) == Some(n)
    ensures radix == 10 ==> ParseInt(IntToString(n, radix), 0) == Some(n)
  {
    ParseIntOfStringWith(n, radix, radix);
    if radix == 10 {
      ParseIntOfStringWith(n, radix, 0);
    }
  }

  /** One reading of a formatted integer, with the radix argument `arg`. */
  lemma ParseIntOfStringWith(n: int, radix: nat, arg: nat)
    requires radix == 10 || radix == 16
    requires arg == radix || (arg == 0 && radix == 10)
    ensures ParseInt(IntToString(n, radix), arg) == Some(n)
  {
    var m: nat := if n < 0 then -n else n;
    var digits := NatToString(m, radix);
    assert AllDigits(digits, radix) && DigitsValue(digits, radix) == m;
    if n < 0 {
      var s := IntToString(n, radix);
      assert s == "-" + digits;
      assert s[0] == '-' && s[1..] == digits;
      ParseUnsignedOfDigits(digits, radix, arg);
      NegativeSign(s, digits, arg, m);
    } else {
      assert IntToString(n, radix) == digits;
      ParseUnsignedOfDigits(digits, radix, arg);
      DigitIsPlain(digits[0], radix);
      UnsignedStart(digits, arg, m);
    }
  }

  /** A digit is neither white space, nor a sign, nor the `x` of a hex prefix. */
  lemma DigitIsPlain(c: char, radix: nat)
    requires radix <= 16 && IsDigitIn(c, radix)
    ensures !IsSpace(c) && c != '-' && c != '+' && c != 'x' && c != 'X'
  {
  }

  /** `parseInt` of a string that starts with neither space nor sign is what
      its unsigned part reads as. */
  lemma UnsignedStart(s: string, arg: nat, v: nat)
    requires arg == 0 || 2 <= arg <= 36
    requires |s| >= 1 && !IsSpace(s[0]) && s[0] != '-' && s[0] != '+'
    requires ParseUnsigned(s, arg) == Some(v)
    ensures ParseInt(s, arg) == Some(v as int)
  {
    assert TrimStart(s) == s;
  }

  /** `parseInt` of a minus sign followed by `u` negates what `u` reads as. */
  lemma NegativeSign(s: string, u: string, arg: nat, v: nat)
    requires arg == 0 || 2 <= arg <= 36
    requires |s| >= 1 && s[0] == '-' && s[1..] == u
    requires ParseUnsigned(u, arg) == Some(v)
    ensures ParseInt(s, arg) == Some(-(v as int))
  {
    assert TrimStart(s) == s;
  }

  /** The unsigned part of `parseInt` reads a whole string of digits. */
  lemma ParseUnsignedOfDigits(digits: string, radix: nat, arg: nat)
    requires radix == 10 || radix == 16
    requires arg == radix || (arg == 0 && radix == 10)
    requires |digits| >= 1 && AllDigits(digits, radix)
    ensures ParseUnsigned(digits, arg) == Some(DigitsValue(digits, radix))
  {
    if |digits| >= 2 {
      // 'x' is not a digit, so a digit string never carries a "0x" prefix.
      assert IsDigitIn(digits[1], radix);
    }
    assert DigitRun(digits, radix) == |digits| by {
      DigitRunOfDigits(digits, [], radix);
      assert digits + [] == digits;
    }
    assert digits[..|digits|] == digits;
  }

  /** The digit run of a digit string followed by a non-digit is exactly that string. */
  lemma {:induction false} DigitRunOfDigits(digits: string, rest: string, radix: nat)
    requires AllDigits(digits, radix)
    requires rest == [] || !IsDigitIn(rest[0], radix)
    ensures DigitRun(digits + rest, radix) == |digits|
    decreases |digits|
  {
    if digits != [] {
      assert (digits + rest)[1..] == digits[1..] + rest;
      DigitRunOfDigits(digits[1..], rest, radix);
    } else {
      assert digits + rest == rest;
    }
  }
}
