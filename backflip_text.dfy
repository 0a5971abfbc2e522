/**
 * The string operations of the backflip clipboard editor: `str::replace`,
 * the D-key slash swap built from three replacements, the comma join used
 * for a file-list clipboard (with the split that undoes it) and the decimal
 * rendering of a session index.
 */
module BackflipText {

  /** `s` begins with `p`. */
  predicate StartsWith(s: string, p: string) {
    |p| <= |s| && s[..|p|] == p
  }

  /** `p` occurs somewhere in `s`. */
  predicate Contains(s: string, p: string)
    decreases |s|
  {
    StartsWith(s, p) || (0 < |s| && Contains(s[1..], p))
  }

  /**
   * `str::replace`: scans left to right, replacing each non-overlapping
   * occurrence of `pat` by `rep` and resuming after it.
   */
  function Replace(s: string, pat: string, rep: string): (r: string)
    requires |pat| > 0
    ensures !Contains(s, pat) ==> r == s
    decreases |s|
  {
    if |s| < |pat| then s
    else if s[..|pat|] == pat then rep + Replace(s[|pat|..], pat, rep)
    else [s[0]] + Replace(s[1..], pat, rep)
  }

  /** The marker the D key parks backslashes under. */
  const Placeholder: string := "THISWASABACKSLASH"

  /**
   * The D key as written: backslashes to the placeholder, slashes to
   * backslashes, then the placeholder to slashes.
   */
  function ReverseSlashes(s: string): (r: string)
    ensures !Contains(s, "\\") && !Contains(s, "/") && !Contains(s, Placeholder) ==> r == s
  {
    Replace(Replace(Replace(s, "\\", Placeholder), "/", "\\"), Placeholder, "/")
  }

  /** `\` and `/` exchanged; every other character kept. */
  function SwapChar(c: char): char {
    if c == '\\' then '/' else if c == '/' then '\\' else c
  }

  /** A reference definition: exchange `\` and `/`, one character at a time. */
  function SwapSlashes(s: string): (r: string)
    ensures |r| == |s|
    ensures forall i :: 0 <= i < |s| ==>
              && (s[i] == '\\' ==> r[i] == '/')
              && (s[i] == '/' ==> r[i] == '\\')
              && (s[i] != '\\' && s[i] != '/' ==> r[i] == s[i])
  {
    if |s| == 0 then []
    else
      [SwapChar(s[0])] + SwapSlashes(s[1..])
  }

  /** The text after the first two replacements of `ReverseSlashes`. */
  function Parked(s: string): (r: string)
    ensures |r| >= |s|
  {
    if |s| == 0 then []
    else if s[0] == '\\' then Placeholder + Parked(s[1..])
    else if s[0] == '/' then "\\" + Parked(s[1..])
    else [s[0]] + Parked(s[1..])
  }

  /** Replacing a character that `x` lacks passes over `x` unchanged. */
  lemma {:induction false} ReplaceCharSkips(x: string, y: string, c: char, rep: string)
    requires forall i :: 0 <= i < |x| ==> x[i] != c
    ensures Replace(x + y, [c], rep) == x + Replace(y, [c], rep)
    decreases |x|
  {
    if |x| > 0 {
      assert (x + y)[..1] == [x[0]];
      assert (x + y)[1..] == x[1..] + y;
      ReplaceCharSkips(x[1..], y, c, rep);
      assert x + Replace(y, [c], rep) == [x[0]] + (x[1..] + Replace(y, [c], rep));
    } else {
      assert x + y == y;
    }
  }

  /** The first two replacements of `ReverseSlashes` compute `Parked`. */
  lemma {:induction false} ParkSlashes(s: string)
    ensures Replace(Replace(s, "\\", Placeholder), "/", "\\") == Parked(s)
    decreases |s|
  {
    if |s| > 0 {
      var t := s[1..];
      var r1 := Replace(t, "\\", Placeholder);
      ParkSlashes(t);
      assert s[..1] == [s[0]];
      if s[0] == '\\' {
        assert Replace(s, "\\", Placeholder) == Placeholder + r1;
        ReplaceCharSkips(Placeholder, r1, '/', "\\");
      } else {
        assert Replace(s, "\\", Placeholder) == [s[0]] + r1;
        assert ([s[0]] + r1)[1..] == r1;
        assert ([s[0]] + r1)[..1] == [s[0]];
      }
    }
  }

  /**
   * A parked text begins with a string free of `T` and of slashes only if
   * the original does: none of those characters can come from a parked
   * slash.
   */
  lemma {:induction false} ParkedPrefix(t: string, q: string)
    requires forall i :: 0 <= i < |q| ==> q[i] != 'T' && q[i] != '\\' && q[i] != '/'
    requires StartsWith(Parked(t), q)
    ensures StartsWith(t, q)
    decreases |q|
  {
    if |q| > 0 {
      assert |t| > 0;
      var c := t[0];
      assert Parked(t)[0] == q[0];
      assert c != '\\' && c != '/';
      assert Parked(t) == [c] + Parked(t[1..]);
      assert Parked(t[1..])[..|q| - 1] == q[1..];
      ParkedPrefix(t[1..], q[1..]);
      assert t[..|q|] == [c] + t[1..][..|q| - 1];
    }
  }

  /** One step of the last replacement over a parked text. */
  lemma {:induction false} UnparkHead(s: string)
    requires |s| > 0 && !StartsWith(s, Placeholder)
    ensures Replace(Parked(s), Placeholder, "/") == [SwapChar(s[0])] + Replace(Parked(s[1..]), Placeholder, "/")
  {
    var t := s[1..];
    var m := Parked(s);
    var P := Placeholder;
    if s[0] == '\\' {
      assert m == P + Parked(t);
      assert m[..|P|] == P;
      assert m[|P|..] == Parked(t);
    } else {
      var d := if s[0] == '/' then '\\' else s[0];
      assert m == [d] + Parked(t);
      assert m[1..] == Parked(t);
      if |m| >= |P| && m[..|P|] == P {
        var q := P[1..];
        assert forall i :: 0 <= i < |q| ==> q[i] != 'T' && q[i] != '\\' && q[i] != '/';
        assert Parked(t)[..|q|] == m[..|P|][1..];
        ParkedPrefix(t, q);
        assert false;
      }
      assert m[0] == SwapChar(s[0]);
    }
  }

  /** The last replacement of `ReverseSlashes` undoes `Parked` into a swap. */
  lemma {:induction false} UnparkSwaps(s: string)
    requires !Contains(s, Placeholder)
    ensures Replace(Parked(s), Placeholder, "/") == SwapSlashes(s)
    decreases |s|
  {
    if |s| > 0 {
      UnparkSwaps(s[1..]);
      UnparkHead(s);
    }
  }

  /**
   * In a text that does not contain the placeholder, the D key exchanges
   * `\` and `/` and changes nothing else.
   */
  lemma {:induction false} ReverseSlashesSwaps(s: string)
    requires !Contains(s, Placeholder)
    ensures ReverseSlashes(s) == SwapSlashes(s)
  {
    ParkSlashes(s);
    UnparkSwaps(s);
  }

  /**
   * In a text without the placeholder, pressing D twice gives back the
   * original text.
   */
  lemma {:induction false} ReverseSlashesTwice(s: string)
    requires !Contains(s, Placeholder)
    ensures ReverseSlashes(ReverseSlashes(s)) == s
  {
    ReverseSlashesSwaps(s);
    SwapKeepsPlaceholderOut(s);
    ReverseSlashesSwaps(SwapSlashes(s));
    var r := SwapSlashes(SwapSlashes(s));
    assert |r| == |s| && forall i :: 0 <= i < |s| ==> r[i] == s[i];
  }

  /** The placeholder has no slash, so swapping slashes cannot create one. */
  lemma {:induction false} SwapKeepsPlaceholderOut(s: string)
    requires !Contains(s, Placeholder)
    ensures !Contains(SwapSlashes(s), Placeholder)
    decreases |s|
  {
    var w := SwapSlashes(s);
    var P := Placeholder;
    assert !StartsWith(w, P);
    if |s| > 0 {
      SwapKeepsPlaceholderOut(s[1..]);
      assert w[1..] == SwapSlashes(s[1..]);
    }
  }

  /** Parking passes over text without slashes unchanged. */
  lemma {:induction false} ParkedPlain(x: string, y: string)
    requires forall i :: 0 <= i < |x| ==> x[i] != '\\' && x[i] != '/'
    ensures Parked(x + y) == x + Parked(y)
    decreases |x|
  {
    if |x| > 0 {
      assert (x + y)[1..] == x[1..] + y;
      ParkedPlain(x[1..], y);
      assert x == [x[0]] + x[1..];
    } else {
      assert x + y == y;
    }
  }

  /** The placeholder's only `T` is its first letter. */
  lemma PlaceholderOneT(k: nat)
    requires 0 < k < |Placeholder|
    ensures Placeholder[k] != 'T'
  {
  }

  /**
   * After a nonempty placeholder-free text, the placeholder that follows
   * cannot begin earlier.
   */
  lemma NoEarlierPlaceholder(x: string, y: string)
    requires 0 < |x| && !Contains(x, Placeholder)
    ensures !StartsWith(x + Placeholder + y, Placeholder)
  {
    var P := Placeholder;
    var s := x + P + y;
    if StartsWith(s, P) && |x| < |P| {
      var k := |x|;
      assert s[k] == P[0];
      assert s[k] == s[..|P|][k];
      PlaceholderOneT(k);
    }
  }

  /** The last replacement over a parked text that begins with the placeholder. */
  lemma UnparkPlaceholder(y: string)
    ensures Replace(Parked(Placeholder + y), Placeholder, "/") == "/" + Replace(Parked(y), Placeholder, "/")
  {
    var P := Placeholder;
    ParkedPlain(P, y);
    var m := P + Parked(y);
    assert m[..|P|] == P;
    assert m[|P|..] == Parked(y);
  }

  lemma SplitHead(x: string, a: string, b: string)
    requires |x| > 0
    ensures (x + a + b)[0] == x[0] && (x + a + b)[1..] == x[1..] + a + b
  {
  }

  lemma ConsAssoc(c: char, a: string, b: string, r: string)
    ensures [c] + (a + b + r) == [c] + a + b + r
  {
  }

  /** The last replacement over a parked placeholder-free text followed by the placeholder. */
  lemma {:induction false} UnparkBefore(x: string, y: string)
    requires !Contains(x, Placeholder)
    ensures Replace(Parked(x + Placeholder + y), Placeholder, "/")
              == SwapSlashes(x) + "/" + Replace(Parked(y), Placeholder, "/")
    decreases |x|
  {
    var P := Placeholder;
    if |x| == 0 {
      assert x + P + y == P + y;
      UnparkPlaceholder(y);
    } else {
      var rest := x[1..];
      NoEarlierPlaceholder(x, y);
      UnparkHead(x + P + y);
      SplitHead(x, P, y);
      assert !Contains(rest, P);
      UnparkBefore(rest, y);
      ConsAssoc(SwapChar(x[0]), SwapSlashes(rest), "/", Replace(Parked(y), P, "/"));
    }
  }

  /**
   * A placeholder already in the text, after a part that does not contain
   * it, comes out of the D key as `/`; the text before it is swapped as
   * usual and the text after it is treated as a text of its own.
   */
  lemma {:induction false} PlaceholderBecomesSlash(x: string, y: string)
    requires !Contains(x, Placeholder)
    ensures ReverseSlashes(x + Placeholder + y) == ReverseSlashes(x) + "/" + ReverseSlashes(y)
  {
    ParkSlashes(x + Placeholder + y);
    UnparkBefore(x, y);
    ParkSlashes(y);
    ReverseSlashesSwaps(x);
  }

  /** `[String]::join(sep)`. */
  function Join(parts: seq<string>, sep: string): (r: string)
    ensures |parts| == 1 ==> r == parts[0]
    ensures |parts| == 0 ==> r == ""
  {
    if |parts| == 0 then ""
    else if |parts| == 1 then parts[0]
    else parts[0] + sep + Join(parts[1..], sep)
  }

  /** `str::split(c)`: always at least one piece. */
  function Split(s: string, c: char): (parts: seq<string>)
    ensures |parts| > 0
    decreases |s|
  {
    if |s| == 0 then [""]
    else
      var rest := Split(s[1..], c);
      if s[0] == c then [""] + rest
      else [[s[0]] + rest[0]] + rest[1..]
  }

  /** A first piece without the separator is read up to the next separator. */
  lemma {:induction false} SplitPrefix(x: string, tail: string, c: char)
    requires forall i :: 0 <= i < |x| ==> x[i] != c
    ensures Split(x + tail, c) == [x + Split(tail, c)[0]] + Split(tail, c)[1..]
    decreases |x|
  {
    if |x| > 0 {
      assert (x + tail)[1..] == x[1..] + tail;
      SplitPrefix(x[1..], tail, c);
      assert [x[0]] + (x[1..] + Split(tail, c)[0]) == x + Split(tail, c)[0];
    } else {
      assert x + tail == tail;
      assert x + Split(tail, c)[0] == Split(tail, c)[0];
      assert Split(tail, c) == [Split(tail, c)[0]] + Split(tail, c)[1..];
    }
  }

  /**
   * Splitting a comma join at commas gives back the pieces, provided there
   * is at least one and none of them contains a comma.
   */
  lemma {:induction false} SplitJoin(parts: seq<string>)
    requires |parts| > 0
    requires forall k, i :: 0 <= k < |parts| && 0 <= i < |parts[k]| ==> parts[k][i] != ','
    ensures Split(Join(parts, ","), ',') == parts
    decreases |parts|
  {
    if |parts| == 1 {
      SplitPrefix(parts[0], "", ',');
      assert parts[0] + "" == parts[0];
    } else {
      var rest := Join(parts[1..], ",");
      SplitJoin(parts[1..]);
      assert parts[0] + "," + rest == parts[0] + ("," + rest);
      SplitPrefix(parts[0], "," + rest, ',');
      assert ("," + rest)[1..] == rest;
      var sp := Split("," + rest, ',');
      assert sp == [""] + Split(rest, ',');
      assert parts[0] + sp[0] == parts[0] && sp[1..] == parts[1..];
      assert Join(parts, ",") == parts[0] + ("," + rest);
      assert parts == [parts[0]] + parts[1..];
    }
  }

  /** Two different file lists that capture to the same text: the join is lossy. */
  lemma CommaNamesCollide()
    ensures Join(["a,b"], ",") == Join(["a", "b"], ",")
  {
  }

  /** The decimal digit for `d`. */
  function Digit(d: nat): char
    requires d < 10
  {
    "0123456789"[d]
  }

  /** `format!("{}", n)` for a length. */
  function Decimal(n: nat): (r: string)
    ensures |r| > 0
    decreases n
  {
    if n < 10 then [Digit(n)] else Decimal(n / 10) + [Digit(n % 10)]
  }

  /** Reads a string of decimal digits back as a number. */
  function DigitsValue(s: string): nat {
    if |s| == 0 then 0
    else
      var d := s[|s| - 1];
      DigitsValue(s[..|s| - 1]) * 10 + (if '0' <= d <= '9' then (d as int - '0' as int) else 0)
  }

  /** `DigitsValue` inverts `Decimal`. */
  lemma {:induction false} DecimalValue(n: nat)
    ensures DigitsValue(Decimal(n)) == n
    decreases n
  {
    if n >= 10 {
      DecimalValue(n / 10);
      var r := Decimal(n);
      assert r[..|r| - 1] == Decimal(n / 10);
    }
  }

  /** Different numbers are written differently. */
  lemma DecimalInjective(a: nat, b: nat)
    ensures Decimal(a) == Decimal(b) ==> a == b
  {
    DecimalValue(a);
    DecimalValue(b);
  }
}
