/** Byte strings, decimal printing and the scanning of printed formats.
    A byte string is a `string` all of whose characters are below 256. */
module Text {
  datatype Option<+T> = None | Some(value: T) {
    predicate IsFailure() { None? }
    function PropagateFailure<U>(): Option<U> requires None? { None }
    function Extract(): T requires Some? { value }
  }

  // ----- Concatenation -----

  function Flatten<T>(parts: seq<seq<T>>): seq<T> {
    if parts == [] then [] else parts[0] + Flatten(parts[1..])
  }

  lemma FlattenAppend<T>(a: seq<seq<T>>, b: seq<seq<T>>)
    ensures Flatten(a + b) == Flatten(a) + Flatten(b)
  {
    if a == [] {
      assert a + b == b;
    } else {
      assert (a + b)[1..] == a[1..] + b;
      FlattenAppend(a[1..], b);
    }
  }

  lemma Assoc<T>(a: seq<T>, b: seq<T>, c: seq<T>)
    ensures (a + b) + c == a + (b + c)
  {
  }

  lemma DropFirst<T>(a: seq<T>, b: seq<T>)
    ensures (a + b)[|a|..] == b && (a + b)[..|a|] == a
  {
  }

  /** A piece in the middle of a longer sequence starts where the part before it ends. */
  lemma Middle<T>(before: seq<T>, piece: seq<T>, whole: seq<T>, rest: seq<T>)
    requires before + piece <= whole
    ensures (whole + rest)[|before|..] == piece + (whole + rest)[|before + piece|..]
  {
    var tail := whole[|before + piece|..];
    assert whole == before + piece + tail;
    assert whole + rest == before + (piece + (tail + rest));
    assert (whole + rest)[|before + piece|..] == tail + rest;
  }

  /** strings.Join. */
  function Join(parts: seq<string>, sep: string): string {
    if parts == [] then ""
    else if |parts| == 1 then parts[0]
    else parts[0] + sep + Join(parts[1..], sep)
  }

  predicate IsBytes(s: string) {
    forall i :: 0 <= i < |s| ==> s[i] as int < 256
  }

  // ----- Decimal numbers -----

  function Digit(d: nat): (c: char)
    requires d < 10
  {
    (48 + d) as char
  }

  predicate IsDigit(c: char) { '0' <= c <= '9' }

  function DigitValue(c: char): nat
    requires IsDigit(c)
  {
    c as int - 48
  }

  /** What `%d` prints for a non-negative number. */
  function Dec(n: nat): string {
    if n < 10 then [Digit(n)] else Dec(n / 10) + [Digit(n % 10)]
  }

  function Zeros(k: nat): string {
    seq(k, _ => '0')
  }

  /** What `%0wd` prints for a non-negative number. */
  function Pad(n: nat, w: nat): string {
    if |Dec(n)| < w then Zeros(w - |Dec(n)|) + Dec(n) else Dec(n)
  }

  function Pow10(k: nat): nat {
    if k == 0 then 1 else 10 * Pow10(k - 1)
  }

  lemma {:induction false} DecIsDigits(n: nat)
    ensures |Dec(n)| > 0
    ensures forall i :: 0 <= i < |Dec(n)| ==> IsDigit(Dec(n)[i])
  {
    if n >= 10 { DecIsDigits(n / 10); }
  }

  /** The number of digits tells exactly below which power of ten a number lies. */
  lemma {:induction false} DecWidth(n: nat, k: nat)
    requires k >= 1
    ensures |Dec(n)| <= k <==> n < Pow10(k)
  {
    if k == 1 {
      assert Pow10(1) == 10 * Pow10(0);
      if n >= 10 { DecIsDigits(n / 10); }
    } else {
      if n >= 10 {
        DecWidth(n / 10, k - 1);
        assert n < Pow10(k) <==> n / 10 < Pow10(k - 1);
      } else {
        PowPositive(k - 1);
      }
    }
  }

  lemma {:induction false} PowPositive(k: nat)
    ensures Pow10(k) >= 1
  {
    if k > 0 { PowPositive(k - 1); }
  }

  /** Reads the longest run of digits, continuing from the number `acc`. */
  function ReadDigits(s: string, acc: nat): (nat, string) {
    if s == "" || !IsDigit(s[0]) then (acc, s)
    else ReadDigits(s[1..], 10 * acc + DigitValue(s[0]))
  }

  lemma {:induction false} ReadDec(n: nat, t: string)
    ensures ReadDigits(Dec(n) + t, 0) == ReadDigits(t, n)
  {
    if n < 10 {
      assert (Dec(n) + t)[1..] == t;
    } else {
      var u := [Digit(n % 10)] + t;
      assert Dec(n) + t == Dec(n / 10) + u;
      ReadDec(n / 10, u);
      assert u[1..] == t;
    }
  }

  lemma {:induction false} ReadZeros(k: nat, t: string)
    ensures ReadDigits(Zeros(k) + t, 0) == ReadDigits(t, 0)
  {
    if k == 0 {
      assert Zeros(0) + t == t;
    } else {
      assert (Zeros(k) + t)[1..] == Zeros(k - 1) + t;
      ReadZeros(k - 1, t);
    }
  }

  predicate StartsWithDigit(s: string) { s != "" && IsDigit(s[0]) }

  lemma ReadPad(n: nat, w: nat, t: string)
    requires !StartsWithDigit(t)
    ensures ReadDigits(Pad(n, w) + t, 0) == (n, t)
  {
    ReadDec(n, t);
    if |Dec(n)| < w {
      assert Pad(n, w) + t == Zeros(w - |Dec(n)|) + (Dec(n) + t);
      ReadZeros(w - |Dec(n)|, Dec(n) + t);
    }
  }

  /** Drops the digits at the end of a string. */
  function StripDigits(s: string): (t: string)
    ensures t <= s
  {
    if s == "" || !IsDigit(s[|s| - 1]) then s else StripDigits(s[..|s| - 1])
  }

  lemma {:induction false} StripDec(t: string, n: nat)
    requires t == "" || !IsDigit(t[|t| - 1])
    ensures StripDigits(t + Dec(n)) == t
  {
    var s := t + Dec(n);
    DecIsDigits(n);
    if n < 10 {
      assert s[..|s| - 1] == t;
    } else {
      assert s[..|s| - 1] == t + Dec(n / 10);
      StripDec(t, n / 10);
    }
  }

  // ----- Scanning -----

  /** Consumes `lit` at the start of `s`. */
  function Expect(s: string, lit: string): (r: Option<string>)
    ensures r.Some? ==> |r.value| == |s| - |lit|
  {
    if lit <= s then Some(s[|lit|..]) else None
  }

  lemma ExpectOk(lit: string, t: string)
    ensures Expect(lit + t, lit) == Some(t)
  {
    assert (lit + t)[|lit|..] == t;
  }

  lemma ReadDigitsShrinks(s: string, acc: nat)
    ensures |ReadDigits(s, acc).1| <= |s|
  {
  }
}
