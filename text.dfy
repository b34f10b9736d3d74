/** The two pieces of Rust's standard text handling the core relies on:
    substring search (`str::contains`) and decimal parsing of an unsigned
    64-bit integer (`str::parse::<u64>`), with the decimal rendering an RPC
    node uses for token amounts as its inverse. */
module Text {
  import opened Common

  /** `s[i..i + |t|] == t`: `t` occurs in `s` at offset `i`. */
  predicate OccursAt(s: string, t: string, i: int)
  {
    0 <= i && i + |t| <= |s| && s[i..i + |t|] == t
  }

  /** `str::contains`: some offset of `s` holds `t`. */
  function Contains(s: string, t: string): (b: bool)
    ensures b <==> exists i :: OccursAt(s, t, i)
    decreases |s|
  {
    if |t| > |s| then
      assert forall i :: !OccursAt(s, t, i);
      false
    else if s[..|t|] == t then
      assert OccursAt(s, t, 0);
      true
    else
      var rest := Contains(s[1..], t);
      assert forall i :: OccursAt(s[1..], t, i) ==> OccursAt(s, t, i + 1) by {
        forall i | OccursAt(s[1..], t, i) ensures OccursAt(s, t, i + 1) {
          assert s[1..][i..i + |t|] == s[i + 1..i + 1 + |t|];
        }
      }
      assert !OccursAt(s, t, 0);
      assert (exists i :: OccursAt(s, t, i)) ==> exists j :: OccursAt(s[1..], t, j) by {
        if exists i :: OccursAt(s, t, i) {
          var i :| OccursAt(s, t, i);
          assert i >= 1;
          assert s[1..][i - 1..i - 1 + |t|] == s[i..i + |t|];
          assert OccursAt(s[1..], t, i - 1);
        }
      }
      rest
  }

  predicate IsDigit(c: char)
  {
    '0' <= c <= '9'
  }

  predicate AllDigits(s: string)
  {
    forall i :: 0 <= i < |s| ==> IsDigit(s[i])
  }

  function DigitValue(c: char): (d: nat)
    requires IsDigit(c)
    ensures d < 10
  {
    c as int - '0' as int
  }

  function DigitChar(d: nat): (c: char)
    requires d < 10
    ensures IsDigit(c) && DigitValue(c) == d
  {
    ('0' as int + d) as char
  }

  /** The number a string of decimal digits denotes (most significant first). */
  function DigitsValue(s: string): nat
    requires AllDigits(s)
  {
    if s == [] then 0 else DigitsValue(s[..|s| - 1]) * 10 + DigitValue(s[|s| - 1])
  }

  /** The digits after the optional sign: Rust strips one leading '+'; a
      leading '-' stays and makes the unsigned parse fail. */
  function Unsigned(s: string): string
  {
    if |s| > 0 && s[0] == '+' then s[1..] else s
  }

  /** 10^n. */
  function TenTo(n: nat): (p: nat)
    ensures p >= 1
  {
    if n == 0 then 1 else 10 * TenTo(n - 1)
  }

  /** Reading a leading digit off: `c d` denotes `c * 10^|d|` plus what `d` denotes. */
  lemma {:induction false} DigitsValueCons(c: char, d: string)
    requires IsDigit(c) && AllDigits(d)
    ensures AllDigits([c] + d)
    ensures DigitsValue([c] + d) == DigitValue(c) * TenTo(|d|) + DigitsValue(d)
    decreases |d|
  {
    var cd := [c] + d;
    assert AllDigits(cd) by {
      forall i | 0 <= i < |cd| ensures IsDigit(cd[i]) {
        if i > 0 { assert cd[i] == d[i - 1]; }
      }
    }
    if d != [] {
      var p := d[..|d| - 1];
      assert AllDigits(p) by {
        forall i | 0 <= i < |p| ensures IsDigit(p[i]) { assert p[i] == d[i]; }
      }
      DigitsValueCons(c, p);
      assert cd[..|cd| - 1] == [c] + p;
      assert cd[|cd| - 1] == d[|d| - 1];
      var v := DigitValue(c);
      calc {
        DigitsValue(cd);
        DigitsValue([c] + p) * 10 + DigitValue(d[|d| - 1]);
        (v * TenTo(|p|) + DigitsValue(p)) * 10 + DigitValue(d[|d| - 1]);
        v * (TenTo(|p|) * 10) + (DigitsValue(p) * 10 + DigitValue(d[|d| - 1]));
        v * TenTo(|d|) + DigitsValue(d);
      }
    }
  }

  /** `acc * 10^(k+1) + (v * 10^k + rest) == (acc * 10 + v) * 10^k + rest`, with `t = 10^k`. */
  lemma Regroup(acc: nat, v: nat, t: nat, rest: nat)
    requires t >= 1
    ensures acc * (10 * t) + (v * t + rest) == (acc * 10 + v) * t + rest
    ensures (acc * 10 + v) * t + rest >= acc * 10 + v
  {
  }

  /** `d` is all digits exactly when its first character and its tail are. */
  lemma AllDigitsTail(d: string)
    requires d != [] && IsDigit(d[0])
    ensures AllDigits(d) <==> AllDigits(d[1..])
  {
  }

  /** The step below, for a tail already known to be all digits. */
  lemma DigitStep(d: string, acc: nat)
    requires d != [] && IsDigit(d[0]) && AllDigits(d[1..])
    ensures AllDigits(d)
    ensures acc * TenTo(|d|) + DigitsValue(d)
            == (acc * 10 + DigitValue(d[0])) * TenTo(|d| - 1) + DigitsValue(d[1..])
    ensures acc * TenTo(|d|) + DigitsValue(d) >= acc * 10 + DigitValue(d[0])
  {
    var t := TenTo(|d| - 1);
    assert TenTo(|d|) == 10 * t;
    assert d == [d[0]] + d[1..];
    DigitsValueCons(d[0], d[1..]);
    Regroup(acc, DigitValue(d[0]), t, DigitsValue(d[1..]));
  }

  /** One step of the digit loop: the value the loop reaches from `acc` over
      `d` is the one it reaches from `acc * 10 + digit` over the tail, which is
      at least that new `acc`. */
  lemma DigitStepIfDigits(d: string, acc: nat)
    requires d != [] && IsDigit(d[0])
    ensures AllDigits(d) <==> AllDigits(d[1..])
    ensures AllDigits(d) ==>
              && acc * TenTo(|d|) + DigitsValue(d)
                 == (acc * 10 + DigitValue(d[0])) * TenTo(|d| - 1) + DigitsValue(d[1..])
              && acc * TenTo(|d|) + DigitsValue(d) >= acc * 10 + DigitValue(d[0])
  {
    AllDigitsTail(d);
    if AllDigits(d[1..]) {
      DigitStep(d, acc);
    }
  }

  /** The digit loop of Rust's integer parse: from the most significant digit,
      `acc = acc.checked_mul(10)?.checked_add(digit)?`, failing on a character
      that is not a digit or on the first step whose result reaches 2^64. */
  function ParseDigits(d: string, acc: U64): (r: Option<U64>)
    ensures r.Some? <==> AllDigits(d) && acc * TenTo(|d|) + DigitsValue(d) < 0x1_0000_0000_0000_0000
    ensures r.Some? ==> AllDigits(d) && r.value == acc * TenTo(|d|) + DigitsValue(d)
    decreases |d|
  {
    if d == [] then Some(acc)
    else if !IsDigit(d[0]) then None
    else
      DigitStepIfDigits(d, acc);
      if acc * 10 >= 0x1_0000_0000_0000_0000 then None
      else if acc * 10 + DigitValue(d[0]) >= 0x1_0000_0000_0000_0000 then None
      else ParseDigits(d[1..], acc * 10 + DigitValue(d[0]))
  }

  /** `s.parse::<u64>()`: `None` for an empty string or a lone sign, otherwise
      the checked digit loop over what follows an optional '+'. It succeeds
      exactly when that remainder is one or more digits denoting a value
      below 2^64, and then yields that value. */
  function ParseU64(s: string): (r: Option<U64>)
    ensures r.Some? ==> |s| > 0 && (s[0] == '+' || IsDigit(s[0]))
    ensures r.Some? <==> Unsigned(s) != [] && AllDigits(Unsigned(s))
                         && DigitsValue(Unsigned(s)) < 0x1_0000_0000_0000_0000
    ensures r.Some? ==> r.value == DigitsValue(Unsigned(s))
  {
    if s == [] || s == "+" || s == "-" then None
    else ParseDigits(Unsigned(s), 0)
  }

  /** The decimal rendering of `n` without leading zeros; parsing it back
      yields `n`. */
  function DecimalString(n: nat): (s: string)
    ensures s != [] && AllDigits(s) && DigitsValue(s) == n
    ensures |s| > 1 ==> s[0] != '0'
    ensures n < 0x1_0000_0000_0000_0000 ==> ParseU64(s) == Some(n)
    decreases n
  {
    if n < 10 then
      [DigitChar(n)]
    else
      var prefix := DecimalString(n / 10);
      var s := prefix + [DigitChar(n % 10)];
      assert s[..|s| - 1] == prefix;
      assert AllDigits(s) by {
        forall i | 0 <= i < |s| ensures IsDigit(s[i]) {
          if i < |prefix| { assert s[i] == prefix[i]; }
        }
      }
      s
  }
}
