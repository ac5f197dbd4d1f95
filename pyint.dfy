/** Python 2's decimal integer text: `int(s)` on a string (the parse both
    the `start` request parameter and the worker's `--interval` option go
    through) and `'%d' % n` (how ports and page numbers are printed). */
module PyInt {
  import opened Results
  import opened PyStr

  predicate IsDigit(c: char)
  {
    '0' <= c <= '9'
  }

  /** A non-empty run of ASCII decimal digits. */
  predicate IsDigits(ds: string)
  {
    |ds| > 0 && forall i :: 0 <= i < |ds| ==> IsDigit(ds[i])
  }

  function DigitChar(d: nat): (c: char)
    requires d < 10
    ensures IsDigit(c) && c as int - '0' as int == d
  {
    ('0' as int + d) as char
  }

  /** The number a run of decimal digits denotes (leading zeros allowed). */
  function DigitsValue(ds: string): nat
    requires forall i :: 0 <= i < |ds| ==> IsDigit(ds[i])
  {
    if ds == [] then 0
    else
      assert IsDigit(ds[|ds| - 1]);
      DigitsValue(ds[..|ds| - 1]) * 10 + (ds[|ds| - 1] as int - '0' as int)
  }

  /** The canonical decimal digits of `n`: no leading zero unless `n == 0`. */
  function NatToDigits(n: nat): (ds: string)
    ensures IsDigits(ds)
    ensures ds[0] == '0' ==> ds == "0"
  {
    if n < 10 then [DigitChar(n)] else NatToDigits(n / 10) + [DigitChar(n % 10)]
  }

  /** `'%d' % n`. */
  function IntToString(n: int): (s: string)
    ensures s != [] && IsDigit(s[|s| - 1])
    ensures (s[0] == '-') == (n < 0)
    ensures var ds := if n < 0 then s[1..] else s;
      && IsDigits(ds)
      && (ds[0] == '0' ==> ds == "0")
      && DigitsValue(ds) == (if n < 0 then -n else n)
  {
    if n < 0 then
      DigitsRoundTrip(-n);
      var s := "-" + NatToDigits(-n);
      assert s[1..] == NatToDigits(-n);
      s
    else
      DigitsRoundTrip(n);
      NatToDigits(n)
  }

  /** The text `int()` accepts once white space is stripped: an optional
      sign, then one or more decimal digits. */
  predicate IsIntText(t: string)
  {
    IsDigits(t) || (|t| > 1 && (t[0] == '-' || t[0] == '+') && IsDigits(t[1..]))
  }

  /** `int(s)` for a byte string, base 10: optional surrounding white space,
      an optional sign, then one or more ASCII digits; anything else raises
      `ValueError`, modelled as `None`. */
  function ParseInt(s: string): (r: Option<int>)
    ensures r.Some? <==> IsIntText(Strip(s))
    ensures r.Some? && r.value < 0 ==> Strip(s)[0] == '-'
    ensures r.Some? && Strip(s)[0] == '-' ==> r.value <= 0
    ensures r.Some? ==> var t := Strip(s);
      DigitsValue(if IsDigits(t) then t else t[1..]) == (if r.value < 0 then -r.value else r.value)
  {
    var t := Strip(s);
    if |t| > 0 && (t[0] == '-' || t[0] == '+') then
      if IsDigits(t[1..]) then
        var magnitude: int := DigitsValue(t[1..]);
        Some(if t[0] == '-' then -magnitude else magnitude)
      else None
    else if IsDigits(t) then Some(DigitsValue(t))
    else None
  }

  /** Reading back the digits printed for `n` gives `n`. */
  lemma {:induction false} DigitsRoundTrip(n: nat)
    ensures DigitsValue(NatToDigits(n)) == n
  {
    if n >= 10 {
      var ds := NatToDigits(n);
      DigitsRoundTrip(n / 10);
      assert ds[..|ds| - 1] == NatToDigits(n / 10);
    }
  }

  /** Unpadded digits, signed or not, parse as the number they denote. */
  lemma ParseUnpadded(s: string, ds: string)
    requires IsDigits(ds) && Strip(s) == s
    requires s == ds || s == "-" + ds
    ensures ParseInt(s) == Some(if s == ds then DigitsValue(ds) as int else -(DigitsValue(ds) as int))
  {
    if s == ds {
      assert IsDigit(s[0]);
    } else {
      assert s[0] == '-' && s[1..] == ds;
    }
  }

  /** The text `'%d' % n` is the digits of `|n|`, signed when negative, and unpadded. */
  lemma IntTextShape(n: int)
    ensures IntToString(n) == if n < 0 then "-" + NatToDigits(-n) else NatToDigits(n)
    ensures Strip(IntToString(n)) == IntToString(n)
  {
    var s := IntToString(n);
    assert !IsSpace(s[0]) && !IsSpace(s[|s| - 1]);
    StripUnpadded(s);
  }

  /** `int('%d' % n) == n`: printing and parsing are inverse. */
  lemma IntRoundTrip(n: int)
    ensures ParseInt(IntToString(n)) == Some(n)
  {
    var m: nat := if n < 0 then -n else n;
    IntTextShape(n);
    DigitsRoundTrip(m);
    ParseUnpadded(IntToString(n), NatToDigits(m));
  }

  /** Text without a single decimal digit is never an integer: `int()` raises. */
  lemma NoDigitsNoInt(s: string)
    requires forall i :: 0 <= i < |s| ==> !IsDigit(s[i])
    ensures ParseInt(s) == None
  {
    var t := Strip(s);
    var l := StripLeft(s);
    assert forall i :: 0 <= i < |t| ==> t[i] == s[|s| - |l| + i];
    if |t| > 0 {
      assert !IsDigit(t[0]);
    }
    if |t| > 1 {
      assert !IsDigit(t[1..][0]);
    }
  }

  /** The text `'%d' % n` never contains a separator character such as `:` or `,`. */
  lemma IntTextHasOnlySignAndDigits(n: int, c: char)
    requires c != '-' && !IsDigit(c)
    ensures c !in IntToString(n)
  {
    var s := IntToString(n);
    if n < 0 {
      assert forall i :: 1 <= i < |s| ==> s[i] == NatToDigits(-n)[i - 1];
    }
  }

  /** `'%s:%d' % (host, port)`: a host and port as one address. */
  function HostPort(host: string, port: int): (address: string)
    ensures address == host + ":" + IntToString(port)
    ensures ':' !in host ==> Split(address, ':') == [host, IntToString(port)]
  {
    var address := host + ":" + IntToString(port);
    assert ':' !in host ==> Split(address, ':') == [host, IntToString(port)] by {
      if ':' !in host {
        IntTextHasOnlySignAndDigits(port, ':');
        assert Join([host, IntToString(port)], [':']) == address;
        SplitJoin([host, IntToString(port)], ':');
      }
    }
    address
  }
}
