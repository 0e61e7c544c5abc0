/**
 * The text form of a database snapshot in local storage: `persistDb` writes
 * `JSON.stringify(Array.from(db.export()))`, a JSON array of byte values,
 * and `initialize` reads it back with `Uint8Array.from(JSON.parse(text))`.
 */
module SnapshotCodec {
  import opened Wrappers

  newtype byte = x: int | 0 <= x < 256

  predicate IsDigit(c: char)
  {
    '0' <= c <= '9'
  }

  predicate AllDigits(s: string)
  {
    forall i :: 0 <= i < |s| ==> IsDigit(s[i])
  }

  function DigitChar(d: nat): (c: char)
    requires d < 10
    ensures IsDigit(c)
  {
    ('0' as int + d) as char
  }

  function DigitValue(c: char): nat
    requires IsDigit(c)
  {
    c as int - '0' as int
  }

  /** How a non-negative integer prints in JSON: its decimal digits, no leading zero. */
  function Decimal(n: nat): (s: string)
    ensures |s| > 0 && AllDigits(s)
    ensures n > 0 ==> s[0] != '0'
  {
    if n < 10 then [DigitChar(n)] else Decimal(n / 10) + [DigitChar(n % 10)]
  }

  /** The number a run of decimal digits denotes. */
  function DigitsValue(ds: string): nat
    requires AllDigits(ds)
  {
    if ds == [] then 0 else DigitsValue(ds[..|ds| - 1]) * 10 + DigitValue(ds[|ds| - 1])
  }

  /** The number of decimal digits at the start of `s`. */
  function DigitRun(s: string): (n: nat)
    ensures n <= |s| && AllDigits(s[..n])
    ensures n < |s| ==> !IsDigit(s[n])
  {
    if |s| > 0 && IsDigit(s[0]) then
      var k := DigitRun(s[1..]);
      assert s[..k + 1] == [s[0]] + s[1..][..k];
      k + 1
    else
      0
  }

  function Items(bs: seq<byte>): string
  {
    if |bs| == 0 then ""
    else if |bs| == 1 then Decimal(bs[0] as nat)
    else Decimal(bs[0] as nat) + "," + Items(bs[1..])
  }

  /** `JSON.stringify(Array.from(bytes))`. */
  function EncodeByteArray(bs: seq<byte>): (text: string)
    ensures |text| >= 2 && text[0] == '[' && text[|text| - 1] == ']'
  {
    "[" + Items(bs) + "]"
  }

  /** The comma-separated numbers between the brackets; each is reduced modulo 256 as `Uint8Array` does. */
  function DecodeItems(s: string): Option<seq<byte>>
    decreases |s|
  {
    var n := DigitRun(s);
    if n == 0 || (n > 1 && s[0] == '0') then None
    else
      var b := (DigitsValue(s[..n]) % 256) as byte;
      if n == |s| then Some([b])
      else if s[n] == ',' then
        match DecodeItems(s[n + 1..])
        case None => None
        case Some(rest) => Some([b] + rest)
      else None
  }

  /**
   * `Uint8Array.from(JSON.parse(text))` for texts that are JSON arrays of
   * non-negative integers written without whitespace; `None` stands for the
   * exception `JSON.parse` throws.
   */
  function DecodeByteArray(text: string): Option<seq<byte>>
  {
    if |text| >= 2 && text[0] == '[' && text[|text| - 1] == ']' then
      var body := text[1..|text| - 1];
      if body == "" then Some([]) else DecodeItems(body)
    else
      None
  }

  lemma {:induction false} DecimalValue(n: nat)
    ensures DigitsValue(Decimal(n)) == n
  {
    if n >= 10 {
      DecimalValue(n / 10);
      var d := Decimal(n);
      assert d[..|d| - 1] == Decimal(n / 10);
    }
  }

  lemma {:induction false} DigitRunOfPrefix(d: string, rest: string)
    requires AllDigits(d)
    requires rest == [] || !IsDigit(rest[0])
    ensures DigitRun(d + rest) == |d|
  {
    if d != [] {
      assert (d + rest)[1..] == d[1..] + rest;
      DigitRunOfPrefix(d[1..], rest);
    }
  }

  lemma {:induction false} ItemsRoundTrip(bs: seq<byte>)
    requires |bs| > 0
    ensures DecodeItems(Items(bs)) == Some(bs)
  {
    var d := Decimal(bs[0] as nat);
    DecimalValue(bs[0] as nat);
    if |bs| == 1 {
      DigitRunOfPrefix(d, []);
      assert Items(bs) == d + [] == d && d[..|d|] == d;
      assert bs[0] == 0 ==> |d| == 1;
      assert [bs[0]] == bs;
    } else {
      var tail := Items(bs[1..]);
      var s := d + "," + tail;
      DigitRunOfPrefix(d, "," + tail);
      assert s == d + ("," + tail);
      assert s[..|d|] == d;
      assert s[|d|] == ',';
      assert s[|d| + 1..] == tail;
      ItemsRoundTrip(bs[1..]);
      assert [bs[0]] + bs[1..] == bs;
    }
  }

  /** Reading back what `persistDb` wrote gives the same bytes. */
  lemma {:induction false} ByteArrayRoundTrip(bs: seq<byte>)
    ensures DecodeByteArray(EncodeByteArray(bs)) == Some(bs)
  {
    var text := EncodeByteArray(bs);
    assert text[1..|text| - 1] == Items(bs);
    if bs != [] {
      ItemsRoundTrip(bs);
      assert Items(bs) != "";
    }
  }
}
