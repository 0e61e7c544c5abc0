/**
 * Vendor records as the TypeScript code handles them: plain objects whose
 * properties hold strings (or `null`, when they come back from SQL), and the
 * few JavaScript string operations the vendor code applies to them.
 */
module Records {

  /** A property value: a string, or `null`. */
  datatype Value = Str(s: string) | Null

  /** A plain object; a key that is absent reads as `undefined`. */
  type Record = map<string, Value>

  const VendorNameKey := "vendorName"

  /** The shape `VendorInputFields` demands: `vendorName` is a string. */
  predicate HasVendorName(r: Record)
  {
    VendorNameKey in r && r[VendorNameKey].Str?
  }

  type VendorRecord = r: Record | HasVendorName(r) witness map[VendorNameKey := Str("")]

  function NameOf(r: VendorRecord): string
  {
    r[VendorNameKey].s
  }

  /** `r.vendorName === name`: strict, case-sensitive equality. */
  predicate NameIs(r: Record, name: string)
  {
    VendorNameKey in r && r[VendorNameKey] == Str(name)
  }

  /** JavaScript truthiness of `r[k]`: `undefined`, `null` and `""` are falsy. */
  predicate Truthy(r: Record, k: string)
  {
    k in r && r[k].Str? && r[k].s != ""
  }

  /** `r[k] || fallback`. */
  function OrElse(r: Record, k: string, fallback: string): (s: string)
    ensures Truthy(r, k) ==> s == r[k].s && s != ""
    ensures !Truthy(r, k) ==> s == fallback
  {
    if Truthy(r, k) then r[k].s else fallback
  }

  /** The characters `String.prototype.trim` removes (WhiteSpace and LineTerminator). */
  predicate IsJsWhitespace(c: char)
  {
    || c == ' ' || c == '\t' || c == '\n' || c == '\U{000B}' || c == '\U{000C}' || c == '\r'
    || c == '\U{00A0}' || c == '\U{1680}' || ('\U{2000}' <= c <= '\U{200A}')
    || c == '\U{2028}' || c == '\U{2029}' || c == '\U{202F}' || c == '\U{205F}'
    || c == '\U{3000}' || c == '\U{FEFF}'
  }

  predicate IsBlank(s: string)
  {
    forall i :: 0 <= i < |s| ==> IsJsWhitespace(s[i])
  }

  function TrimStart(s: string): string
  {
    if |s| > 0 && IsJsWhitespace(s[0]) then TrimStart(s[1..]) else s
  }

  function TrimEnd(s: string): string
  {
    if |s| > 0 && IsJsWhitespace(s[|s| - 1]) then TrimEnd(s[..|s| - 1]) else s
  }

  /** `s.trim()`. */
  function Trim(s: string): string
  {
    TrimEnd(TrimStart(s))
  }

  lemma {:induction false} TrimStartEmptyIffBlank(s: string)
    ensures TrimStart(s) == "" <==> IsBlank(s)
  {
    if |s| > 0 && IsJsWhitespace(s[0]) {
      TrimStartEmptyIffBlank(s[1..]);
      assert IsBlank(s) <==> IsBlank(s[1..]) by {
        if IsBlank(s[1..]) {
          forall i | 0 < i < |s| ensures IsJsWhitespace(s[i]) { assert s[i] == s[1..][i - 1]; }
        }
      }
    } else if |s| > 0 {
      assert !IsJsWhitespace(s[0]);
    }
  }

  lemma {:induction false} TrimEndEmptyIffBlank(s: string)
    ensures TrimEnd(s) == "" <==> IsBlank(s)
  {
    if |s| > 0 && IsJsWhitespace(s[|s| - 1]) {
      var init := s[..|s| - 1];
      TrimEndEmptyIffBlank(init);
      assert IsBlank(s) <==> IsBlank(init) by {
        if IsBlank(init) {
          forall i | 0 <= i < |s| - 1 ensures IsJsWhitespace(s[i]) { assert s[i] == init[i]; }
        }
      }
    } else if |s| > 0 {
      assert !IsJsWhitespace(s[|s| - 1]);
    }
  }

  lemma {:induction false} TrimStartIsSuffix(s: string)
    ensures |TrimStart(s)| <= |s| && TrimStart(s) == s[|s| - |TrimStart(s)|..]
    ensures IsBlank(s[..|s| - |TrimStart(s)|])
  {
    if |s| > 0 && IsJsWhitespace(s[0]) {
      TrimStartIsSuffix(s[1..]);
      var k := |s| - |TrimStart(s)|;
      assert s[1..][k - 1..] == s[k..];
      forall i | 0 <= i < k ensures IsJsWhitespace(s[..k][i]) {
        if i > 0 { assert s[..k][i] == s[1..][..k - 1][i - 1]; }
      }
    }
  }

  /** `!s.trim()` holds exactly when `s` is empty or made only of whitespace. */
  lemma TrimEmptyIffBlank(s: string)
    ensures Trim(s) == "" <==> IsBlank(s)
  {
    var t := TrimStart(s);
    TrimStartEmptyIffBlank(s);
    TrimEndEmptyIffBlank(t);
    TrimStartIsSuffix(s);
    if IsBlank(s) {
      assert t == "";
    }
  }

  /**
   * `toLowerCase` on one character, for the Basic Latin and Latin-1
   * letters; other characters are left as they are.
   */
  function LowerChar(c: char): char
  {
    if 'A' <= c <= 'Z' || ('\U{00C0}' <= c <= '\U{00DE}' && c != '\U{00D7}') then
      (c as int + 32) as char
    else
      c
  }

  /** `s.toLowerCase()`, character by character. */
  function ToLower(s: string): (r: string)
    ensures |r| == |s|
    ensures forall i :: 0 <= i < |s| ==> r[i] == LowerChar(s[i])
  {
    seq(|s|, i requires 0 <= i < |s| => LowerChar(s[i]))
  }

  predicate StartsWith(s: string, prefix: string)
  {
    |prefix| <= |s| && s[..|prefix|] == prefix
  }

  /** `t` occurs in `s` starting at index `i`. */
  predicate OccursAt(s: string, t: string, i: int)
  {
    0 <= i <= |s| - |t| && s[i..i + |t|] == t
  }

  /** `s.includes(t)`, defined by scanning `s` from the left. */
  predicate Includes(s: string, t: string)
    decreases |s|
  {
    StartsWith(s, t) || (|s| > 0 && Includes(s[1..], t))
  }

  /** `Includes` agrees with "t occurs at some position of s". */
  lemma {:induction false} IncludesIffOccurs(s: string, t: string)
    ensures Includes(s, t) <==> exists i :: OccursAt(s, t, i)
  {
    if StartsWith(s, t) {
      assert OccursAt(s, t, 0);
    } else if |s| > 0 {
      IncludesIffOccurs(s[1..], t);
      if exists i :: OccursAt(s, t, i) {
        var i :| OccursAt(s, t, i);
        assert i != 0;
        assert s[1..][i - 1..i - 1 + |t|] == t;
        assert OccursAt(s[1..], t, i - 1);
      }
      if Includes(s[1..], t) {
        var i :| OccursAt(s[1..], t, i);
        assert s[i + 1..i + 1 + |t|] == t;
        assert OccursAt(s, t, i + 1);
      }
    }
  }
}
