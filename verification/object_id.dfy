/** Document identifiers: a MongoDB ObjectId is a 12-byte value whose `toString()` is
    24 lower-case hexadecimal digits. Casting a string to an ObjectId (what Mongoose does
    to `_id` and `userId` query values) accepts 24 hexadecimal digits of either case and
    fails with a CastError on anything else. */
module ObjectIds {
  import opened Wrappers

  const ObjectIdLimit: nat := 0x1_0000_0000_0000_0000_0000_0000

  /** A 96-bit identifier. */
  type ObjectId = n: nat | n < ObjectIdLimit

  function Pow16(n: nat): (p: nat)
    ensures p >= 1
  {
    if n == 0 then 1 else 16 * Pow16(n - 1)
  }

  function HexChar(k: nat): (c: char)
    requires k < 16
  {
    if k < 10 then ('0' as int + k) as char else ('a' as int + (k - 10)) as char
  }

  /** The value of a hexadecimal digit of either case. */
  function HexValue(c: char): (v: Option<nat>)
    ensures v.Some? ==> v.value < 16
  {
    if '0' <= c <= '9' then Some(c as int - '0' as int)
    else if 'a' <= c <= 'f' then Some(c as int - 'a' as int + 10)
    else if 'A' <= c <= 'F' then Some(c as int - 'A' as int + 10)
    else None
  }

  lemma HexValueOfHexChar(k: nat)
    requires k < 16
    ensures HexValue(HexChar(k)) == Some(k)
  {
  }

  /** The last `width` hexadecimal digits of `n`, most significant first. */
  function HexDigits(n: nat, width: nat): (s: string)
    ensures |s| == width
  {
    if width == 0 then [] else HexDigits(n / 16, width - 1) + [HexChar(n % 16)]
  }

  predicate AllHex(s: string) {
    forall i :: 0 <= i < |s| ==> HexValue(s[i]).Some?
  }

  function HexDigitsValue(s: string): (v: nat)
    requires AllHex(s)
    ensures v < Pow16(|s|)
  {
    if s == [] then 0
    else
      assert HexValue(s[|s| - 1]).Some?;
      16 * HexDigitsValue(s[..|s| - 1]) + HexValue(s[|s| - 1]).value
  }

  lemma {:induction false} HexDigitsRoundTrip(n: nat, width: nat)
    requires n < Pow16(width)
    ensures AllHex(HexDigits(n, width))
    ensures HexDigitsValue(HexDigits(n, width)) == n
  {
    if width > 0 {
      var s := HexDigits(n, width);
      assert s[..|s| - 1] == HexDigits(n / 16, width - 1);
      HexDigitsRoundTrip(n / 16, width - 1);
      HexValueOfHexChar(n % 16);
    }
  }

  lemma Pow16Of24()
    ensures Pow16(24) == ObjectIdLimit
  {
    assert Pow16(1) == 0x10;
    assert Pow16(2) == 0x100;
    assert Pow16(3) == 0x1000;
    assert Pow16(4) == 0x10000;
    assert Pow16(5) == 0x100000;
    assert Pow16(6) == 0x1000000;
    assert Pow16(7) == 0x10000000;
    assert Pow16(8) == 0x100000000;
    assert Pow16(9) == 0x1000000000;
    assert Pow16(10) == 0x10000000000;
    assert Pow16(11) == 0x100000000000;
    assert Pow16(12) == 0x1000000000000;
    assert Pow16(13) == 0x10000000000000;
    assert Pow16(14) == 0x100000000000000;
    assert Pow16(15) == 0x1000000000000000;
    assert Pow16(16) == 0x10000000000000000;
    assert Pow16(17) == 0x100000000000000000;
    assert Pow16(18) == 0x1000000000000000000;
    assert Pow16(19) == 0x10000000000000000000;
    assert Pow16(20) == 0x100000000000000000000;
    assert Pow16(21) == 0x1000000000000000000000;
    assert Pow16(22) == 0x10000000000000000000000;
    assert Pow16(23) == 0x100000000000000000000000;
    assert Pow16(24) == 0x1000000000000000000000000;
  }

  /** `ObjectId.prototype.toString()`. */
  function IdString(id: ObjectId): (s: string)
    ensures |s| == 24
  {
    HexDigits(id, 24)
  }

  /** Mongoose's cast of a string to an ObjectId. */
  function ParseObjectId(s: string): (r: Option<ObjectId>)
    ensures r.Some? <==> |s| == 24 && AllHex(s)
  {
    if |s| == 24 && AllHex(s) then
      Pow16Of24();
      Some(HexDigitsValue(s))
    else None
  }

  /** Printing an identifier and casting the text back gives the identifier. */
  lemma IdStringRoundTrip(id: ObjectId)
    ensures ParseObjectId(IdString(id)) == Some(id)
  {
    Pow16Of24();
    HexDigitsRoundTrip(id, 24);
  }

  /** Distinct identifiers print differently. */
  lemma IdStringInjective(a: ObjectId, b: ObjectId)
    requires IdString(a) == IdString(b)
    ensures a == b
  {
    IdStringRoundTrip(a);
    IdStringRoundTrip(b);
  }

  /** The digits of the value of a hexadecimal text are the text's digits, letter case
      aside. */
  lemma {:induction false} HexDigitsOfValue(s: string)
    requires AllHex(s)
    ensures forall i :: 0 <= i < |s| ==> HexValue(HexDigits(HexDigitsValue(s), |s|)[i]) == HexValue(s[i])
  {
    if s != [] {
      var t := s[..|s| - 1];
      assert AllHex(t) by {
        forall i | 0 <= i < |t|
          ensures HexValue(t[i]).Some?
        {
          assert t[i] == s[i];
        }
      }
      HexDigitsOfValue(t);
      var n := HexDigitsValue(s);
      var last := HexValue(s[|s| - 1]).value;
      assert n == 16 * HexDigitsValue(t) + last;
      assert n / 16 == HexDigitsValue(t) && n % 16 == last;
      HexValueOfHexChar(last);
      var h := HexDigits(n, |s|);
      assert h == HexDigits(HexDigitsValue(t), |t|) + [HexChar(last)];
      forall i | 0 <= i < |s|
        ensures HexValue(h[i]) == HexValue(s[i])
      {
        if i < |t| {
          assert h[i] == HexDigits(HexDigitsValue(t), |t|)[i] && s[i] == t[i];
        }
      }
    }
  }

  /** The identifier a string casts to prints back as that string, digit by digit, up to
      the case of the letters a to f. */
  lemma ParseObjectIdPrintsBack(s: string, x: ObjectId)
    ensures ParseObjectId(s) == Some(x) ==>
      forall i :: 0 <= i < 24 ==> HexValue(IdString(x)[i]) == HexValue(s[i])
  {
    if ParseObjectId(s) == Some(x) {
      HexDigitsOfValue(s);
    }
  }
}
