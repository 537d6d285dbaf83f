/** Text as the program's own library calls see it: white space, and 64-bit integers and
    booleans in decimal notation. */
module Text {
  import opened Prelude

  // ------------------------------------------------------------------ white space

  /** The white-space characters of Unicode. */
  predicate IsSpace(c: char) {
    var n := c as int;
    || 0x9 <= n <= 0xD || n in {0x20, 0x85, 0xA0, 0x1680} || 0x2000 <= n <= 0x200A
    || n in {0x2028, 0x2029, 0x202F, 0x205F, 0x3000}
  }

  predicate AllSpace(s: string) {
    forall i :: 0 <= i < |s| ==> IsSpace(s[i])
  }

  /** Nothing to trim at either end. */
  predicate Trimmed(s: string) {
    s != "" ==> !IsSpace(s[0]) && !IsSpace(s[|s| - 1])
  }

  function TrimSpace(s: string): (core: string)
    ensures Trimmed(core)
    ensures core == "" <==> AllSpace(s)
    decreases |s|
  {
    if s == "" then s
    else if IsSpace(s[0]) then TrimSpace(s[1..])
    else if IsSpace(s[|s| - 1]) then TrimSpace(s[..|s| - 1])
    else s
  }

  /** Trimming gives back exactly the text that was padded. */
  lemma {:induction false} TrimPadded(left: string, core: string, right: string)
    requires AllSpace(left) && Trimmed(core) && AllSpace(right)
    ensures TrimSpace(left + core + right) == core
    decreases |left| + |right|
  {
    var s := left + core + right;
    if left != "" {
      assert s[1..] == left[1..] + core + right;
      TrimPadded(left[1..], core, right);
    } else if core == "" {
      assert s == right;
    } else if right != "" {
      assert s[0] == core[0];
      assert s[..|s| - 1] == left + core + right[..|right| - 1];
      TrimPadded(left, core, right[..|right| - 1]);
    } else {
      assert s == core;
    }
  }

  // --------------------------------------------------------------------- decimals

  predicate IsDigit(c: char) {
    '0' <= c <= '9'
  }

  predicate Digits(s: string) {
    s != "" && forall i :: 0 <= i < |s| ==> IsDigit(s[i])
  }

  function DigitsValue(s: string): nat
    requires forall i :: 0 <= i < |s| ==> IsDigit(s[i])
  {
    if s == "" then 0
    else
      var last := s[|s| - 1];
      assert IsDigit(last);
      10 * DigitsValue(s[..|s| - 1]) + (last as int - '0' as int)
  }

  /** The shortest decimal notation of a number. */
  function FormatNat(n: nat): (s: string)
    ensures Digits(s) && DigitsValue(s) == n
    ensures s[0] == '0' ==> s == "0"
  {
    var last := [('0' as int + n % 10) as char];
    if n < 10 then assert last[..0] == ""; last
    else
      var s := FormatNat(n / 10) + last;
      assert s[..|s| - 1] == FormatNat(n / 10);
      s
  }

  function FormatInt(x: int): string {
    if x < 0 then "-" + FormatNat(-x) else FormatNat(x)
  }

  /** Reading a signed 64-bit decimal: an optional sign, then digits only, then a value
      in range. */
  function ParseInt(s: string): (x: Option<int>)
    ensures x.Some? ==> FitsInt64(x.value)
  {
    var negative := s != "" && s[0] == '-';
    var digits := if negative || (s != "" && s[0] == '+') then s[1..] else s;
    if !Digits(digits) then None
    else
      var n: int := DigitsValue(digits);
      var x := if negative then -n else n;
      if FitsInt64(x) then Some(x) else None
  }

  /** A 64-bit integer survives being written and read, the smallest one included; any
      other integer is refused. */
  lemma ParseFormat(x: int)
    ensures ParseInt(FormatInt(x)) == if FitsInt64(x) then Some(x) else None
  {
    if x < 0 {
      assert FormatInt(x)[1..] == FormatNat(-x);
    }
  }

  function FormatBool(b: bool): string {
    if b then "true" else "false"
  }

  function ParseBool(s: string): (b: Option<bool>)
    ensures b == Some(true) <==> s in {"1", "t", "T", "true", "TRUE", "True"}
    ensures b == Some(false) <==> s in {"0", "f", "F", "false", "FALSE", "False"}
  {
    if s in ["1", "t", "T", "true", "TRUE", "True"] then Some(true)
    else if s in ["0", "f", "F", "false", "FALSE", "False"] then
      assert s[0] in "0fF" && s[0] !in "1tT";
      Some(false)
    else None
  }
}
