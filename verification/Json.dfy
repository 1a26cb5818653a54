/** JSON documents as Python reads them. */
module Json {
  import opened Wrappers

  datatype Json =
    | Null
    | Bool(b: bool)
    | Int(n: int)
    | Float(r: real)
    | Str(s: string)
    | Arr(items: seq<Json>)
    | Obj(fields: map<string, Json>)

  /** `document.get(key)` on an object. */
  function Field(fields: map<string, Json>, key: string): Json {
    FieldOr(fields, key, Null)
  }

  /** `document.get(key, default)`. */
  function FieldOr(fields: map<string, Json>, key: string, default_: Json): Json {
    if key in fields then fields[key] else default_
  }

  predicate Truthy(j: Json) {
    match j
    case Null => false
    case Bool(b) => b
    case Int(n) => n != 0
    case Float(r) => r != 0.0
    case Str(s) => s != ""
    case Arr(items) => items != []
    case Obj(fields) => fields != map[]
  }

  /** The numeric value; booleans count as 0 and 1. */
  function Number(j: Json): Option<real> {
    match j
    case Bool(b) => Some(if b then 1.0 else 0.0)
    case Int(n) => Some(n as real)
    case Float(r) => Some(r)
    case _ => None
  }

  /** `==` between two values, numbers by value. */
  predicate Equal(a: Json, b: Json) {
    if Number(a).Some? && Number(b).Some? then Number(a) == Number(b) else a == b
  }

  function Pow2(k: nat): int { if k == 0 then 1 else 2 * Pow2(k - 1) }

  /** `float(n)` overflows: the integer rounds to 2^1024 or more. */
  predicate TooLarge(j: Json) {
    j.Int? && (j.n >= Pow2(1024) - Pow2(970) || -j.n >= Pow2(1024) - Pow2(970))
  }

  function Pow10(k: nat): real { if k == 0 then 1.0 else 10.0 * Pow10(k - 1) }

  /** A number with finitely many decimal digits. */
  ghost predicate FiniteDecimal(r: real) { exists k: nat :: HasDigits(r, k) }

  /** At most k digits after the point. */
  predicate HasDigits(r: real, k: nat) { r * Pow10(k) == (r * Pow10(k)).Floor as real }

  /** A value that a text holds exactly: its numbers have finitely many digits. */
  ghost predicate Exact(j: Json) {
    match j
    case Float(r) => FiniteDecimal(r)
    case Arr(items) => forall i :: 0 <= i < |items| ==> Exact(items[i])
    case Obj(fields) => forall key :: key in fields ==> Exact(fields[key])
    case _ => true
  }

  /** An object of plain values and of parts that are exact. */
  lemma FlatIsExact(d: map<string, Json>, parts: set<Json>)
    requires forall part :: part in parts ==> Exact(part)
    requires forall key :: key in d ==> d[key] in parts || d[key].Str? || d[key].Int? || d[key].Bool?
    ensures Exact(Obj(d))
  {
  }

  /** `not (value < least)`; on anything but a number the comparison raises an error. */
  predicate AtLeast(j: Json, least: real) {
    Number(j).Some? && Number(j).value >= least
  }

  // ------------------------------------------------------------- identifiers

  predicate IsHexDigit(c: char) { '0' <= c <= '9' || 'a' <= c <= 'f' }

  predicate IsHex(s: string, n: nat) {
    |s| == n && forall i :: 0 <= i < |s| ==> IsHexDigit(s[i])
  }

  /** A SHA-256 digest as 64 lower-case hexadecimal digits. */
  predicate Hex64(s: string) { IsHex(s, 64) }

  /** A full commit id. */
  predicate CommitId(s: string) { IsHex(s, 40) }

  /** An image reference pinned by digest: `<name>@sha256:<digest>`. */
  predicate Pinned(s: string) {
    |s| > 72 && Hex64(s[|s| - 64..]) && s[|s| - 72..|s| - 64] == "@sha256:" && '\n' !in s[..|s| - 72]
  }

  predicate PinnedText(j: Json) { j.Str? && Pinned(j.s) }

  predicate Hex64Text(j: Json) { j.Str? && Hex64(j.s) }

  predicate CommitText(j: Json) { j.Str? && CommitId(j.s) }

  /** What `str(value).isdigit()` accepts of a string or an integer. */
  predicate DigitsText(j: Json) {
    match j
    case Str(s) => s != "" && forall i :: 0 <= i < |s| ==> '0' <= s[i] <= '9'
    case Int(n) => n >= 0
    case _ => false
  }

  // ------------------------------------------------------------ what these mean

  /** Truth values as in the source's language: null, false, zero and everything empty are false. */
  lemma TruthValues(j: Json)
    ensures !Truthy(j) <==>
      j == Null || j == Bool(false) || j == Int(0) || j == Float(0.0) || j == Str("") || j == Arr([]) || j == Obj(map[])
  {
  }

  /** Equality goes by value among numbers and booleans, and by form otherwise. */
  lemma EqualityOfNumbers(j: Json, n: int)
    ensures Equal(j, Int(n)) <==> j == Int(n) || j == Float(n as real) || (j == Bool(true) && n == 1) || (j == Bool(false) && n == 0)
    ensures Equal(Int(n), j) <==> Equal(j, Int(n))
    ensures forall s :: Equal(j, Str(s)) <==> j == Str(s)
  {
  }

  lemma AtLeastIff(j: Json, least: real)
    ensures AtLeast(j, least) <==>
      || (j.Int? && j.n as real >= least) || (j.Float? && j.r >= least)
      || (j.Bool? && (if j.b then 1.0 else 0.0) >= least)
  {
  }

  const HEX_DIGITS := "0123456789abcdef"

  lemma HexDigitIff(c: char)
    ensures IsHexDigit(c) <==> c in HEX_DIGITS
  {
    if '0' <= c <= '9' {
      assert HEX_DIGITS[c as int - '0' as int] == c;
    } else if 'a' <= c <= 'f' {
      assert HEX_DIGITS[10 + c as int - 'a' as int] == c;
    }
  }

  /** A pinned image is a name without line breaks, the separator, and 64 hexadecimal digits. */
  lemma PinnedIff(s: string)
    ensures Pinned(s) <==> exists name, digest :: s == name + "@sha256:" + digest && name != "" && '\n' !in name && Hex64(digest)
  {
    if Pinned(s) {
      assert s == s[..|s| - 72] + "@sha256:" + s[|s| - 64..];
    }
    if name, digest :| s == name + "@sha256:" + digest && name != "" && '\n' !in name && Hex64(digest) {
      assert |s| == |name| + 72;
      assert s[|s| - 64..] == digest && s[|s| - 72..|s| - 64] == "@sha256:" && s[..|s| - 72] == name;
    }
  }

  /** Digests have 64 digits and commit ids 40, all of them hexadecimal. */
  lemma DigestIff(s: string)
    ensures Hex64(s) <==> |s| == 64 && forall c :: c in s ==> IsHexDigit(c)
    ensures CommitId(s) <==> |s| == 40 && forall c :: c in s ==> IsHexDigit(c)
  {
    hide IsHexDigit;
    if forall c :: c in s ==> IsHexDigit(c) {
      assert forall i :: 0 <= i < |s| ==> s[i] in s;
    }
  }

  lemma DigitsIff(s: string, n: int)
    ensures DigitsText(Str(s)) <==> s != "" && forall c :: c in s ==> c in HEX_DIGITS[..10]
    ensures DigitsText(Int(n)) <==> n >= 0
    ensures !DigitsText(Null) && !DigitsText(Bool(true)) && !DigitsText(Float(1.0)) && !DigitsText(Arr([])) && !DigitsText(Obj(map[]))
  {
    forall c ensures '0' <= c <= '9' <==> c in HEX_DIGITS[..10] {
      if '0' <= c <= '9' {
        assert HEX_DIGITS[..10][c as int - '0' as int] == c;
      }
    }
    hide HEX_DIGITS;
    assert forall i :: 0 <= i < |s| ==> s[i] in s;
  }

  /** Powers by their laws; the limit of a float is 2^1024 less half a unit of its last place. */
  lemma {:induction false} PowersAdd(a: nat, b: nat)
    ensures Pow2(0) == 1 && Pow2(1) == 2 && Pow2(a + b) == Pow2(a) * Pow2(b)
    ensures Pow10(0) == 1.0 && Pow10(1) == 10.0 && Pow10(a + b) == Pow10(a) * Pow10(b)
  {
    assert Pow2(1) == 2 * Pow2(0) && Pow10(1) == 10.0 * Pow10(0);
    if a > 0 {
      PowersAdd(a - 1, b);
      assert Pow2(a + b) == 2 * Pow2(a + b - 1) && Pow10(a + b) == 10.0 * Pow10(a + b - 1);
      assert Pow2(a) == 2 * Pow2(a - 1) && Pow10(a) == 10.0 * Pow10(a - 1);
      Twice(Pow2(a - 1), Pow2(b), Pow10(a - 1), Pow10(b));
    }
  }

  lemma Twice(x: int, y: int, u: real, v: real)
    ensures 2 * (x * y) == 2 * x * y && 10.0 * (u * v) == 10.0 * u * v
  {
  }

  lemma TooLargeIff(n: int)
    ensures TooLarge(Int(n)) <==> n >= Pow2(1024) - Pow2(970) || n <= Pow2(970) - Pow2(1024)
    ensures forall j: Json :: TooLarge(j) ==> j.Int?
  {
    hide Pow2;
  }

  /** A member that is there is read, an absent one is the default; and only text is an identifier. */
  lemma MembersAreRead(d: map<string, Json>, key: string, default_: Json)
    ensures key in d ==> FieldOr(d, key, default_) == d[key] && Field(d, key) == d[key]
    ensures key !in d ==> FieldOr(d, key, default_) == default_ && Field(d, key) == Null
    ensures forall s :: (PinnedText(Str(s)) <==> Pinned(s)) && (Hex64Text(Str(s)) <==> Hex64(s)) && (CommitText(Str(s)) <==> CommitId(s))
    ensures PinnedText(Field(d, key)) || Hex64Text(Field(d, key)) || CommitText(Field(d, key)) ==> Field(d, key).Str?
  {
    hide Pinned, Hex64, CommitId;
  }
}
