/**
 * `getUsernameColor`: a rolling hash of the name's UTF-16 code units, with
 * the Number arithmetic and the 32-bit `<<` of ECMAScript, reduced modulo
 * the size of a fixed palette.
 */
module Colors {
  import JsText

  /** `COLORS`: the palette a username is drawn in. */
  const Palette: seq<string> := [
    "#e21400", "#91580f", "#f8a700", "#f78b00",
    "#58dc00", "#287b00", "#a8f07a", "#4ae8c4",
    "#3b88eb", "#3824aa", "#a700ff", "#d300e7"
  ]

  /** The value the hash starts from. */
  const Seed := 7

  const Two31 := 0x8000_0000
  const Two32 := 0x1_0000_0000

  /** 2^53: integers below this magnitude are exact in a Number. */
  const Two53 := 0x20_0000_0000_0000

  /** ToInt32 (section 7.1.6 of ECMA-262) of an integral Number: wrap into [-2^31, 2^31). */
  function ToInt32(x: int): (r: int)
    ensures -Two31 <= r < Two31
    ensures Congruent32(r, x)
    ensures -Two31 <= x < Two31 ==> r == x
  {
    var m := x % Two32;
    var r := if m >= Two31 then m - Two32 else m;
    assert r - x == -(x / Two32 + (if m >= Two31 then 1 else 0)) * Two32;
    r
  }

  /** `a` and `b` are congruent modulo 2^32: they wrap to the same 32-bit pattern. */
  predicate Congruent32(a: int, b: int) {
    (a - b) % Two32 == 0
  }

  /** Congruence modulo 2^32 survives sums and integer multiples. */
  lemma CongruentLinear(a: int, b: int, c: int, d: int, m: int)
    requires Congruent32(a, b) && Congruent32(c, d)
    ensures Congruent32(m * a + c, m * b + d)
  {
    var k, l := (a - b) / Two32, (c - d) / Two32;
    assert a - b == k * Two32 && c - d == l * Two32;
    assert (m * a + c) - (m * b + d) == m * (a - b) + (c - d);
    assert m * (a - b) == (m * k) * Two32;
    assert (m * a + c) - (m * b + d) == (m * k + l) * Two32;
  }

  /**
   * `x << 5` (section 13.9.1 of ECMA-262): the left operand goes through
   * ToInt32, and the shifted value is again read as a signed 32-bit integer.
   */
  function ShiftLeft5(x: int): (r: int)
    ensures -Two31 <= r < Two31
    ensures Congruent32(r, 32 * x)
    ensures -0x400_0000 <= x < 0x400_0000 ==> r == 32 * x
  {
    var y := ToInt32(x);
    var r := ToInt32(y * 32);
    CongruentLinear(y, x, 0, 0, 32);
    CongruentTransitive(r, 32 * y, 32 * x);
    r
  }

  /**
   * One step of the loop: `hash = code + (hash << 5) - hash`. Modulo 2^32
   * this is `31 * hash + code`, and exactly that while `hash << 5` loses no bits.
   */
  function Step(hash: int, code: int): (r: int)
    ensures Congruent32(r, 31 * hash + code)
    ensures -0x400_0000 <= hash < 0x400_0000 ==> r == 31 * hash + code
  {
    var s := ShiftLeft5(hash);
    CongruentLinear(s, 32 * hash, code - hash, code - hash, 1);
    code + s - hash
  }

  /**
   * The reference hash: the polynomial `7 * 31^n + u[0] * 31^(n-1) + ... + u[n-1]`
   * in exact arithmetic, written in Horner form.
   */
  function Polynomial(units: seq<int>): int {
    if units == [] then Seed else 31 * Polynomial(units[..|units| - 1]) + units[|units| - 1]
  }

  /**
   * The hash of a sequence of code units: a left fold of `Step` from `Seed`.
   * It wraps to the same 32-bit pattern as the exact polynomial.
   */
  function Hash(units: seq<int>): (r: int)
    ensures Congruent32(r, Polynomial(units))
  {
    if units == [] then Seed
    else
      var prefix, last := units[..|units| - 1], units[|units| - 1];
      var h := Hash(prefix);
      CongruentLinear(h, Polynomial(prefix), last, last, 31);
      CongruentTransitive(Step(h, last), 31 * h + last, 31 * Polynomial(prefix) + last);
      Step(h, last)
  }

  lemma CongruentTransitive(a: int, b: int, c: int)
    requires Congruent32(a, b) && Congruent32(b, c)
    ensures Congruent32(a, c)
  {
    var k, l := (a - b) / Two32, (b - c) / Two32;
    assert a - c == (k + l) * Two32;
  }

  /**
   * The hash grows by less than 2^31 + 2^16 per code unit, so it is a
   * bounded integer whatever the name.
   */
  lemma {:induction false} HashBound(units: seq<int>)
    requires forall i :: 0 <= i < |units| ==> 0 <= units[i] < 0x1_0000
    ensures -Seed - |units| * (Two31 + 0x1_0000) <= Hash(units) <= Seed + |units| * (Two31 + 0x1_0000)
  {
    if units != [] {
      HashBound(units[..|units| - 1]);
    }
  }

  /**
   * For a name of at most 2^21 code units every value the loop computes is
   * an integer of magnitude below 2^53, so the Number arithmetic of the
   * source is exact and the integer model is faithful.
   */
  lemma HashIsExact(units: seq<int>)
    requires forall i :: 0 <= i < |units| ==> 0 <= units[i] < 0x1_0000
    requires |units| <= 0x20_0000
    ensures -Two53 < Hash(units) < Two53
  {
    HashBound(units);
    assert |units| * (Two31 + 0x1_0000) <= 0x20_0000 * (Two31 + 0x1_0000);
  }

  /** `a % b` on Numbers: the remainder takes the sign of the dividend. */
  function JsRemainder(a: int, b: int): (r: int)
    requires b > 0
    ensures -b < r < b
    ensures Abs(r) == Abs(a) % b
    ensures a >= 0 ==> r >= 0
    ensures a < 0 ==> r <= 0
  {
    if a >= 0 then a % b else -((-a) % b)
  }

  function Abs(x: int): nat {
    if x < 0 then -x else x
  }

  /** `Math.abs(hash % COLORS.length)`: the palette index of a hash. */
  function ColorIndex(hash: int): (i: nat)
    ensures i < |Palette|
    ensures i == Abs(hash) % |Palette|
  {
    Abs(JsRemainder(hash, |Palette|))
  }

  /**
   * The colour a username is shown in: a palette entry chosen by the
   * magnitude of the hash modulo the palette size.
   */
  function UsernameColor(username: string): (color: string)
    ensures color in Palette
    ensures color == Palette[Abs(Hash(JsText.CodeUnits(username))) % |Palette|]
  {
    Palette[ColorIndex(Hash(JsText.CodeUnits(username)))]
  }

  /**
   * `getUsernameColor(username)`: runs the hash loop over the name's code
   * units and picks from the palette. The result is always a palette entry
   * and depends on nothing but the name.
   */
  method GetUsernameColor(username: string) returns (color: string)
    ensures color == UsernameColor(username)
    ensures color in Palette
  {
    var units := JsText.CodeUnits(username);
    var hash := Seed;
    for i := 0 to |units|
      invariant hash == Hash(units[..i])
    {
      assert units[..i + 1][..i] == units[..i];
      hash := units[i] + ShiftLeft5(hash) - hash;
    }
    assert units[..|units|] == units;
    var index := Abs(JsRemainder(hash, |Palette|));
    color := Palette[index];
  }

  /** The empty name keeps the seed 7 and is shown in the eighth colour. */
  lemma EmptyNameColor()
    ensures UsernameColor("") == "#4ae8c4"
  {
  }

  /** A one-letter name: "a" hashes to 97 + 224 - 7 = 314, and 314 mod 12 is 2. */
  lemma OneLetterNameColor()
    ensures Hash(JsText.CodeUnits("a")) == 314
    ensures UsernameColor("a") == "#f8a700"
  {
    assert JsText.CodeUnits("a") == [97];
    assert [97][..0] == [];
  }
}
