/** Text as the JVM holds it: a sequence of UTF-16 code units.
    Kotlin's `Int.toChar()` keeps the low 16 bits of a key code, which may be
    a lone surrogate; Dafny's `char` cannot hold those, so committed text,
    clipboard entries and the text before the cursor are sequences of units. */
module TextUnits {

  /** One UTF-16 code unit, the value range of a Kotlin `Char`. */
  type CodeUnit = c: int | 0 <= c < 0x1_0000

  type Text = seq<CodeUnit>

  /** `Int.toChar()`: the low 16 bits of the two's-complement integer. */
  function ToChar(code: int): (u: CodeUnit)
    ensures (u - code) % 0x1_0000 == 0
    ensures 0 <= code < 0x1_0000 ==> u == code
  {
    code % 0x1_0000
  }

  /** A Dafny string literal whose characters all lie in the Basic
      Multilingual Plane, as UTF-16 units. */
  function Lit(s: string): (t: Text)
    requires forall i | 0 <= i < |s| :: (s[i] as int) < 0x1_0000
    ensures |t| == |s|
    ensures forall i | 0 <= i < |s| :: t[i] == s[i] as int
  {
    seq(|s|, i requires 0 <= i < |s| => s[i] as int)
  }

  /** Kotlin's `Char.isWhitespace()` on the JVM: `Character.isWhitespace`
      (tab through carriage return, the four information separators, and the
      breaking space separators) or `Character.isSpaceChar` (categories Zs, Zl
      and Zp, which adds the no-break spaces). */
  predicate IsWhitespace(u: CodeUnit)
  {
    (0x09 <= u <= 0x0D) || (0x1C <= u <= 0x20) || u == 0xA0 || u == 0x1680
    || (0x2000 <= u <= 0x200A) || u == 0x2028 || u == 0x2029 || u == 0x202F
    || u == 0x205F || u == 0x3000
  }

  /** `CharSequence.isBlank()`: empty or whitespace only. */
  predicate IsBlank(t: Text)
  {
    forall i | 0 <= i < |t| :: IsWhitespace(t[i])
  }

  /** `Character.isLetter`, restricted to the scripts of the two language
      layouts: the Latin letters of ASCII and the basic Cyrillic block. */
  predicate IsLetter(u: CodeUnit)
  {
    (0x41 <= u <= 0x5A) || (0x61 <= u <= 0x7A) || (0x400 <= u <= 0x45F)
  }

  predicate IsLowerCase(u: CodeUnit)
  {
    (0x61 <= u <= 0x7A) || (0x430 <= u <= 0x45F)
  }

  /** `Character.toLowerCase` on the same letters: the independent inverse
      of `ToUpper`, defined over the upper-case ranges. */
  function ToLower(u: CodeUnit): (r: CodeUnit)
    ensures IsLetter(u) ==> IsLetter(r) && IsLowerCase(r)
    ensures IsLowerCase(u) || !IsLetter(u) ==> r == u
  {
    if 0x41 <= u <= 0x5A then u + 0x20
    else if 0x410 <= u <= 0x42F then u + 0x20
    else if 0x400 <= u <= 0x40F then u + 0x50
    else u
  }

  /** `Character.toUpperCase` on the same letters: a lower-case letter
      becomes the capital of that same letter, every other unit is kept. */
  function ToUpper(u: CodeUnit): (r: CodeUnit)
    ensures IsLetter(u) ==> IsLetter(r) && !IsLowerCase(r)
    ensures !IsLowerCase(u) ==> r == u
    ensures IsLowerCase(u) ==> r != u && ToLower(r) == u
  {
    if 0x61 <= u <= 0x7A then u - 0x20
    else if 0x430 <= u <= 0x44F then u - 0x20
    else if 0x450 <= u <= 0x45F then u - 0x50
    else u
  }

  /** The first `n` units of `t`, or all of it (`take(n)`). */
  function Take<T>(t: seq<T>, n: nat): (r: seq<T>)
    ensures |r| == if |t| <= n then |t| else n
    ensures forall i | 0 <= i < |r| :: r[i] == t[i]
  {
    if |t| <= n then t else t[..n]
  }

  /** The last `n` units of `t`, or all of it (`getTextBeforeCursor(n, 0)`). */
  function TakeLast<T>(t: seq<T>, n: nat): (r: seq<T>)
    ensures |r| == if |t| <= n then |t| else n
    ensures forall i | 0 <= i < |r| :: r[i] == t[|t| - |r| + i]
  {
    if |t| <= n then t else t[|t| - n..]
  }
}
