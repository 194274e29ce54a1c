/**
  The few operations on Java strings that the keybind editor and the tick
  callback rely on, over Dafny strings (sequences of Unicode scalar values):
  `String.valueOf(boolean)` as used by string concatenation, `toUpperCase`,
  `toLowerCase` and `length()`, which counts UTF-16 code units.
 */
module JavaStrings {

  /** The text that string concatenation produces for a boolean. */
  function BoolToString(b: bool): string {
    if b then "true" else "false"
  }

  /**
    The upper-case mappings that turn one character into several. This covers
    the sharp s, the Latin letters and ligatures, and the Armenian ligatures
    of the Unicode special casings; the Greek ones are not modelled. A
    character without such a mapping gives the empty string.
   */
  function SpecialUpper(c: char): string {
    match c
    case '\U{00DF}' => "SS"                    // sharp s
    case '\U{0149}' => "\U{02BC}N"             // n preceded by apostrophe
    case '\U{01F0}' => "J\U{030C}"             // j with caron
    case '\U{1E96}' => "H\U{0331}"             // h with line below
    case '\U{1E97}' => "T\U{0308}"             // t with diaeresis
    case '\U{1E98}' => "W\U{030A}"             // w with ring above
    case '\U{1E99}' => "Y\U{030A}"             // y with ring above
    case '\U{1E9A}' => "A\U{02BE}"             // a with right half ring
    case '\U{FB00}' => "FF"
    case '\U{FB01}' => "FI"
    case '\U{FB02}' => "FL"
    case '\U{FB03}' => "FFI"
    case '\U{FB04}' => "FFL"
    case '\U{FB05}' => "ST"
    case '\U{FB06}' => "ST"
    case '\U{0587}' => "\U{0535}\U{0552}"      // Armenian ech yiwn
    case '\U{FB13}' => "\U{0544}\U{0546}"      // Armenian men now
    case '\U{FB14}' => "\U{0544}\U{0535}"      // Armenian men ech
    case '\U{FB15}' => "\U{0544}\U{053B}"      // Armenian men ini
    case '\U{FB16}' => "\U{054E}\U{0546}"      // Armenian vew now
    case '\U{FB17}' => "\U{0544}\U{053D}"      // Armenian men xeh
    case _ => ""
  }

  /** The character has one of the expanding upper-case mappings. */
  predicate Expands(c: char) {
    SpecialUpper(c) != ""
  }

  /** A character that upper-casing leaves as it is. */
  predicate UpperStable(c: char) {
    !('a' <= c <= 'z') && !Expands(c)
  }

  /** Every expanding mapping yields at least two characters of the Basic Multilingual Plane, all of them stable. */
  lemma SpecialUpperStable(c: char)
    requires Expands(c)
    ensures |SpecialUpper(c)| >= 2
    ensures forall i :: 0 <= i < |SpecialUpper(c)| ==>
              UpperStable(SpecialUpper(c)[i]) && SpecialUpper(c)[i] as int < 0x1_0000
  {
  }

  /**
    Upper-case mapping of one character: ASCII small letters map to their
    capitals, the expanding mappings expand, every other character is unchanged.
   */
  function UpperChar(c: char): (r: string)
    ensures 'a' <= c <= 'z' ==> r == [(c as int - 32) as char]
    ensures |r| == 1 <==> !Expands(c)
    ensures |r| >= 1 && forall i :: 0 <= i < |r| ==> UpperStable(r[i])
    ensures !Expands(c) ==> (r[0] as int < 0x1_0000 <==> c as int < 0x1_0000)
  {
    if 'a' <= c <= 'z' then [(c as int - 32) as char]
    else if Expands(c) then SpecialUpperStable(c); SpecialUpper(c)
    else [c]
  }

  /**
    `toUpperCase`: the result is never shorter and holds only characters that
    upper-casing leaves alone; without expanding characters it maps position
    by position, small ASCII letters to their capitals and all else unchanged.
   */
  function ToUpperCase(s: string): (r: string)
    ensures |r| >= |s|
    ensures forall i :: 0 <= i < |r| ==> UpperStable(r[i])
    ensures (forall i :: 0 <= i < |s| ==> !Expands(s[i])) ==>
              |r| == |s| &&
              forall i :: 0 <= i < |s| ==>
                r[i] == (if 'a' <= s[i] <= 'z' then (s[i] as int - 32) as char else s[i])
  {
    if s == [] then [] else UpperChar(s[0]) + ToUpperCase(s[1..])
  }

  /** Lower-case mapping of one character: ASCII capitals map to their small letters. */
  function LowerChar(c: char): char {
    if 'A' <= c <= 'Z' then (c as int + 32) as char else c
  }

  /** `toLowerCase`: same length, each ASCII capital becomes its small letter, and nothing else changes. */
  function ToLowerCase(s: string): (r: string)
    ensures |r| == |s|
    ensures forall i :: 0 <= i < |s| && 'A' <= s[i] <= 'Z' ==> r[i] as int == s[i] as int + 32
    ensures forall i :: 0 <= i < |r| ==> !('A' <= r[i] <= 'Z')
    ensures forall i :: 0 <= i < |s| && !('A' <= s[i] <= 'Z') ==> r[i] == s[i]
  {
    seq(|s|, i requires 0 <= i < |s| => LowerChar(s[i]))
  }

  /** `String.length()`: characters outside the Basic Multilingual Plane take two code units. */
  function Utf16Length(s: string): (n: nat)
    ensures |s| <= n <= 2 * |s|
  {
    if s == [] then 0
    else (if s[0] as int < 0x1_0000 then 1 else 2) + Utf16Length(s[1..])
  }

  /** A string of stable characters is its own upper case. */
  lemma {:induction false} StableUnchanged(s: string)
    requires forall i :: 0 <= i < |s| ==> UpperStable(s[i])
    ensures ToUpperCase(s) == s
  {
    if s != [] {
      StableUnchanged(s[1..]);
    }
  }

  /** An upper-cased string is left as it is by a second upper-casing. */
  lemma ToUpperCaseIdempotent(s: string)
    ensures ToUpperCase(ToUpperCase(s)) == ToUpperCase(s)
  {
    StableUnchanged(ToUpperCase(s));
  }

  /** A string has UTF-16 length 1 exactly when it is one character of the Basic Multilingual Plane. */
  lemma {:induction false} Utf16LengthOne(s: string)
    ensures Utf16Length(s) == 1 <==> |s| == 1 && s[0] as int < 0x1_0000
  {
    if |s| > 1 {
      assert Utf16Length(s) >= |s|;
    }
  }

  /**
    `s.toUpperCase().length() == 1` holds exactly for the one-character strings
    whose character is in the Basic Multilingual Plane and has no expanding
    upper-case mapping.
   */
  lemma UpperCaseIsOneUnit(s: string)
    ensures Utf16Length(ToUpperCase(s)) == 1
            <==> |s| == 1 && !Expands(s[0]) && s[0] as int < 0x1_0000
  {
    var u := ToUpperCase(s);
    Utf16LengthOne(u);
    if |s| == 1 {
      assert u == UpperChar(s[0]) + ToUpperCase([]);
      if Expands(s[0]) {
        assert |u| >= 2;
      }
    }
  }
}
