/** `getDynamicFontSize(str)`: the CSS font size for a place name, chosen from
    `str.length`, the name's length in UTF-16 code units. Shorter names get larger type. */
module FontSize {
  import opened Js

  const SmolSize: nat := 24
  const MidSize: nat := 36
  const MaxSize: nat := 44

  /** The template literal `${size}px`. */
  function Px(size: nat): (r: string)
    requires size < ExponentFormFrom
    ensures IsPx(r) && PxValue(r) == size
  {
    DecimalTail(size);
    DecimalString(size) + "px"
  }

  /** A CSS pixel length: one or more decimal digits followed by `px`. */
  predicate IsPx(s: string) {
    |s| >= 3 && s[|s| - 2..] == "px" && AllDigits(s[..|s| - 2])
  }

  /** The number of pixels a pixel length denotes. */
  function PxValue(s: string): nat
    requires IsPx(s)
  {
    DecimalValue(s[..|s| - 2])
  }

  lemma DecimalTail(n: nat)
    requires n < ExponentFormFrom
    ensures var r := DecimalString(n) + "px";
      r[|r| - 2..] == "px" && r[..|r| - 2] == DecimalString(n) && DecimalValue(r[..|r| - 2]) == n
  {
    var r := DecimalString(n) + "px";
    assert r[..|r| - 2] == DecimalString(n);
    DecimalRoundTrip(n);
  }

  /** Under 9 code units: 44px; 9 to 15: 36px; more: 24px. */
  function GetDynamicFontSize(str: string): (r: string)
    ensures Utf16Length(str) < 9 ==> r == "44px"
    ensures 9 <= Utf16Length(str) <= 15 ==> r == "36px"
    ensures 15 < Utf16Length(str) ==> r == "24px"
  {
    var length := Utf16Length(str);
    if length < 9 then Px(MaxSize)
    else if length <= 15 then Px(MidSize)
    else Px(SmolSize)
  }

  /** The result is always one of the three sizes, and always a pixel length. */
  lemma FontSizeIsOneOfThree(str: string)
    ensures GetDynamicFontSize(str) in {"44px", "36px", "24px"}
    ensures IsPx(GetDynamicFontSize(str))
    ensures PxValue(GetDynamicFontSize(str)) in {SmolSize, MidSize, MaxSize}
  {
    var r := GetDynamicFontSize(str);
    if Utf16Length(str) < 9 {
      assert r == Px(MaxSize);
    } else if Utf16Length(str) <= 15 {
      assert r == Px(MidSize);
    } else {
      assert r == Px(SmolSize);
    }
  }

  /** Only the length of the name matters. */
  lemma FontSizeDependsOnlyOnLength(a: string, b: string)
    requires Utf16Length(a) == Utf16Length(b)
    ensures GetDynamicFontSize(a) == GetDynamicFontSize(b)
  {
  }

  /** A longer name never gets a larger size. */
  lemma FontSizeMonotone(a: string, b: string)
    requires Utf16Length(a) <= Utf16Length(b)
    ensures PxValue(GetDynamicFontSize(b)) <= PxValue(GetDynamicFontSize(a))
  {
    FontSizeIsOneOfThree(a);
    FontSizeIsOneOfThree(b);
    if Utf16Length(a) < 9 {
      assert GetDynamicFontSize(a) == Px(MaxSize);
    } else if Utf16Length(a) <= 15 {
      assert GetDynamicFontSize(a) == Px(MidSize);
      assert GetDynamicFontSize(b) != Px(MaxSize);
    } else {
      assert GetDynamicFontSize(b) == Px(SmolSize);
    }
  }

  /** The boundaries: 8 code units is the longest name at 44px, 9 the shortest at 36px,
      15 the longest at 36px and 16 the shortest at 24px. */
  lemma FontSizeBoundaries(str: string)
    ensures Utf16Length(str) == 8 ==> GetDynamicFontSize(str) == "44px"
    ensures Utf16Length(str) == 9 ==> GetDynamicFontSize(str) == "36px"
    ensures Utf16Length(str) == 15 ==> GetDynamicFontSize(str) == "36px"
    ensures Utf16Length(str) == 16 ==> GetDynamicFontSize(str) == "24px"
  {
  }

  /** "Ouagadougou" has 11 code units. */
  lemma FontSizeExampleOuagadougou()
    ensures GetDynamicFontSize("Ouagadougou") == "36px"
  {
    assert Utf16Length("Ouagadougou") == 11 by { BmpLength("Ouagadougou"); }
  }

  /** "Santa Eulàlia de Ronçana" has 24 code units: `à` and `ç` are one unit each. */
  lemma FontSizeExampleSantaEulalia()
    ensures GetDynamicFontSize("Santa Eulàlia de Ronçana") == "24px"
  {
    assert Utf16Length("Santa Eulàlia de Ronçana") == 24 by { BmpLength("Santa Eulàlia de Ronçana"); }
  }

  /** "Koło" has 4 code units, so this function gives 44px, not the 48px that
      src/getDynamicFontSize.test.js expects of it (48px is what the variant inside
      App.jsx gives; see App.InlineFontSizeExampleKolo). */
  lemma FontSizeExampleKolo()
    ensures GetDynamicFontSize("Koło") == "44px"
    ensures GetDynamicFontSize("Koło") != "48px"
  {
    assert Utf16Length("Koło") == 4 by { BmpLength("Koło"); }
  }

  /** Eight emoji are eight characters but 16 code units, so they get the smallest size. */
  lemma FontSizeCountsCodeUnits()
    ensures |"\U{1F600}\U{1F600}\U{1F600}\U{1F600}\U{1F600}\U{1F600}\U{1F600}\U{1F600}"| == 8
    ensures GetDynamicFontSize("\U{1F600}\U{1F600}\U{1F600}\U{1F600}\U{1F600}\U{1F600}\U{1F600}\U{1F600}") == "24px"
  {
    assert Utf16Length("\U{1F600}\U{1F600}\U{1F600}\U{1F600}\U{1F600}\U{1F600}\U{1F600}\U{1F600}") == 16;
  }
}
