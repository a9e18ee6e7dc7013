/** The rules `updateUI` applies to the main screen after every change of the
    selection. Each output depends on the number of selected photos only. */
module CollageUi {

  /** The photo count from which the add button is disabled. */
  const MaxPhotos: nat := 6

  /** Title shown while nothing is selected. */
  const Placeholder: string := "Collage"

  /** Text after the count in the title of a non-empty selection. */
  const PhotosSuffix: string := " photos"

  /** Save is offered only for a non-empty, even number of photos. */
  predicate SaveEnabled(n: nat)
    ensures SaveEnabled(n) ==> ClearEnabled(n) && n >= 2
  {
    n > 0 && n % 2 == 0
  }

  /** Clear is offered as soon as anything is selected, which is exactly
      when the title shows a count instead of the placeholder. */
  predicate ClearEnabled(n: nat)
    ensures ClearEnabled(n) <==> Title(n) != Placeholder
  {
    n > 0
  }

  /** More photos may be added while fewer than six are selected. */
  predicate AddEnabled(n: nat)
    ensures !AddEnabled(n) ==> ClearEnabled(n)
  {
    n < MaxPhotos
  }

  predicate IsDigit(c: char) {
    '0' <= c <= '9'
  }

  function DigitChar(d: nat): (c: char)
    requires d < 10
    ensures IsDigit(c) && DigitValue(c) == d
  {
    ('0' as int + d) as char
  }

  function DigitValue(c: char): (d: nat)
    requires IsDigit(c)
    ensures d < 10
  {
    c as int - '0' as int
  }

  predicate AllDigits(s: string) {
    forall i :: 0 <= i < |s| ==> IsDigit(s[i])
  }

  /** Decimal rendering of a count, as string interpolation writes it. */
  function NatToString(n: nat): (s: string)
    ensures |s| >= 1 && AllDigits(s)
    ensures s[0] == '0' ==> n == 0
    decreases n
  {
    if n < 10 then [DigitChar(n)] else NatToString(n / 10) + [DigitChar(n % 10)]
  }

  /** Reads a string of decimal digits back as a number. */
  function ParseDecimal(s: string): nat
    requires AllDigits(s)
  {
    if s == [] then 0 else ParseDecimal(s[..|s| - 1]) * 10 + DigitValue(s[|s| - 1])
  }

  /** Rendering a count and reading it back gives the count. */
  lemma {:induction false} ParseNatToString(n: nat)
    ensures ParseDecimal(NatToString(n)) == n
    decreases n
  {
    if n >= 10 {
      var prefix := NatToString(n / 10);
      var s := NatToString(n);
      assert s == prefix + [DigitChar(n % 10)];
      assert s[..|s| - 1] == prefix;
      ParseNatToString(n / 10);
    }
  }

  /** The navigation title: the placeholder for an empty selection and the
      count followed by " photos" otherwise, so that the count can be read
      back from it. */
  function Title(n: nat): (r: string)
    ensures r == Placeholder <==> n == 0
    ensures n > 0 ==>
              |r| > |PhotosSuffix| && r[|r| - |PhotosSuffix|..] == PhotosSuffix
              && AllDigits(r[..|r| - |PhotosSuffix|])
              && r[0] != '0'
              && ParseDecimal(r[..|r| - |PhotosSuffix|]) == n
  {
    if n > 0 then
      var digits := NatToString(n);
      var r := digits + PhotosSuffix;
      assert r[..|r| - |PhotosSuffix|] == digits;
      assert r[|r| - |PhotosSuffix|..] == PhotosSuffix;
      ParseNatToString(n);
      r
    else
      Placeholder
  }

  /** Different counts never show the same title. */
  lemma TitleInjective(n: nat, m: nat)
    requires Title(n) == Title(m)
    ensures n == m
  {
  }

  /** With nothing selected: save and clear disabled, add enabled, title
      "Collage". */
  lemma InitialUi()
    ensures !SaveEnabled(0) && !ClearEnabled(0) && AddEnabled(0)
    ensures Title(0) == "Collage"
  {
  }

  /** One photo: clear and add enabled, save disabled, title "1 photos". */
  lemma UiOnePhoto()
    ensures !SaveEnabled(1) && ClearEnabled(1) && AddEnabled(1) && Title(1) == "1 photos"
  {
  }

  /** Two photos: save, clear and add enabled, title "2 photos". */
  lemma UiTwoPhotos()
    ensures SaveEnabled(2) && ClearEnabled(2) && AddEnabled(2) && Title(2) == "2 photos"
  {
  }

  /** Six photos: add disabled, save still enabled, title "6 photos". */
  lemma UiSixPhotos()
    ensures SaveEnabled(6) && ClearEnabled(6) && !AddEnabled(6) && Title(6) == "6 photos"
  {
  }

  /** A count of two digits is written out in full. */
  lemma TitleTwoDigits()
    ensures Title(12) == "12 photos"
  {
  }

  /** Save is never offered for an odd count, and whenever save is offered,
      so is clear. */
  lemma SaveRules(n: nat)
    ensures n % 2 == 1 ==> !SaveEnabled(n)
    ensures SaveEnabled(n) ==> ClearEnabled(n)
    ensures SaveEnabled(n) ==> !SaveEnabled(n + 1)
  {
  }

  /** Add is disabled for six photos and above. */
  lemma AddRules(n: nat)
    ensures n >= MaxPhotos ==> !AddEnabled(n)
    ensures !AddEnabled(n) ==> ClearEnabled(n)
  {
  }
}
