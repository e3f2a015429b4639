/** The payload records a node carries (`CodeElement` and its subclasses)
    and the text each one contributes to a tree dump. */
module CodeElements {
  import opened Wrappers
  import opened Seqs

  /** One constructor per concrete payload class. Definition entries share
      `name` and `level`; only description entries carry a picture and only
      type entries carry a size. The type entry is the class the node layer
      calls `TypeDefinitionEntry`. */
  datatype CodeElement =
    | DataDivisionHeader
    | WorkingStorageSectionHeader
    | LocalStorageSectionHeader
    | LinkageSectionHeader
    | DataDescriptionEntry(name: string, level: nat, picture: Option<string>)
    | DataConditionEntry(name: string, level: nat)
    | TypeDescriptionEntry(name: string, level: nat, size: int)

  /** Subclasses of the abstract `DataDefinitionEntry`. */
  predicate IsDefinitionEntry(e: CodeElement) {
    e.DataDescriptionEntry? || e.DataConditionEntry? || e.TypeDescriptionEntry?
  }

  /** The parameterless constructors: name "?", level 1, no picture, size 0. */
  function NewDataDescriptionEntry(): CodeElement {
    DataDescriptionEntry("?", 1, None)
  }

  function NewDataConditionEntry(): CodeElement {
    DataConditionEntry("?", 1)
  }

  function NewTypeDescriptionEntry(): CodeElement {
    TypeDescriptionEntry("?", 1, 0)
  }

  /** The runtime class name, which is what the base `ToString` prints. */
  function ClassName(e: CodeElement): string {
    match e
    case DataDivisionHeader => "DataDivisionHeader"
    case WorkingStorageSectionHeader => "WorkingStorageSectionHeader"
    case LocalStorageSectionHeader => "LocalStorageSectionHeader"
    case LinkageSectionHeader => "LinkageSectionHeader"
    case DataDescriptionEntry(_, _, _) => "DataDescriptionEntry"
    case DataConditionEntry(_, _) => "DataConditionEntry"
    case TypeDescriptionEntry(_, _, _) => "TypeDescriptionEntry"
  }

  predicate IsDigit(c: char) {
    '0' <= c <= '9'
  }

  function DigitChar(d: nat): (c: char)
    requires d < 10
    ensures IsDigit(c)
  {
    (('0' as int) + d) as char
  }

  function DigitValue(c: char): (d: nat)
    requires IsDigit(c)
    ensures d < 10 && DigitChar(d) == c
  {
    (c as int) - ('0' as int)
  }

  predicate AllDigits(s: string) {
    forall i :: 0 <= i < |s| ==> IsDigit(s[i])
  }

  /** Shortest decimal representation of `n`. */
  function Decimal(n: nat): (r: string)
    ensures AllDigits(r) && |r| >= 1
    ensures |r| == 1 <==> n < 10
  {
    if n < 10 then [DigitChar(n)] else Decimal(n / 10) + [DigitChar(n % 10)]
  }

  /** The number a string of decimal digits denotes. */
  function ParseDecimal(s: string): nat
    requires AllDigits(s)
  {
    if s == [] then 0 else ParseDecimal(s[..|s| - 1]) * 10 + DigitValue(s[|s| - 1])
  }

  /** .NET's `{0:00}` format of a non-negative level: its decimal digits,
      zero-padded on the left to at least two characters. */
  function LevelText(level: nat): string {
    var digits := Decimal(level);
    if |digits| >= 2 then digits else "0" + digits
  }

  /** `ToString`: a definition entry prints its two-digit level, a space and
      its name; every other payload prints its class name. */
  function Text(e: CodeElement): string {
    if IsDefinitionEntry(e) then LevelText(e.level) + " " + e.name else ClassName(e)
  }

  lemma {:induction false} DecimalRoundTrip(n: nat)
    ensures ParseDecimal(Decimal(n)) == n
  {
    if n >= 10 {
      var d := Decimal(n / 10);
      assert (d + [DigitChar(n % 10)])[..|d|] == d;
      DecimalRoundTrip(n / 10);
    }
  }

  lemma {:induction false} LeadingZeroIgnored(s: string)
    requires AllDigits(s)
    ensures AllDigits("0" + s) && ParseDecimal("0" + s) == ParseDecimal(s)
  {
    if s != [] {
      assert ("0" + s)[..|s|] == "0" + s[..|s| - 1];
      LeadingZeroIgnored(s[..|s| - 1]);
    }
  }

  /** The level text is all digits, at least two of them, reads back as the
      level, and carries a padding zero only when the level is below ten. */
  lemma LevelTextRoundTrip(level: nat)
    ensures var t := LevelText(level);
      && AllDigits(t) && |t| >= 2
      && ParseDecimal(t) == level
      && (t[0] == '0' <==> level < 10)
  {
    DecimalRoundTrip(level);
    var d := Decimal(level);
    if |d| < 2 {
      LeadingZeroIgnored(d);
    } else {
      DecimalLeadingDigit(level);
    }
  }

  lemma {:induction false} DecimalLeadingDigit(n: nat)
    requires n >= 10
    ensures Decimal(n)[0] != '0'
  {
    if n / 10 >= 10 {
      DecimalLeadingDigit(n / 10);
    }
  }

  /** For levels 0 to 99 the text is exactly the tens digit then the units digit. */
  lemma LevelTextTwoDigits(level: nat)
    requires level < 100
    ensures LevelText(level) == [DigitChar(level / 10), DigitChar(level % 10)]
  {
    if level >= 10 {
      assert Decimal(level / 10) == [DigitChar(level / 10)];
    }
  }

  /** Level texts grow beyond two characters only from level 100 on. */
  lemma {:induction false} LevelTextWidth(level: nat)
    ensures |LevelText(level)| == 2 <==> level < 100
  {
    if level >= 10 {
      assert |Decimal(level)| == |Decimal(level / 10)| + 1;
    }
  }

  /** Reads a definition entry's text back into its level and name: the
      digits before the first space, and everything after that space. */
  function ParseEntryText(s: string): Option<(nat, string)> {
    if ' ' !in s then None
    else
      var i := IndexOf(s, ' ');
      if i > 0 && AllDigits(s[..i]) then Some((ParseDecimal(s[..i]), s[i + 1..])) else None
  }

  /** A definition entry's text determines its level and name. */
  lemma EntryTextRoundTrip(e: CodeElement)
    requires IsDefinitionEntry(e)
    ensures ParseEntryText(Text(e)) == Some((e.level, e.name))
  {
    var t := LevelText(e.level);
    LevelTextRoundTrip(e.level);
    var s := t + " " + e.name;
    assert s[|t|] == ' ';
    assert ' ' !in t;
    assert s[..|t|] == t;
    IndexOfAfterPrefix(s, t, ' ');
    assert s[|t| + 1..] == e.name;
  }

  lemma IndexOfAfterPrefix(s: string, t: string, c: char)
    requires |t| < |s| && s[..|t|] == t && c !in t && s[|t|] == c
    ensures c in s && IndexOf(s, c) == |t|
  {
  }

  /** A dump line shows a definition entry exactly when it starts with a digit:
      class names start with a letter. */
  lemma TextStartsWithDigitIffDefinition(e: CodeElement)
    ensures |Text(e)| > 0 && (IsDigit(Text(e)[0]) <==> IsDefinitionEntry(e))
  {
    if IsDefinitionEntry(e) {
      LevelTextRoundTrip(e.level);
    }
  }

  /** A default-constructed definition entry prints as "01 ?". */
  lemma DefaultEntryText()
    ensures Text(NewDataDescriptionEntry()) == "01 ?"
    ensures Text(NewDataConditionEntry()) == "01 ?"
    ensures Text(NewTypeDescriptionEntry()) == "01 ?"
  {
    LevelTextTwoDigits(1);
  }
}
