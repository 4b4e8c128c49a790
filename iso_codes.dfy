/** Country-name to ISO 3166 alpha-2 code lookup and the flag-image URL
    built from it (backend/iso_codes.py). */
module IsoCodes {

  import opened Common
  import opened Text

  /** The name-to-code table. Only a selection of its entries is written out
      here: the aliases and their canonical names, the British home nations
      (which use flagcdn's sub-national codes) and a few others. */
  const IsoTable: map<string, string> := map[
    "Argentina" := "ar", "Brazil" := "br", "France" := "fr", "Germany" := "de",
    "Spain" := "es", "Mexico" := "mx", "Canada" := "ca", "Japan" := "jp",
    "England" := "gb-eng", "Scotland" := "gb-sct", "Wales" := "gb-wls",
    "Northern Ireland" := "gb-nir",
    "Czech Republic" := "cz", "Czechia" := "cz",
    "United States" := "us", "USA" := "us",
    "South Korea" := "kr", "Korea Republic" := "kr",
    "Ireland" := "ie", "Republic of Ireland" := "ie",
    "Ivory Coast" := "ci", "Cote d'Ivoire" := "ci",
    "Turkey" := "tr", "T\U{FC}rkiye" := "tr",
    "Cape Verde" := "cv", "Cape Verde Islands" := "cv",
    "Taiwan" := "tw", "Chinese Taipei" := "tw",
    "Cura\U{E7}ao" := "cw", "Curacao" := "cw",
    "Guinea-Bissau" := "gw", "Guinea Bissau" := "gw",
    "Eswatini" := "sz", "Swaziland" := "sz",
    "Iraq" := "iq", "Kurdistan" := "iq"
  ]

  /** ASCII lower-casing of one character. */
  function LowerChar(c: char): char
  {
    if 'A' <= c <= 'Z' then ((c as int) + 32) as char else c
  }

  function Lower(s: string): (r: string)
    ensures |r| == |s|
    ensures forall m :: 0 <= m < |s| ==> r[m] == LowerChar(s[m])
    decreases |s|
  {
    if s == [] then [] else [LowerChar(s[0])] + Lower(s[1..])
  }

  /** `get_iso_code`: the table's code, or else the lower-cased name cut to
      its first two characters. Never fails. */
  function IsoCode(name: string): (code: string)
    ensures name in IsoTable ==> code == IsoTable[name]
    ensures name !in IsoTable ==> |code| == Min(2, |name|)
    ensures name !in IsoTable ==> forall m :: 0 <= m < |code| ==> code[m] == LowerChar(name[m])
  {
    if name in IsoTable then IsoTable[name] else Lower(name)[..Min(2, |name|)]
  }

  const FlagPrefix: string := "https://flagcdn.com/w"
  const FlagSuffix: string := ".png"

  /** `get_flag_url`: the flagcdn image URL for a country, 80 pixels wide
      unless another width is given. */
  function FlagUrl(name: string, width: int := 80): (url: string)
    ensures |url| > |FlagPrefix| + |FlagSuffix|
    ensures url[..|FlagPrefix|] == FlagPrefix
    ensures url[|url| - |FlagSuffix|..] == FlagSuffix
  {
    FlagPrefix + IntToString(width) + "/" + IsoCode(name) + FlagSuffix
  }

  /** The position of the first `c` in `s`, or `|s|` when there is none. */
  function IndexOf(s: string, c: char): (i: nat)
    ensures i <= |s|
    ensures i < |s| ==> s[i] == c
    ensures c !in s[..i]
    decreases |s|
  {
    if s == [] then 0 else if s[0] == c then 0 else 1 + IndexOf(s[1..], c)
  }

  /** Reads a flag URL back into its width and country code. */
  function ParseFlagUrl(url: string): Option<(int, string)>
  {
    if |url| >= |FlagPrefix| + |FlagSuffix|
       && url[..|FlagPrefix|] == FlagPrefix
       && url[|url| - |FlagSuffix|..] == FlagSuffix
    then
      var rest := url[|FlagPrefix|..|url| - |FlagSuffix|];
      var slash := IndexOf(rest, '/');
      if slash < |rest| then
        match ParseInt(rest[..slash])
        case Some(w) => Some((w, rest[slash + 1..]))
        case None => None
      else None
    else None
  }

  lemma {:induction false} IndexOfFirst(a: string, b: string, c: char)
    requires c !in a
    ensures IndexOf(a + [c] + b, c) == |a|
    decreases |a|
  {
    if a != [] {
      assert (a + [c] + b)[1..] == a[1..] + [c] + b;
      IndexOfFirst(a[1..], b, c);
    }
  }

  /** The URL determines the width and the code it was built from: reading
      it back gives both, for every name and every width. */
  lemma FlagUrlRoundTrip(name: string, width: int)
    ensures ParseFlagUrl(FlagUrl(name, width)) == Some((width, IsoCode(name)))
  {
    ParseBuilt(width, IsoCode(name));
  }

  /** Reading back any URL built from a width and a code. */
  lemma ParseBuilt(width: int, code: string)
    ensures ParseFlagUrl(FlagPrefix + IntToString(width) + "/" + code + FlagSuffix) == Some((width, code))
  {
    var w := IntToString(width);
    var url := FlagPrefix + w + "/" + code + FlagSuffix;
    IntToStringRoundTrip(width);
    var mid := w + ['/'] + code;
    assert url == FlagPrefix + mid + FlagSuffix;
    var rest := url[|FlagPrefix|..|url| - |FlagSuffix|];
    assert rest == mid;
    IndexOfFirst(w, code, '/');
    assert rest[..|w|] == w;
    assert rest[|w| + 1..] == code;
  }

  /** With the default width the URL asks for the 80-pixel image. */
  lemma FlagUrlDefaultWidth(name: string)
    ensures FlagUrl(name) == "https://flagcdn.com/w80/" + IsoCode(name) + ".png"
  {
    Eighty();
  }

  lemma Eighty()
    ensures IntToString(80) == "80"
  {
    assert NatToString(8) == [DigitChar(8)] == "8";
    assert NatToString(80) == NatToString(8) + [DigitChar(0)];
  }

  /** An unknown name yields at most two characters, none of them an
      upper-case ASCII letter, and nothing at all for the empty name. */
  lemma UnknownNameCode(name: string)
    requires name !in IsoTable
    ensures |IsoCode(name)| <= 2
    ensures IsoCode(name) == "" <==> name == ""
    ensures forall m :: 0 <= m < |IsoCode(name)| ==> !('A' <= IsoCode(name)[m] <= 'Z')
  {
  }

  /** Cutting to two characters before or after lower-casing gives the same
      code, so the fallback is the lower-cased two-letter prefix. */
  lemma FallbackIsLoweredPrefix(name: string)
    requires name !in IsoTable
    ensures IsoCode(name) == Lower(name[..Min(2, |name|)])
  {
  }

  /** Aliases resolve to the same code as their canonical names. */
  lemma AmericanAliases()
    ensures IsoCode("USA") == IsoCode("United States") == "us"
    ensures IsoCode("Czechia") == IsoCode("Czech Republic") == "cz"
  {
    assert "USA" in IsoTable;
    assert "United States" in IsoTable;
    assert "Czechia" in IsoTable;
    assert "Czech Republic" in IsoTable;
  }

  lemma KoreanAndIrishAliases()
    ensures IsoCode("Korea Republic") == IsoCode("South Korea") == "kr"
    ensures IsoCode("Republic of Ireland") == IsoCode("Ireland") == "ie"
  {
    assert "Korea Republic" in IsoTable;
    assert "South Korea" in IsoTable;
    assert "Republic of Ireland" in IsoTable;
    assert "Ireland" in IsoTable;
  }

  lemma IvorianAndTurkishAliases()
    ensures IsoCode("Cote d'Ivoire") == IsoCode("Ivory Coast") == "ci"
    ensures IsoCode("T\U{FC}rkiye") == IsoCode("Turkey") == "tr"
  {
    assert "Cote d'Ivoire" in IsoTable;
    assert "Ivory Coast" in IsoTable;
    assert "T\U{FC}rkiye" in IsoTable;
    assert "Turkey" in IsoTable;
  }

  lemma AccentAndRenamedAliases()
    ensures IsoCode("Curacao") == IsoCode("Cura\U{E7}ao") == "cw"
    ensures IsoCode("Swaziland") == IsoCode("Eswatini") == "sz"
  {
    assert "Curacao" in IsoTable;
    assert "Cura\U{E7}ao" in IsoTable;
    assert "Swaziland" in IsoTable;
    assert "Eswatini" in IsoTable;
  }
}
