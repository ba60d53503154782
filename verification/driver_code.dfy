/** `_generate_driver_code`: the three-letter driver code derived from the name when the
    API gives none. Upper-casing is ASCII only. */
module DriverCode {
  import opened Text

  function Take(s: string, n: nat): (r: string)
    ensures |r| == if |s| < n then |s| else n
    ensures r == s[..|r|]
  {
    if |s| < n then s else s[..n]
  }

  function GenerateCode(givenName: string, familyName: string): (r: string)
    ensures |r| <= 3
    ensures forall i :: 0 <= i < |r| ==> !IsLower(r[i])
    ensures r == "" <==> givenName + familyName == ""
    ensures (givenName == "" || familyName == "") ==> r == Upper(Take(givenName + familyName, 3))
    ensures givenName != "" && |familyName| >= 2 ==> r == Upper(Take(familyName, 3))
    ensures givenName != "" && |familyName| == 1 ==> r == [UpperChar(givenName[0]), UpperChar(familyName[0])]
  {
    if givenName == "" || familyName == "" then
      var full := givenName + familyName;
      if full == "" then "" else Upper(Take(full, 3))
    else if |familyName| >= 2 then Upper(Take(familyName, 3))
    else Upper([givenName[0], familyName[0]])
  }

  /** A code already in upper case is its own upper case: re-deriving changes nothing. */
  lemma CodeIsUpperCase(givenName: string, familyName: string)
    ensures Upper(GenerateCode(givenName, familyName)) == GenerateCode(givenName, familyName)
  {
  }

  /** With both names present and a family name of two or more letters, the code is the
      upper-cased start of the family name, whatever the given name is. */
  lemma CodeIgnoresGivenName(given1: string, given2: string, familyName: string)
    requires given1 != "" && given2 != "" && |familyName| >= 2
    ensures GenerateCode(given1, familyName) == GenerateCode(given2, familyName)
  {
  }
}
