/** The part of github.com/google/uuid the handlers rely on: parsing the
    hyphenated text form, and printing it back in lower case. */
module Uuid {
  import opened Wrappers
  import opened GoStrings

  predicate IsHex(c: char)
  {
    '0' <= c <= '9' || 'a' <= c <= 'f' || 'A' <= c <= 'F'
  }

  /** The positions of the four hyphens in xxxxxxxx-xxxx-xxxx-xxxx-xxxxxxxxxxxx. */
  predicate IsDashPos(i: int)
  {
    i == 8 || i == 13 || i == 18 || i == 23
  }

  /** The 36-character text form, hex digits of either case. */
  predicate WellFormed(s: string)
  {
    |s| == 36 && forall i :: 0 <= i < 36 ==> if IsDashPos(i) then s[i] == '-' else IsHex(s[i])
  }

  /** What UUID.String() prints: the text form in lower case. */
  predicate Canonical(s: string)
  {
    WellFormed(s) && forall i :: 0 <= i < |s| ==> !IsUpper(s[i])
  }

  /** The nil UUID, which uuid.Parse yields together with its error. */
  const Nil: string := "00000000-0000-0000-0000-000000000000"

  /** uuid.Parse followed by String(): None stands for the parse error. */
  function Parse(s: string): (r: Option<string>)
    ensures r.Some? <==> WellFormed(s)
    ensures r.Some? ==> Canonical(r.value) && |r.value| == |s|
    ensures r.Some? ==> forall i :: 0 <= i < |s| ==> r.value[i] == LowerChar(s[i])
  {
    if WellFormed(s) then Some(ToLower(s)) else None
  }

  /** `id, _ := uuid.Parse(s)`: the error is dropped and the nil UUID used. */
  function ParseOrNil(s: string): (r: string)
    ensures Canonical(r)
    ensures WellFormed(s) ==> Parse(s) == Some(r)
    ensures !WellFormed(s) ==> r == Nil
  {
    match Parse(s)
    case Some(id) => id
    case None => Nil
  }

  /** Printing a parsed UUID and parsing it again gives the same text. */
  lemma ParseCanonical(s: string)
    requires Canonical(s)
    ensures Parse(s) == Some(s)
  {
    var r := ToLower(s);
    assert forall i :: 0 <= i < |s| ==> r[i] == s[i];
    assert r == s;
  }

  /** Parsing is idempotent: its output is already in printed form. */
  lemma ParseIdempotent(s: string)
    requires Parse(s).Some?
    ensures Parse(Parse(s).value) == Parse(s)
  {
    ParseCanonical(Parse(s).value);
  }
}
