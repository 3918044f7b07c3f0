/** Trimming as the service does it before it stores or checks a text. */
module Text {

  /** unicode.IsSpace */
  predicate IsSpace(c: char) {
    var n := c as int;
    || 0x9 <= n <= 0xD || n in {0x20, 0x85, 0xA0, 0x1680, 0x2028, 0x2029, 0x202F, 0x205F, 0x3000}
    || 0x2000 <= n <= 0x200A
  }

  /** The spaces among the ASCII characters, and some others. */
  lemma SpacesAre(c: char)
    requires c as int < 0x80
    ensures IsSpace(c) <==> c in {'\t', '\n', '\U{B}', '\U{C}', '\r', ' '}
    ensures IsSpace('\U{85}') && IsSpace('\U{A0}') && IsSpace('\U{2003}') && IsSpace('\U{3000}')
    ensures !IsSpace('\U{200B}') && !IsSpace('\U{E9}')
  {
  }

  predicate Blank(s: string) {
    forall i :: 0 <= i < |s| ==> IsSpace(s[i])
  }

  /** strings.TrimSpace */
  function Trim(s: string): (r: string)
    ensures |r| <= |s|
    ensures r == "" <==> Blank(s)
    ensures r != "" ==> !IsSpace(r[0]) && !IsSpace(r[|r| - 1])
  {
    if s == "" then s
    else if IsSpace(s[0]) then Trim(s[1..])
    else if IsSpace(s[|s| - 1]) then Trim(s[..|s| - 1])
    else s
  }

  lemma FirstAndRest(s: string, i: nat, j: nat)
    requires i <= j < |s| && IsSpace(s[0]) && Blank(s[1..][..i]) && Blank(s[1..][j..])
    ensures s[1..][i..j] == s[i + 1..j + 1] && Blank(s[..i + 1]) && Blank(s[j + 1..])
  {
    hide IsSpace;
    assert s[..i + 1] == [s[0]] + s[1..][..i];
    assert s[j + 1..] == s[1..][j..];
  }

  lemma LastAndRest(s: string, i: nat, j: nat)
    requires i <= j < |s| && IsSpace(s[|s| - 1]) && Blank(s[..|s| - 1][..i]) && Blank(s[..|s| - 1][j..])
    ensures s[..|s| - 1][i..j] == s[i..j] && Blank(s[..i]) && Blank(s[j..])
  {
    hide IsSpace;
    assert s[..i] == s[..|s| - 1][..i];
    assert s[j..] == s[..|s| - 1][j..] + [s[|s| - 1]];
  }

  /** Trimming takes away spaces at the two ends and nothing else. */
  lemma {:induction false} TrimCutsSpaces(s: string) returns (i: nat, j: nat)
    ensures i <= j <= |s| && Trim(s) == s[i..j] && Blank(s[..i]) && Blank(s[j..])
  {
    hide IsSpace;
    i, j := 0, |s|;
    if s != "" && IsSpace(s[0]) {
      i, j := TrimCutsSpaces(s[1..]);
      FirstAndRest(s, i, j);
      i, j := i + 1, j + 1;
    } else if s != "" && IsSpace(s[|s| - 1]) {
      i, j := TrimCutsSpaces(s[..|s| - 1]);
      LastAndRest(s, i, j);
    }
  }

  const TITLE_LIMIT: nat := 80

  /** The title of a conversation that a first input opens. */
  function Title(s: string): string {
    var t := Trim(s);
    if |t| <= TITLE_LIMIT then t else t[..TITLE_LIMIT]
  }

  /** A title is the trimmed input, as far as eighty characters go. */
  lemma TitleIs(s: string)
    ensures Title(s) <= Trim(s) && |Title(s)| == if |Trim(s)| < 80 then |Trim(s)| else 80
  {
  }
}
