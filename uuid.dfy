/** The textual form of the random job and file identifiers (uuid.New().String()). */
module Uuid {
  import GoPath

  predicate IsHexDigit(c: char) {
    '0' <= c <= '9' || 'a' <= c <= 'f'
  }

  /** xxxxxxxx-xxxx-xxxx-xxxx-xxxxxxxxxxxx in lower-case hexadecimal. */
  predicate Canonical(s: string) {
    && |s| == 36
    && (forall i :: 0 <= i < 36 && (i == 8 || i == 13 || i == 18 || i == 23) ==> s[i] == '-')
    && (forall i :: 0 <= i < 36 && i != 8 && i != 13 && i != 18 && i != 23 ==> IsHexDigit(s[i]))
  }

  /** Every character of a canonical identifier is a hex digit or a dash. */
  lemma CanonicalChars(s: string)
    requires Canonical(s)
    ensures forall i :: 0 <= i < |s| ==> IsHexDigit(s[i]) || s[i] == '-'
  {
  }

  /** A canonical identifier is a single path element without an extension. */
  lemma CanonicalIsPlainName(s: string)
    requires Canonical(s)
    ensures s != [] && GoPath.NoSlash(s) && GoPath.NoDot(s)
  {
    CanonicalChars(s);
  }
}
