/** Pure string helpers: shortening text for display and turning a name
    into a file-name-safe string. Word characters are taken to be the ASCII
    letters, digits and underscore. */
module Helpers {

  const DefaultMaxLength: int := 100
  const Ellipsis: string := "..."

  /** `text[:n]` for a Python string: a non-negative `n` keeps at most `n`
      characters, a negative one drops `-n` characters from the end. */
  function PrefixSlice(text: string, n: int): (r: string)
    ensures 0 <= n ==> r == text[..if n <= |text| then n else |text|]
    ensures n < 0 ==> r == text[..if |text| + n >= 0 then |text| + n else 0]
  {
    if 0 <= n then (if n <= |text| then text[..n] else text)
    else if |text| + n >= 0 then text[..|text| + n]
    else []
  }

  /** `truncate_text`: text that fits is returned as is; longer text is cut
      to `maxLength` characters and marked with an ellipsis. */
  function TruncateText(text: string, maxLength: int): (r: string)
    ensures |text| <= maxLength ==> r == text
    ensures maxLength < |text| ==> |r| >= 3 && r[|r| - 3..] == Ellipsis
    ensures 0 <= maxLength < |text| ==> |r| == maxLength + 3 && r[..maxLength] == text[..maxLength]
    ensures 0 <= maxLength ==> |r| <= maxLength + 3
  {
    if |text| <= maxLength then text else PrefixSlice(text, maxLength) + Ellipsis
  }

  /** Truncating twice with the same non-negative limit is truncating once. */
  lemma TruncateIdempotent(text: string, maxLength: int)
    requires 0 <= maxLength
    ensures TruncateText(TruncateText(text, maxLength), maxLength) == TruncateText(text, maxLength)
  {
  }

  /** With the default limit, texts of up to 100 characters are unchanged
      and longer ones become 103 characters. */
  lemma TruncateDefault(text: string)
    ensures |text| <= 100 ==> TruncateText(text, DefaultMaxLength) == text
    ensures |text| > 100 ==> |TruncateText(text, DefaultMaxLength)| == 103
  {
  }

  predicate IsWordChar(c: char)
  {
    ('a' <= c <= 'z') || ('A' <= c <= 'Z') || ('0' <= c <= '9') || c == '_'
  }

  /** The characters the class `[\w\-_.]` accepts. */
  predicate IsAllowed(c: char)
  {
    IsWordChar(c) || c == '-' || c == '_' || c == '.'
  }

  /** `sanitize_filename`: every character outside the class becomes one
      underscore; allowed characters stay where they are. */
  function SanitizeFilename(name: string): (r: string)
    ensures |r| == |name|
    ensures forall i :: 0 <= i < |r| ==> IsAllowed(r[i])
    ensures forall i :: 0 <= i < |name| ==> (IsAllowed(name[i]) ==> r[i] == name[i])
    ensures forall i :: 0 <= i < |name| ==> (!IsAllowed(name[i]) ==> r[i] == '_')
  {
    if name == [] then []
    else [if IsAllowed(name[0]) then name[0] else '_'] + SanitizeFilename(name[1..])
  }

  /** A name made only of allowed characters is already sanitized, so
      sanitizing is idempotent. */
  lemma SanitizeFixesAllowed(name: string)
    requires forall i :: 0 <= i < |name| ==> IsAllowed(name[i])
    ensures SanitizeFilename(name) == name
  {
  }

  lemma SanitizeIdempotent(name: string)
    ensures SanitizeFilename(SanitizeFilename(name)) == SanitizeFilename(name)
  {
    SanitizeFixesAllowed(SanitizeFilename(name));
  }
}
