/** Vocabulary shared by every component: optional values and Go's `strings.TrimSpace`. */
module Common {

  datatype Option<+T> = None | Some(value: T)

  /** The code points Go's `unicode.IsSpace` accepts. */
  predicate IsSpace(c: char) {
    || '\t' <= c <= '\r' || c == ' '
    || c == '\U{0085}' || c == '\U{00A0}' || c == '\U{1680}'
    || '\U{2000}' <= c <= '\U{200A}' || c == '\U{2028}' || c == '\U{2029}'
    || c == '\U{202F}' || c == '\U{205F}' || c == '\U{3000}'
  }

  predicate IsTrimmed(s: string) {
    s == "" || (!IsSpace(s[0]) && !IsSpace(s[|s| - 1]))
  }

  /** The white space of Unicode, one by one. */
  const WHITE_SPACE :=
    "\U{0009}\U{000A}\U{000B}\U{000C}\U{000D}\U{0020}\U{0085}\U{00A0}\U{1680}\U{2000}\U{2001}\U{2002}\U{2003}\U{2004}"
    + "\U{2005}\U{2006}\U{2007}\U{2008}\U{2009}\U{200A}\U{2028}\U{2029}\U{202F}\U{205F}\U{3000}"

  lemma SpacesListed(c: char)
    ensures IsSpace(c) <==> c in WHITE_SPACE
  {
    assert WHITE_SPACE[5] == ' ' && WHITE_SPACE[24] == '\U{3000}';
  }

  /** Drops leading and trailing white space. */
  function Trim(s: string): (r: string)
    ensures IsTrimmed(r)
    ensures IsTrimmed(s) ==> r == s
    ensures |r| <= |s|
  {
    if s == "" then ""
    else if IsSpace(s[0]) then Trim(s[1..])
    else if IsSpace(s[|s| - 1]) then Trim(s[..|s| - 1])
    else s
  }

  /** What is dropped is white space, on either side of what stays. */
  lemma {:induction false} TrimMeans(s: string) returns (before: string, after: string)
    ensures s == before + Trim(s) + after
    ensures forall c | c in before || c in after :: IsSpace(c)
    decreases |s|
  {
    if s != "" && IsSpace(s[0]) {
      var front, back := TrimMeans(s[1..]);
      before, after := [s[0]] + front, back;
      assert s == [s[0]] + s[1..];
    } else if s != "" && IsSpace(s[|s| - 1]) {
      var front, back := TrimMeans(s[..|s| - 1]);
      before, after := front, back + [s[|s| - 1]];
      assert s == s[..|s| - 1] + [s[|s| - 1]];
    } else {
      before, after := "", "";
    }
  }

  /** A stored value, once trimmed, is its own trimmed form: comparing a
      caller's raw value with it never needs a second trim. */
  lemma TrimTwice(s: string)
    ensures Trim(Trim(s)) == Trim(s)
  {
    assert IsTrimmed(Trim(s));
  }

  predicate LowerHex(s: string) {
    forall i | 0 <= i < |s| :: '0' <= s[i] <= '9' || 'a' <= s[i] <= 'f'
  }
}
