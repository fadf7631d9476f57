/** What every module shares. */
module Common {

  datatype Option<+T> = None | Some(value: T)

  /** Nothing occurs twice. */
  ghost predicate Distinct<T>(s: seq<T>) {
    forall i, j :: 0 <= i < j < |s| ==> s[i] != s[j]
  }

  /** A nonempty set has a member. */
  lemma Pick<T>(s: set<T>) returns (x: T)
    requires s != {}
    ensures x in s
  {
    x :| x in s;
  }

  // What counts as blank.

  /** The characters `strings.TrimSpace` trims. */
  predicate GoSpace(c: char) {
    || c in {'\t', '\n', '\U{B}', '\U{C}', '\r', ' ', '\U{85}', '\U{A0}', '\U{1680}'}
    || '\U{2000}' <= c <= '\U{200A}'
    || c in {'\U{2028}', '\U{2029}', '\U{202F}', '\U{205F}', '\U{3000}'}
  }

  /** The characters `str.strip` trims: four separators more. */
  predicate PythonSpace(c: char) {
    GoSpace(c) || '\U{1C}' <= c <= '\U{1F}'
  }
}
