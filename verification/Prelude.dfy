/** What several components share: optional values and the host's notion of blank text. */
module Prelude {
  datatype Option<+T> = None | Some(value: T)

  /** Unicode white space, as the .NET runtime classifies it. */
  predicate IsWhiteSpace(c: char) {
    || '\t' <= c <= '\r'
    || c == ' '
    || c == '\U{85}'
    || c == '\U{A0}'
    || c == '\U{1680}'
    || '\U{2000}' <= c <= '\U{200A}'
    || c == '\U{2028}'
    || c == '\U{2029}'
    || c == '\U{202F}'
    || c == '\U{205F}'
    || c == '\U{3000}'
  }

  /** `string.IsNullOrWhiteSpace`; a null text is modelled as the empty one. */
  predicate IsBlank(text: string) {
    forall i | 0 <= i < |text| :: IsWhiteSpace(text[i])
  }

  /** These are the code points of white space; of ASCII, the blank and the five controls from the tab on. */
  lemma WhiteSpaceIs(c: char)
    ensures var n := c as int;
            IsWhiteSpace(c) <==>
              || n in {0x20, 0x85, 0xA0, 0x1680, 0x2028, 0x2029, 0x202F, 0x205F, 0x3000}
              || 9 <= n <= 13 || 0x2000 <= n <= 0x200A
  {
  }

  lemma BlankIs(text: string)
    ensures IsBlank(text) <==>
              forall c | c in text ::
                || c as int in {0x20, 0x85, 0xA0, 0x1680, 0x2028, 0x2029, 0x202F, 0x205F, 0x3000}
                || 9 <= c as int <= 13 || 0x2000 <= c as int <= 0x200A
  {
    forall c | c in text { WhiteSpaceIs(c); }
    if IsBlank(text) {
      forall c | c in text ensures IsWhiteSpace(c) {}
    }
  }

  predicate NoDuplicates<T(==)>(xs: seq<T>) {
    forall i, j | 0 <= i < j < |xs| :: xs[i] != xs[j]
  }

  /** The first value stands before the second one. */
  predicate Before<T(==)>(xs: seq<T>, a: T, b: T) {
    exists i, j :: 0 <= i < j < |xs| && xs[i] == a && xs[j] == b
  }

  lemma SameMap<K, V>(a: map<K, V>, b: map<K, V>)
    requires forall k :: (k in a <==> k in b) && (k in b ==> a[k] == b[k])
    ensures a == b
  {
  }
}
