/** The small types the other modules share. */
module Prelude {
  datatype Option<+T> = None | Some(value: T)

  type Byte = x: int | 0 <= x < 256

  /** The white space of the Unicode standard. */
  predicate IsSpace(c: char) {
    var n := c as int;
    || 9 <= n <= 13 || n == 32 || n == 0x85 || n == 0xA0 || n == 0x1680 || 0x2000 <= n <= 0x200A
    || n == 0x2028 || n == 0x2029 || n == 0x202F || n == 0x205F || n == 0x3000
  }

  predicate IsBlank(s: string) {
    forall i | 0 <= i < |s| :: IsSpace(s[i])
  }

  lemma SomeMember(s: set<int>)
    ensures s == {} || exists x :: x in s
  {
    if forall x :: x !in s {
      assert s == {};
    }
  }

  lemma AddedLast<K, V>(m: map<K, V>, more: map<K, V>, k: K)
    requires k in more
    ensures (m + (more - {k}))[k := more[k]] == m + more
  {
  }
}
