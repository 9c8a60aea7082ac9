/** Precedence of versions, section 11 of Semantic Versioning 2.0.0. Build metadata has no precedence and is not here. */
module Semver {
  import opened TextOrder

  /** A pre-release identifier: digits only, or not. */
  datatype Ident = Num(n: nat) | Text(s: string)

  datatype Version = Version(major: nat, minor: nat, patch: nat, pre: seq<Ident>)

  /** Numeric identifiers in numeric order, below all others. */
  function CompareIdent(a: Ident, b: Ident): Order {
    match (a, b)
    case (Num(m), Num(n)) => CompareInt(m, n)
    case (Num(_), Text(_)) => Below
    case (Text(_), Num(_)) => Above
    case (Text(s), Text(t)) => CompareText(s, t)
  }

  /** Identifier by identifier; when one list is a prefix of the other, the longer is above. */
  function CompareIdents(a: seq<Ident>, b: seq<Ident>): Order {
    if a == [] then (if b == [] then Same else Below)
    else if b == [] then Above
    else
      var first := CompareIdent(a[0], b[0]);
      if first != Same then first else CompareIdents(a[1..], b[1..])
  }

  /** No pre-release is above any pre-release. */
  function ComparePre(a: seq<Ident>, b: seq<Ident>): Order {
    if a == [] then (if b == [] then Same else Above)
    else if b == [] then Below
    else CompareIdents(a, b)
  }

  function Compare(a: Version, b: Version): Order {
    if a.major != b.major then CompareInt(a.major, b.major)
    else if a.minor != b.minor then CompareInt(a.minor, b.minor)
    else if a.patch != b.patch then CompareInt(a.patch, b.patch)
    else ComparePre(a.pre, b.pre)
  }

  // ----- the rules of precedence

  /** Major, minor and patch decide in this order as numbers; a pre-release is below its release; of two lists of
      identifiers the first difference decides, and the longer one is above when there is none. */
  lemma PrecedenceRules(a: Version, b: Version, common: seq<Ident>, x: seq<Ident>, y: seq<Ident>)
    requires a.pre == common + x && b.pre == common + y
    ensures a.major < b.major ==> Compare(a, b) == Below
    ensures a.major == b.major && a.minor < b.minor ==> Compare(a, b) == Below
    ensures a.major == b.major && a.minor == b.minor && a.patch < b.patch ==> Compare(a, b) == Below
    ensures a.major == b.major && a.minor == b.minor && a.patch == b.patch ==>
              && (a.pre != [] && b.pre == [] ==> Compare(a, b) == Below)
              && (common != [] && x == [] && y != [] ==> Compare(a, b) == Below)
              && (x != [] && y != [] && IdentBelow(x[0], y[0]) ==> Compare(a, b) == Below)
  {
    FirstIdentDecides(common, x, y);
  }

  /** Numbers are ordered as numbers and are below texts, which are ordered as text. */
  predicate IdentBelow(a: Ident, b: Ident) {
    if a.Num? then b.Text? || a.n < b.n else b.Text? && CompareText(a.s, b.s) == Below
  }

  lemma {:induction false} FirstIdentDecides(common: seq<Ident>, x: seq<Ident>, y: seq<Ident>)
    ensures x != [] && y != [] && IdentBelow(x[0], y[0]) ==> CompareIdents(common + x, common + y) == Below
    ensures x == [] && y != [] ==> CompareIdents(common + x, common + y) == Below
  {
    if common != [] {
      FirstIdentDecides(common[1..], x, y);
      assert (common + x)[1..] == common[1..] + x && (common + y)[1..] == common[1..] + y;
      SameIdent(common[0]);
    } else {
      assert common + x == x && common + y == y;
    }
  }

  lemma SameIdent(a: Ident)
    ensures CompareIdent(a, a) == Same
  {
    if a.Text? {
      TextTotal(a.s, a.s);
    }
  }

  // ----- a total order

  lemma IdentTotal(a: Ident, b: Ident)
    ensures CompareIdent(b, a) == Flipped(CompareIdent(a, b))
    ensures CompareIdent(a, b) == Same <==> a == b
  {
    if a.Text? && b.Text? {
      TextTotal(a.s, b.s);
    }
  }

  lemma IdentTransitive(a: Ident, b: Ident, c: Ident)
    requires CompareIdent(a, b) == Below && CompareIdent(b, c) == Below
    ensures CompareIdent(a, c) == Below
  {
    if a.Text? {
      TextTransitive(a.s, b.s, c.s);
    }
  }

  lemma {:induction false} IdentsTotal(a: seq<Ident>, b: seq<Ident>)
    ensures CompareIdents(b, a) == Flipped(CompareIdents(a, b))
    ensures CompareIdents(a, b) == Same <==> a == b
  {
    if a != [] && b != [] {
      IdentTotal(a[0], b[0]);
      IdentsTotal(a[1..], b[1..]);
      assert a == [a[0]] + a[1..] && b == [b[0]] + b[1..];
    }
  }

  lemma {:induction false} IdentsTransitive(a: seq<Ident>, b: seq<Ident>, c: seq<Ident>)
    requires CompareIdents(a, b) == Below && CompareIdents(b, c) == Below
    ensures CompareIdents(a, c) == Below
  {
    if a != [] {
      IdentTotal(a[0], b[0]);
      IdentTotal(b[0], c[0]);
      if a[0] == b[0] == c[0] {
        IdentsTransitive(a[1..], b[1..], c[1..]);
      } else if a[0] != b[0] && b[0] != c[0] {
        IdentTransitive(a[0], b[0], c[0]);
      }
    }
  }

  /** Of two versions exactly one of below, same and above holds, and same means equal. */
  lemma CompareTotal(a: Version, b: Version)
    ensures Compare(b, a) == Flipped(Compare(a, b))
    ensures Compare(a, b) == Same <==> a == b
  {
    IdentsTotal(a.pre, b.pre);
  }

  lemma CompareTransitive(a: Version, b: Version, c: Version)
    requires Compare(a, b) == Below && Compare(b, c) == Below
    ensures Compare(a, c) == Below
  {
    if a.pre != [] && b.pre != [] && c.pre != []
       && CompareIdents(a.pre, b.pre) == Below && CompareIdents(b.pre, c.pre) == Below {
      IdentsTransitive(a.pre, b.pre, c.pre);
    }
  }

  // ----- ascending lists

  predicate Ascending(list: seq<Version>) {
    forall i, j | 0 <= i < j < |list| :: Compare(list[i], list[j]) == Below
  }

  predicate NextIsAbove(list: seq<Version>, i: nat)
    requires i + 1 < |list|
  {
    Compare(list[i], list[i + 1]) == Below
  }

  lemma {:induction false} AscendingFromNeighbours(list: seq<Version>)
    requires forall i | 0 <= i < |list| - 1 :: NextIsAbove(list, i)
    ensures Ascending(list)
  {
    forall i, j | 0 <= i < j < |list| ensures Compare(list[i], list[j]) == Below {
      AboveAllEarlier(list, i, j);
    }
  }

  lemma {:induction false} AboveAllEarlier(list: seq<Version>, i: nat, j: nat)
    requires forall i | 0 <= i < |list| - 1 :: NextIsAbove(list, i)
    requires i < j < |list|
    ensures Compare(list[i], list[j]) == Below
  {
    assert NextIsAbove(list, j - 1);
    if i + 1 < j {
      AboveAllEarlier(list, i, j - 1);
      CompareTransitive(list[i], list[j - 1], list[j]);
    }
  }
}
