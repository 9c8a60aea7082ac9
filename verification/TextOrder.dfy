/** The order of text, code by code, in which a proper prefix comes first. */
module TextOrder {
  datatype Order = Below | Same | Above

  function Flipped(o: Order): Order {
    match o
    case Below => Above
    case Same => Same
    case Above => Below
  }

  function CompareInt(a: int, b: int): Order {
    if a < b then Below else if a > b then Above else Same
  }

  /** Text in ASCII order, a proper prefix first. */
  function CompareText(a: string, b: string): Order {
    if a == [] then (if b == [] then Same else Below)
    else if b == [] then Above
    else
      var first := CompareInt(a[0] as int, b[0] as int);
      if first != Same then first else CompareText(a[1..], b[1..])
  }

  /** The first character in which two texts differ decides, and what ends first comes first. */
  lemma {:induction false} FirstCharacterDecides(common: string, a: string, b: string)
    ensures a != [] && b != [] && a[0] != b[0] ==> (CompareText(common + a, common + b) == Below <==> a[0] < b[0])
    ensures a == [] && b != [] ==> CompareText(common + a, common + b) == Below
  {
    if common != [] {
      FirstCharacterDecides(common[1..], a, b);
      assert (common + a)[1..] == common[1..] + a && (common + b)[1..] == common[1..] + b;
    } else {
      assert common + a == a && common + b == b;
    }
  }

  lemma {:induction false} TextTotal(a: string, b: string)
    ensures CompareText(b, a) == Flipped(CompareText(a, b))
    ensures CompareText(a, b) == Same <==> a == b
  {
    if a != [] && b != [] {
      TextTotal(a[1..], b[1..]);
      assert a == [a[0]] + a[1..] && b == [b[0]] + b[1..];
    }
  }

  lemma {:induction false} TextTransitive(a: string, b: string, c: string)
    requires CompareText(a, b) == Below && CompareText(b, c) == Below
    ensures CompareText(a, c) == Below
  {
    if a != [] && a[0] == b[0] == c[0] {
      TextTransitive(a[1..], b[1..], c[1..]);
    }
  }
}
