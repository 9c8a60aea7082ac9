/** The choice between dark and light text on header backgrounds, by the contrast ratio of WCAG 2.1 Success
    Criterion 1.4.3. A background is its relative luminance, a number from 0 to 1, or `None` when its colour does not
    parse. The dark text has a luminance of its own; the light text is white. */
module Contrast {
  import opened Prelude

  type Luminance = x: real | 0.0 <= x <= 1.0

  datatype Text = Dark | Light

  /** A ratio, or the infinity the program starts its minima at. */
  datatype Ratio = Finite(value: real) | Infinite

  function Max(a: real, b: real): real {
    if a >= b then a else b
  }

  function Min(a: real, b: real): real {
    if a <= b then a else b
  }

  function ContrastRatio(a: Luminance, b: Luminance): (r: real)
    ensures r >= 1.0
    ensures a >= b ==> r * (b + 0.05) == a + 0.05
    ensures b >= a ==> r * (a + 0.05) == b + 0.05
  {
    QuotientAtLeastOne(Max(a, b) + 0.05, Min(a, b) + 0.05);
    (Max(a, b) + 0.05) / (Min(a, b) + 0.05)
  }

  lemma Quotient(x: real, y: real, q: real)
    requires x >= y > 0.0 && q * y == x
    ensures q >= 1.0
  {
  }

  lemma QuotientAtLeastOne(x: real, y: real)
    requires x >= y > 0.0
    ensures x / y >= 1.0
  {
    Quotient(x, y, x / y);
  }

  function LuminanceOf(text: Text, dark: Luminance): Luminance {
    if text.Dark? then dark else 1.0
  }

  predicate AtMost(a: Ratio, b: Ratio) {
    b.Infinite? || (a.Finite? && a.value <= b.value)
  }

  function Lower(a: Ratio, r: real): Ratio {
    if a.Infinite? then Finite(r) else Finite(Min(a.value, r))
  }

  /** The running minimum over the backgrounds. */
  function Worst(text: Text, dark: Luminance, backgrounds: seq<Luminance>): Ratio {
    if backgrounds == [] then Infinite
    else Lower(Worst(text, dark, backgrounds[..|backgrounds| - 1]),
               ContrastRatio(backgrounds[|backgrounds| - 1], LuminanceOf(text, dark)))
  }

  /** The running minimum is the worst case: no background contrasts less, and one contrasts exactly that much. */
  lemma {:induction false} WorstIsLeast(text: Text, dark: Luminance, backgrounds: seq<Luminance>)
    ensures Worst(text, dark, backgrounds).Infinite? <==> backgrounds == []
    ensures forall b | b in backgrounds :: AtMost(Worst(text, dark, backgrounds), Finite(ContrastRatio(b, LuminanceOf(text, dark))))
    ensures backgrounds != [] ==>
              exists b :: b in backgrounds && Worst(text, dark, backgrounds) == Finite(ContrastRatio(b, LuminanceOf(text, dark)))
  {
    hide ContrastRatio;
    if backgrounds != [] {
      var front, last := backgrounds[..|backgrounds| - 1], backgrounds[|backgrounds| - 1];
      WorstIsLeast(text, dark, front);
      assert backgrounds == front + [last];
      OneMoreBackground(text, dark, front, last, Worst(text, dark, front));
    }
  }

  lemma OneMoreBackground(text: Text, dark: Luminance, front: seq<Luminance>, last: Luminance, w: Ratio)
    requires w.Infinite? <==> front == []
    requires forall b | b in front :: AtMost(w, Finite(ContrastRatio(b, LuminanceOf(text, dark))))
    requires front != [] ==> exists b :: b in front && w == Finite(ContrastRatio(b, LuminanceOf(text, dark)))
    ensures var w' := Lower(w, ContrastRatio(last, LuminanceOf(text, dark)));
            && w'.Finite?
            && (forall b | b in front + [last] :: AtMost(w', Finite(ContrastRatio(b, LuminanceOf(text, dark)))))
            && exists b :: b in front + [last] && w' == Finite(ContrastRatio(b, LuminanceOf(text, dark)))
  {
    hide ContrastRatio, LuminanceOf;
    assert last in front + [last];
    if w.Finite? {
      var b :| b in front && w == Finite(ContrastRatio(b, LuminanceOf(text, dark)));
      assert b in front + [last];
    }
  }

  /** The colours that parsed before the first that did not. */
  function Parsed(backgrounds: seq<Option<Luminance>>): (r: seq<Luminance>)
    ensures (forall i | 0 <= i < |backgrounds| :: backgrounds[i].Some?) ==>
              |r| == |backgrounds| && forall i | 0 <= i < |r| :: r[i] == backgrounds[i].value
  {
    if backgrounds == [] || backgrounds[0].None? then [] else [backgrounds[0].value] + Parsed(backgrounds[1..])
  }

  function Better(dark: Luminance, backgrounds: seq<Luminance>): Text {
    if AtMost(Worst(Light, dark, backgrounds), Worst(Dark, dark, backgrounds)) then Dark else Light
  }

  predicate AllParse(backgrounds: seq<Option<Luminance>>) {
    forall i | 0 <= i < |backgrounds| :: backgrounds[i].Some?
  }

  lemma {:induction false} ParsedPrefix(backgrounds: seq<Option<Luminance>>, i: nat)
    requires i < |backgrounds| && AllParse(backgrounds[..i + 1])
    ensures AllParse(backgrounds[..i])
    ensures Parsed(backgrounds[..i + 1]) == Parsed(backgrounds[..i]) + [backgrounds[i].value]
  {
    assert backgrounds[..i + 1][i] == backgrounds[i];
    assert forall j | 0 <= j < i :: backgrounds[..i][j] == backgrounds[..i + 1][j];
    if i > 0 {
      var rest := backgrounds[1..];
      assert backgrounds[..i + 1][1..] == rest[..i] && backgrounds[..i][1..] == rest[..i - 1];
      assert forall j | 0 <= j < i :: rest[..i][j] == backgrounds[..i + 1][j + 1];
      assert backgrounds[..i + 1][0] == backgrounds[0] == backgrounds[..i][0];
      ParsedPrefix(rest, i - 1);
    } else {
      assert backgrounds[..1] == [backgrounds[0]] && backgrounds[..1][1..] == [];
    }
  }

  lemma NothingParsed()
    ensures Parsed([]) == []
  {
  }

  predicate AtLeastAsReadable(text: Text, other: Text, dark: Luminance, backgrounds: seq<Luminance>) {
    exists b :: b in backgrounds &&
                forall c | c in backgrounds :: ContrastRatio(c, LuminanceOf(text, dark)) >= ContrastRatio(b, LuminanceOf(other, dark))
  }

  /** Every background contrasts with the chosen colour at least as much as some background does with the other; light
      is chosen exactly when dark could not claim that. */
  lemma ChosenIsBetter(dark: Luminance, backgrounds: seq<Luminance>)
    requires backgrounds != []
    ensures forall other: Text :: AtLeastAsReadable(Better(dark, backgrounds), other, dark, backgrounds)
    ensures Better(dark, backgrounds).Light? <==> !AtLeastAsReadable(Dark, Light, dark, backgrounds)
  {
    hide ContrastRatio, Worst, AtLeastAsReadable;
    WorstIsFinite(Dark, dark, backgrounds);
    WorstIsFinite(Light, dark, backgrounds);
    WorstCompare(Dark, Dark, dark, backgrounds);
    WorstCompare(Dark, Light, dark, backgrounds);
    WorstCompare(Light, Dark, dark, backgrounds);
    WorstCompare(Light, Light, dark, backgrounds);
    forall other: Text ensures AtLeastAsReadable(Better(dark, backgrounds), other, dark, backgrounds) {
      match other
      case Dark =>
      case Light =>
    }
  }

  lemma WorstIsFinite(text: Text, dark: Luminance, backgrounds: seq<Luminance>)
    requires backgrounds != []
    ensures Worst(text, dark, backgrounds).Finite?
  {
    WorstIsLeast(text, dark, backgrounds);
  }

  lemma WorstCompare(text: Text, other: Text, dark: Luminance, backgrounds: seq<Luminance>)
    requires backgrounds != []
    ensures AtLeastAsReadable(text, other, dark, backgrounds) <==> AtMost(Worst(other, dark, backgrounds), Worst(text, dark, backgrounds))
  {
    hide ContrastRatio, Worst;
    WorstIsLeast(text, dark, backgrounds);
    WorstIsLeast(other, dark, backgrounds);
  }

  /** White has more contrast with every background than dark has with this one. */
  predicate WhiteBeats(dark: Luminance, backgrounds: seq<Luminance>, b: Luminance) {
    forall c | c in backgrounds :: ContrastRatio(c, 1.0) > ContrastRatio(b, dark)
  }

  lemma WhiteBeatsWorst(dark: Luminance, backgrounds: seq<Luminance>, b: Luminance)
    requires backgrounds != []
    ensures WhiteBeats(dark, backgrounds, b) <==> !AtMost(Worst(Light, dark, backgrounds), Finite(ContrastRatio(b, dark)))
  {
    hide ContrastRatio, Worst;
    WorstIsLeast(Light, dark, backgrounds);
  }

  lemma LightExactly(dark: Luminance, backgrounds: seq<Luminance>)
    ensures Better(dark, backgrounds).Light? <==> exists b :: b in backgrounds && WhiteBeats(dark, backgrounds, b)
  {
    hide ContrastRatio, Worst, WhiteBeats;
    WorstIsLeast(Light, dark, backgrounds);
    WorstIsLeast(Dark, dark, backgrounds);
    if backgrounds != [] {
      forall b ensures WhiteBeats(dark, backgrounds, b) <==> !AtMost(Worst(Light, dark, backgrounds), Finite(ContrastRatio(b, dark))) {
        WhiteBeatsWorst(dark, backgrounds, b);
      }
    }
  }

  /** Dark when a colour does not parse, else the text colour with the higher worst-case contrast, dark in a tie. */
  method ReadableOn(dark: Luminance, backgrounds: seq<Option<Luminance>>) returns (text: Text)
    ensures text == if AllParse(backgrounds) then Better(dark, Parsed(backgrounds)) else Dark
    // light exactly when all parse and white has more contrast with every background than dark has with some one of them
    ensures text.Light? <==>
              && (forall i | 0 <= i < |backgrounds| :: backgrounds[i].Some?)
              && exists b :: b in Parsed(backgrounds) && WhiteBeats(dark, Parsed(backgrounds), b)
  {
    hide ContrastRatio, Parsed;
    var darkWorst, lightWorst := Infinite, Infinite;
    NothingParsed();
    for i := 0 to |backgrounds|
      invariant AllParse(backgrounds[..i])
      invariant darkWorst == Worst(Dark, dark, Parsed(backgrounds[..i]))
      invariant lightWorst == Worst(Light, dark, Parsed(backgrounds[..i]))
    {
      if backgrounds[i].None? {
        return Dark;
      }
      var bg := backgrounds[i].value;
      darkWorst := Lower(darkWorst, ContrastRatio(bg, dark));
      lightWorst := Lower(lightWorst, ContrastRatio(bg, 1.0));
      assert AllParse(backgrounds[..i + 1]);
      ParsedPrefix(backgrounds, i);
    }
    assert backgrounds[..|backgrounds|] == backgrounds;
    text := if !AtMost(lightWorst, darkWorst) then Light else Dark;
    LightExactly(dark, Parsed(backgrounds));
  }

  // ----- one background

  lemma LargerRoot(a: real, b: real, product: real)
    requires a >= 0.0 && b >= 0.0 && product == a * b
    ensures a >= b ==> a * a >= product
    ensures b >= a ==> b * b >= product
  {
    if a >= b {
      Scale(a, b, a);
    }
    if b >= a {
      Scale(b, a, b);
    }
  }

  lemma Scale(x: real, y: real, k: real)
    requires x >= y && k >= 0.0
    ensures x * k >= y * k
  {
    assert (x - y) * k >= 0.0;
  }

  lemma ChainedQuotients(x: real, y: real, z: real)
    requires y > 0.0 && z > 0.0
    ensures (x / y) * (y / z) == x / z
  {
    var a, b := x / y, y / z;
    assert a * y == x && b * z == y;
    Unquote(a, b, x, y, z);
  }

  lemma Unquote(a: real, b: real, x: real, y: real, z: real)
    requires z > 0.0 && a * y == x && b * z == y
    ensures a * b == x / z
  {
    assert (a * b) * z == a * (b * z);
    assert a * (b * z) == x;
    SameQuotient(a * b, x, z);
  }

  lemma SameQuotient(q: real, x: real, z: real)
    requires z > 0.0 && q * z == x
    ensures q == x / z
  {
  }

  lemma SmallerDivisor(x: real, y: real, z: real)
    requires x > 0.0 && 0.0 < y <= z
    ensures x / y >= x / z
  {
    QuotientAtLeastOne(z, y);
    ChainedQuotients(x, z, y);
    PositiveQuotient(x, z);
    Scale(z / y, 1.0, x / z);
  }

  lemma PositiveQuotient(x: real, z: real)
    requires x > 0.0 && z > 0.0
    ensures x / z > 0.0
  {
  }

  lemma SquareAbove(c: real, bound: real)
    requires c >= 1.0 && c >= bound
    ensures c * c >= bound
  {
    Scale(c, 1.0, c);
  }

  lemma ChosenContrast(dark: Luminance, b: Luminance)
    ensures var onDark, onLight := ContrastRatio(b, dark), ContrastRatio(b, 1.0);
            ContrastRatio(b, LuminanceOf(Better(dark, [b]), dark)) == if onLight > onDark then onLight else onDark
  {
    hide ContrastRatio;
    assert [b][..0] == [];
    assert Worst(Dark, dark, [b]) == Finite(ContrastRatio(b, dark));
    assert Worst(Light, dark, [b]) == Finite(ContrastRatio(b, 1.0));
    hide Worst;
  }

  lemma BrighterThanText(dark: Luminance, b: Luminance)
    requires b >= dark
    ensures ContrastRatio(b, 1.0) * ContrastRatio(b, dark) == 1.05 / (dark + 0.05)
  {
    ChainedQuotients(1.05, b + 0.05, dark + 0.05);
  }

  lemma DarkerThanText(dark: Luminance, b: Luminance)
    requires b < dark
    ensures ContrastRatio(b, 1.0) >= 1.05 / (dark + 0.05)
  {
    SmallerDivisor(1.05, b + 0.05, dark + 0.05);
  }

  /** On one background the square of the chosen contrast is at least 1.05 over the dark text's luminance plus 0.05. */
  lemma OneBackgroundBound(dark: Luminance, b: Luminance)
    ensures var c := ContrastRatio(b, LuminanceOf(Better(dark, [b]), dark));
            c * c >= 1.05 / (dark + 0.05)
  {
    hide ContrastRatio, Better;
    ChosenContrast(dark, b);
    var onDark, onLight := ContrastRatio(b, dark), ContrastRatio(b, 1.0);
    var bound := 1.05 / (dark + 0.05);
    if b >= dark {
      BrighterThanText(dark, b);
      LargerRoot(onLight, onDark, bound);
    } else {
      DarkerThanText(dark, b);
      SquareAbove(if onLight > onDark then onLight else onDark, bound);
    }
  }
}
