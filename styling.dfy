/**
 * The pure part of `updateUI` (script.js): which category style the class
 * name gets and how strongly it is highlighted.
 */
module Styling {
  import opened Classifier

  /** Upper-case letters that `toLowerCase` maps one-to-one onto a letter 32
      code points higher: ASCII A-Z and the Latin-1 letters À-Þ except ×. */
  predicate IsUpper(c: char) {
    ('A' <= c <= 'Z') || ('À' <= c <= 'Þ' && c != '×')
  }

  function LowerChar(c: char): (d: char)
    ensures !IsUpper(d)
    ensures d == c || (IsUpper(c) && d as int == c as int + 32)
  {
    if IsUpper(c) then (c as int + 32) as char else c
  }

  /** `String.prototype.toLowerCase` on the letters above. */
  function Lower(s: string): (r: string)
    ensures |r| == |s|
    ensures forall i :: 0 <= i < |s| ==> r[i] == LowerChar(s[i])
    decreases |s|
  {
    if s == [] then [] else [LowerChar(s[0])] + Lower(s[1..])
  }

  /** Lower-casing twice changes nothing more than lower-casing once. */
  lemma {:induction false} LowerIsIdempotent(s: string)
    ensures Lower(Lower(s)) == Lower(s)
  {
    var r := Lower(s);
    forall i | 0 <= i < |r|
      ensures Lower(r)[i] == r[i]
    {
      assert !IsUpper(r[i]);
    }
  }

  /** The style classes the label can receive besides the base `class-name`. */
  datatype Category = Vegetal | Plastico | Nada | Default

  /** The `switch` on the lower-cased class name: `plastico` is accepted with
      and without the accent; every other name falls to the default. */
  function CategoryOf(name: string): Category {
    var n := Lower(name);
    if n == "vegetal" then Vegetal
    else if n == "plastico" || n == "plástico" then Plastico
    else if n == "nada" then Nada
    else Default
  }

  /** Each category is chosen for exactly the lower-cased names listed for it. */
  lemma CategoryOfMatches(name: string)
    ensures CategoryOf(name) == Vegetal <==> Lower(name) == "vegetal"
    ensures CategoryOf(name) == Plastico <==> Lower(name) in {"plastico", "plástico"}
    ensures CategoryOf(name) == Nada <==> Lower(name) == "nada"
    ensures CategoryOf(name) == Default <==> Lower(name) !in {"vegetal", "plastico", "plástico", "nada"}
  {
  }

  /** Matching ignores case: a name and its lower-cased form get the same style. */
  lemma CategoryIgnoresCase(name: string)
    ensures CategoryOf(Lower(name)) == CategoryOf(name)
  {
    LowerIsIdempotent(name);
  }

  /** The CSS class added for a category. */
  function CssClass(c: Category): string {
    match c
    case Vegetal => "vegetal"
    case Plastico => "plastico"
    case Nada => "nada"
    case Default => "default"
  }

  const BaseClass: string := "class-name"

  /** `className.className = 'class-name'` followed by one `classList.add`:
      the label ends with the base class and exactly one category class. */
  function ClassList(name: string): (classes: seq<string>)
    ensures |classes| == 2 && classes[0] == BaseClass
    ensures classes[1] in {"vegetal", "plastico", "nada", "default"}
    ensures forall c: Category :: classes[1] == CssClass(c) <==> c == CategoryOf(name)
  {
    [BaseClass, CssClass(CategoryOf(name))]
  }

  /** Font weight and text shadow applied to the label. */
  datatype Highlight = Highlight(fontWeight: nat, textShadow: string)

  const Emphasised: Highlight := Highlight(700, "0 0 10px rgba(255,255,255,0.3)")
  const Plain: Highlight := Highlight(500, "none")

  function HighlightFor(probability: real): (h: Highlight)
    ensures h.fontWeight == 700 <==> probability > 0.6
    ensures h.fontWeight == 500 <==> probability <= 0.6
  {
    if AboveThreshold(probability) then Emphasised else Plain
  }

  /** What `updateUI` leaves on the page for one prediction. The percentage
      text is not part of this view. */
  datatype View = View(text: string, classes: seq<string>, highlight: Highlight)

  function UpdateUI(p: Prediction): (v: View)
    ensures v.text == p.className
    ensures |v.classes| == 2 && v.classes[1] == CssClass(CategoryOf(p.className))
    ensures v.highlight.fontWeight == 700 <==> AboveThreshold(p.probability)
  {
    View(p.className, ClassList(p.className), HighlightFor(p.probability))
  }

  /** Concrete names, including upper-case and accented spellings. */
  lemma AccentedUpperCaseIsPlastico()
    ensures CategoryOf("PLÁSTICO") == Plastico
  {
    var r := Lower("PLÁSTICO");
    assert r == "plástico";
  }

  lemma CapitalisedVegetal()
    ensures CategoryOf("Vegetal") == Vegetal
  {
    var r := Lower("Vegetal");
    assert r == "vegetal";
  }

  lemma UnknownNameIsDefault()
    ensures CategoryOf("Papel") == Default
  {
    var r := Lower("Papel");
    assert r[0] == 'p';
  }
}
