/**
 * The RPE (rate of perceived exertion) picker: one button per rating from
 * `min` to `max`, the current value highlighted in its effort colour, and the
 * effort label of the current value underneath.
 */
module RpeSelector {
  import opened Common

  /** The range the picker offers when `min` and `max` are not given. */
  const DefaultMin: int := 1
  const DefaultMax: int := 10

  /**
   * `values`: `max - min + 1` consecutive ratings starting at `min`. A negative
   * length is taken as 0 by `Array.from`, so an inverted range offers nothing.
   */
  function Values(min: int, max: int): (r: seq<int>)
    ensures |r| == if max - min + 1 < 0 then 0 else max - min + 1
    ensures forall i :: 0 <= i < |r| ==> r[i] == min + i
  {
    var n := if max - min + 1 < 0 then 0 else max - min + 1;
    seq(n, i => min + i)
  }

  /** The ratings on offer are exactly min..max, strictly ascending. */
  lemma ValuesSpec(min: int, max: int, x: int)
    ensures x in Values(min, max) <==> min <= x <= max
    ensures forall i, j :: 0 <= i < j < |Values(min, max)| ==> Values(min, max)[i] < Values(min, max)[j]
  {
    if min <= x <= max {
      assert Values(min, max)[x - min] == x;
    }
  }

  /** Without `min` and `max` the picker offers the ten ratings 1 to 10. */
  lemma DefaultValues()
    ensures Values(DefaultMin, DefaultMax) == [1, 2, 3, 4, 5, 6, 7, 8, 9, 10]
  {
  }

  /** `getColor`: green up to 3, blue up to 6, amber up to 8, otherwise red. */
  function ColorOf(rating: int): (r: ThemeColor)
  {
    if rating <= 3 then SuccessColor
    else if rating <= 6 then InfoColor
    else if rating <= 8 then WarningColor
    else ErrorColor
  }

  /** The effort a colour signals. */
  function Effort(c: ThemeColor): nat
  {
    match c
    case SuccessColor => 0
    case InfoColor => 1
    case WarningColor => 2
    case _ => 3
  }

  /** The colour bands as ranges; a harder rating never gets a lighter colour. */
  lemma ColorBands(rating: int, other: int)
    ensures ColorOf(rating) == SuccessColor <==> rating <= 3
    ensures ColorOf(rating) == InfoColor <==> 4 <= rating <= 6
    ensures ColorOf(rating) == WarningColor <==> 7 <= rating <= 8
    ensures ColorOf(rating) == ErrorColor <==> 9 <= rating
    ensures rating <= other ==> Effort(ColorOf(rating)) <= Effort(ColorOf(other))
  {
  }

  /** The five effort labels, easiest first. */
  const Labels: seq<string> := ["Very Easy", "Easy", "Moderate", "Hard", "Very Hard"]

  /** The position in `Labels` of the label of a rating. */
  function LabelIndex(rating: int): (r: nat)
    ensures r < |Labels|
  {
    if rating <= 2 then 0
    else if rating <= 4 then 1
    else if rating <= 6 then 2
    else if rating <= 8 then 3
    else 4
  }

  /** `getLabel`. */
  function LabelOf(rating: int): string
  {
    Labels[LabelIndex(rating)]
  }

  /** The label bands as ranges; a harder rating never gets an easier label. */
  lemma LabelBands(rating: int, other: int)
    ensures LabelOf(rating) == "Very Easy" <==> rating <= 2
    ensures LabelOf(rating) == "Easy" <==> 3 <= rating <= 4
    ensures LabelOf(rating) == "Moderate" <==> 5 <= rating <= 6
    ensures LabelOf(rating) == "Hard" <==> 7 <= rating <= 8
    ensures LabelOf(rating) == "Very Hard" <==> 9 <= rating
    ensures rating <= other ==> LabelIndex(rating) <= LabelIndex(other)
  {
  }

  /** One rating button: its rating, whether it is the current value, and its fill colour if so. */
  datatype Button = Button(rating: int, selected: bool, fill: Option<ThemeColor>)

  /** What the picker shows: the buttons and the label text. */
  datatype View = View(buttons: seq<Button>, caption: string)

  /** The rendered picker for the current value. */
  function Render(value: int, min: int, max: int): (r: View)
    ensures |r.buttons| == |Values(min, max)|
    ensures forall i :: 0 <= i < |r.buttons| ==> r.buttons[i].rating == Values(min, max)[i]
    ensures forall i :: 0 <= i < |r.buttons| ==>
      (r.buttons[i].selected <==> r.buttons[i].rating == value) &&
      (r.buttons[i].fill.Some? <==> r.buttons[i].selected)
  {
    var values := Values(min, max);
    View(seq(|values|, i requires 0 <= i < |values| =>
                         var rating := values[i];
                         Button(rating, value == rating, if value == rating then Some(ColorOf(rating)) else None)),
         LabelOf(value))
  }

  /** `onPress` of a button: the value handed to `onChange`. */
  function Press(b: Button): int
  {
    b.rating
  }

  /**
   * Pressing the button at position `i` reports the rating `min + i`; once the
   * parent stores it as the value, that button, and only it, is highlighted in
   * the rating's colour, and the label is the rating's label.
   */
  lemma PressSelects(value: int, min: int, max: int, i: nat)
    requires i < |Values(min, max)|
    ensures Press(Render(value, min, max).buttons[i]) == min + i
    ensures var v := Render(Press(Render(value, min, max).buttons[i]), min, max);
      && v.buttons[i].selected && v.buttons[i].fill == Some(ColorOf(min + i))
      && (forall j :: 0 <= j < |v.buttons| && j != i ==> !v.buttons[j].selected)
      && v.caption == LabelOf(min + i)
  {
  }

  /**
   * A value inside the range highlights exactly one button; a value outside it
   * highlights none. The label follows the value alone, whatever the range.
   */
  lemma SelectionSpec(value: int, min: int, max: int, min2: int, max2: int)
    ensures (exists i :: 0 <= i < |Render(value, min, max).buttons| && Render(value, min, max).buttons[i].selected)
      <==> min <= value <= max
    ensures Render(value, min, max).caption == Render(value, min2, max2).caption == LabelOf(value)
  {
    var v := Render(value, min, max);
    if min <= value <= max {
      assert v.buttons[value - min].selected;
    }
  }
}
