/**
 * The stress management tips card: four tip categories, one of which at a
 * time is expanded to show its tips. Tips are the translation keys the card
 * looks up; the translated texts are outside the model.
 */
module StressManagementTips {
  import opened Common
  import opened Seqs

  /** A tip category: its id, its icon name and the translation key of its title. */
  datatype Category = Category(id: string, icon: string, titleKey: string)

  /** `categories`, in the order they are listed. */
  const Categories: seq<Category> := [
    Category("quick", "clock", "wellness.stress.tips.quickRelief"),
    Category("physical", "activity", "wellness.stress.tips.physical"),
    Category("mental", "brain", "wellness.stress.tips.mental"),
    Category("lifestyle", "sun", "wellness.stress.tips.lifestyle")
  ]

  /** The category ids, in order. */
  function CategoryIds(): (r: seq<string>)
    ensures |r| == |Categories|
    ensures forall i :: 0 <= i < |r| ==> r[i] == Categories[i].id
  {
    Map(Categories, (c: Category) => c.id)
  }

  /** The stress level from which one more tip is added to every category. */
  const HighStress: real := 60.0

  /** The translation key of a tip: the common prefix, the category, then the tip's name. */
  function Key(category: string, name: string): (r: string)
    ensures |r| > 21 + |category|
    ensures forall i :: 0 <= i < |category| ==> r[21 + i] == category[i]
  {
    "wellness.stress.tips." + category + "." + name
  }

  /** The keys of the named tips of a category, in order. */
  function Keys(category: string, names: seq<string>): (r: seq<string>)
    ensures |r| == |names|
    ensures forall i :: 0 <= i < |names| ==> r[i] == Key(category, names[i])
  {
    seq(|names|, i requires 0 <= i < |names| => Key(category, names[i]))
  }

  /** The names of the three tips every category has, whatever the stress level. */
  function BaseNames(category: string): seq<string>
  {
    match category
    case "quick" => ["deepBreathing", "bodyScan", "grounding"]
    case "physical" => ["exercise", "stretch", "walk"]
    case "mental" => ["meditation", "gratitude", "reframe"]
    case "lifestyle" => ["sleep", "nutrition", "boundaries"]
    case _ => []
  }

  /** The name of the tip each category gains at a high stress level. */
  function ExtraName(category: string): string
  {
    match category
    case "quick" => "timeout"
    case "physical" => "relaxationExercise"
    case "mental" => "professionalHelp"
    case "lifestyle" => "reduceCaffeine"
    case _ => ""
  }

  /** The three tips every category has, whatever the stress level. */
  function BaseTips(category: string): seq<string>
  {
    Keys(category, BaseNames(category))
  }

  /** The tip each category gains at a high stress level. */
  function ExtraTip(category: string): string
  {
    Key(category, ExtraName(category))
  }

  /** The names of the tips of a category at a stress level. */
  function TipNames(category: string, stressLevel: real): seq<string>
  {
    if BaseNames(category) == [] then []
    else BaseNames(category) + (if stressLevel >= HighStress then [ExtraName(category)] else [])
  }

  /** The tips of a category at a stress level: the base tips, then the extra one when stress is high. */
  function TipsFor(category: string, stressLevel: real): seq<string>
  {
    Keys(category, TipNames(category, stressLevel))
  }

  lemma KeysAppend(category: string, a: seq<string>, b: seq<string>)
    ensures Keys(category, a + b) == Keys(category, a) + Keys(category, b)
  {
    assert forall i :: |a| <= i < |a| + |b| ==> (a + b)[i] == b[i - |a|];
  }

  /** The tips are the base tips followed, when stress is high, by the extra tip. */
  lemma TipsForParts(category: string, stressLevel: real)
    ensures BaseTips(category) == [] ==> TipsFor(category, stressLevel) == []
    ensures BaseTips(category) != [] ==>
              TipsFor(category, stressLevel) == BaseTips(category) + (if stressLevel >= HighStress then [ExtraTip(category)] else [])
  {
    var extra := if stressLevel >= HighStress then [ExtraName(category)] else [];
    KeysAppend(category, BaseNames(category), extra);
    assert Keys(category, extra) == if stressLevel >= HighStress then [ExtraTip(category)] else [];
  }

  /** Within a category, the key determines the tip's name. */
  lemma KeyInjective(category: string, n1: string, n2: string)
    ensures Key(category, n1) == Key(category, n2) ==> n1 == n2
  {
    var k := |category| + 22;
    assert Key(category, n1)[k..] == n1;
    assert Key(category, n2)[k..] == n2;
  }

  /** Distinct names give distinct keys. */
  lemma KeysNoDup(category: string, names: seq<string>)
    requires NoDup(names)
    ensures NoDup(Keys(category, names))
  {
    forall i, j | 0 <= i < j < |names| ensures Keys(category, names)[i] != Keys(category, names)[j] {
      KeyInjective(category, names[i], names[j]);
    }
  }

  /**
   * `getTips`: builds the table of base tips, pushes the extra tips onto every
   * list when stress is high, then looks the category up; an unknown category
   * has no entry and gives the empty list.
   */
  method GetTips(category: string, stressLevel: real) returns (tips: seq<string>)
    ensures tips == TipsFor(category, stressLevel)
  {
    var baseTips: map<string, seq<string>> := map[
      "quick" := BaseTips("quick"),
      "physical" := BaseTips("physical"),
      "mental" := BaseTips("mental"),
      "lifestyle" := BaseTips("lifestyle")
    ];
    if stressLevel >= HighStress {
      baseTips := baseTips["quick" := baseTips["quick"] + [ExtraTip("quick")]];
      baseTips := baseTips["physical" := baseTips["physical"] + [ExtraTip("physical")]];
      baseTips := baseTips["mental" := baseTips["mental"] + [ExtraTip("mental")]];
      baseTips := baseTips["lifestyle" := baseTips["lifestyle"] + [ExtraTip("lifestyle")]];
    }
    TipsForParts(category, stressLevel);
    if category in baseTips {
      tips := baseTips[category];
    } else {
      tips := [];
    }
  }

  /** There are exactly four categories, quick, physical, mental and lifestyle, each listed once. */
  lemma CategoriesSpec()
    ensures CategoryIds() == ["quick", "physical", "mental", "lifestyle"]
    ensures NoDup(CategoryIds())
  {
    assert CategoryIds() == ["quick", "physical", "mental", "lifestyle"];
  }

  /**
   * Every category has three tips, and a stress level of 60 or more adds
   * exactly one, which comes last; any other category has none.
   */
  lemma TipCounts(category: string, stressLevel: real)
    ensures category in CategoryIds() ==>
      |TipsFor(category, stressLevel)| == (if stressLevel >= HighStress then 4 else 3) &&
      TipsFor(category, stressLevel)[..3] == BaseTips(category)
    ensures category !in CategoryIds() ==> TipsFor(category, stressLevel) == []
  {
    CategoriesSpec();
  }

  /** A higher stress level only adds tips: the tips at a lower level are a prefix of those at a higher one. */
  lemma MoreStressMoreTips(category: string, low: real, high: real)
    requires low <= high
    ensures TipsFor(category, low) <= TipsFor(category, high)
  {
  }

  /** No tip is listed twice in a category. */
  lemma TipsAreDistinct(category: string, stressLevel: real)
    ensures NoDup(TipsFor(category, stressLevel))
  {
    var names := TipNames(category, stressLevel);
    forall i, j | 0 <= i < j < |names| ensures names[i] != names[j] {
      assert |names[i]| != |names[j]|;
    }
    KeysNoDup(category, names);
  }

  /** Every tip key names its category right after the common prefix. */
  lemma TipNamesCategory(category: string, stressLevel: real, t: string)
    requires t in TipsFor(category, stressLevel)
    ensures category in CategoryIds()
    ensures |category| > 0 && |t| > 21 && t[21] == category[0]
  {
    CategoriesSpec();
    var names := TipNames(category, stressLevel);
    var i :| 0 <= i < |names| && Keys(category, names)[i] == t;
    assert BaseNames(category) != [];
  }

  /** No two categories share a tip. */
  lemma CategoriesShareNoTip(c: string, d: string, low: real, high: real, t: string)
    requires c != d
    ensures t in TipsFor(c, low) ==> t !in TipsFor(d, high)
  {
    if t in TipsFor(c, low) && t in TipsFor(d, high) {
      TipNamesCategory(c, low, t);
      TipNamesCategory(d, high, t);
      IdsByFirstLetter(c, d);
      assert false;
    }
  }

  /** The four category ids differ in their first letter. */
  lemma IdsByFirstLetter(c: string, d: string)
    requires c in CategoryIds() && d in CategoryIds()
    requires |c| > 0 && |d| > 0 && c[0] == d[0]
    ensures c == d
  {
    CategoriesSpec();
  }

  /** `toggleCategory`: the expanded category collapses, any other becomes the expanded one. */
  function Toggled(expanded: Option<string>, categoryId: string): (r: Option<string>)
    ensures r == Some(categoryId) <==> expanded != Some(categoryId)
    ensures r.None? <==> expanded == Some(categoryId)
  {
    if expanded == Some(categoryId) then None else Some(categoryId)
  }

  /**
   * Toggling the same category twice restores a collapsed card or the card
   * with that category open; with another category open, it leaves all collapsed.
   */
  lemma ToggledTwice(expanded: Option<string>, categoryId: string)
    ensures Toggled(Toggled(expanded, categoryId), categoryId) ==
      if expanded.Some? && expanded.value != categoryId then None else expanded
  {
  }

  /** The tips the card shows under a category: its tips when it is the expanded one, none otherwise. */
  function ShownTips(expanded: Option<string>, category: string, stressLevel: real): (r: seq<string>)
    ensures expanded != Some(category) ==> r == []
  {
    if expanded == Some(category) then TipsFor(category, stressLevel) else []
  }

  /** At most one category shows tips at any time. */
  lemma OneCategoryOpen(expanded: Option<string>, c: string, d: string, stressLevel: real)
    requires c != d
    ensures ShownTips(expanded, c, stressLevel) == [] || ShownTips(expanded, d, stressLevel) == []
  {
  }

  /** The card's own state: which category, if any, is expanded. */
  class TipsCard {
    var expandedCategory: Option<string>

    /** The card opens with the quick relief tips expanded. */
    constructor()
      ensures expandedCategory == Some("quick")
      ensures expandedCategory.value in CategoryIds()
    {
      expandedCategory := Some("quick");
      CategoriesSpec();
    }

    /** Pressing a category header. */
    method ToggleCategory(categoryId: string)
      modifies this
      ensures expandedCategory == Toggled(old(expandedCategory), categoryId)
    {
      if expandedCategory == Some(categoryId) {
        expandedCategory := None;
      } else {
        expandedCategory := Some(categoryId);
      }
    }
  }
}
