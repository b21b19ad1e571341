/** The category picker: which kinds of question the quiz draws from. Toggling
    builds a new selection and hands it to the parent; the last remaining
    category cannot be switched off. */
module CategorySelector {
  import opened Prelude

  /** The quiz categories, named after their string values. */
  datatype Category = planet | sign | house | aspect

  /** The buttons, in display order. */
  const AllCategories: seq<Category> := [planet, sign, house, aspect]

  /** The selection with every occurrence of `c` removed (`filter(x => x !== c)`). */
  function Without(selected: seq<Category>, c: Category): (r: seq<Category>)
    ensures forall x :: x in r <==> x in selected && x != c
    ensures c !in selected ==> r == selected
  {
    if |selected| == 0 then []
    else if selected[0] == c then Without(selected[1..], c)
    else [selected[0]] + Without(selected[1..], c)
  }

  /** The meaning of a click: the argument passed to `onCategoriesChange`, or
      `None` when the handler calls nothing (deselecting the only category). */
  function ToggleCategory(selected: seq<Category>, c: Category): (r: Option<seq<Category>>)
    ensures c in selected && |selected| > 1 ==> r.Some? && (forall x :: x in r.value <==> x in selected && x != c)
    ensures c in selected && |selected| <= 1 ==> r.None?
    ensures c !in selected ==> r == Some(selected + [c])
  {
    if c in selected then
      if |selected| > 1 then Some(Without(selected, c)) else None
    else Some(selected + [c])
  }

  /** The selection after the click: unchanged when nothing is reported. */
  function Selection(selected: seq<Category>, c: Category): seq<Category> {
    match ToggleCategory(selected, c)
    case Some(next) => next
    case None => selected
  }

  /** `disabled` on a button: it is the only selected category. */
  predicate Disabled(selected: seq<Category>, c: Category) {
    |selected| == 1 && c in selected
  }

  /** A duplicate-free, non-empty selection never becomes empty by a click. */
  lemma {:induction false} ToggleNeverEmpties(selected: seq<Category>, c: Category)
    requires Distinct(selected) && |selected| > 0
    ensures |Selection(selected, c)| > 0
  {
    if c in selected && |selected| > 1 {
      var i :| 0 <= i < |selected| && selected[i] == c;
      var other := if i == 0 then selected[1] else selected[0];
      assert other in selected && other != c;
      assert other in Selection(selected, c);
    }
  }

  /** Without duplicates the guarantee fails: a selection listing one category
      twice is emptied by switching that category off. */
  lemma DuplicateSelectionEmpties()
    ensures ToggleCategory([planet, planet], planet) == Some([])
  {
    assert Without([planet, planet], planet) == [];
  }

  /** Removing a category keeps a duplicate-free selection duplicate-free. */
  lemma {:induction false} WithoutDistinct(selected: seq<Category>, c: Category)
    requires Distinct(selected)
    ensures Distinct(Without(selected, c))
  {
    if |selected| > 0 {
      assert Distinct(selected[1..]);
      WithoutDistinct(selected[1..], c);
      assert selected[0] !in selected[1..];
    }
  }

  /** Every click keeps a duplicate-free selection duplicate-free: appending
      happens only when the category is absent. */
  lemma ToggleKeepsDistinct(selected: seq<Category>, c: Category)
    requires Distinct(selected)
    ensures Distinct(Selection(selected, c))
  {
    if c in selected {
      WithoutDistinct(selected, c);
    }
  }

  /** A button is disabled exactly when clicking it would report nothing. */
  lemma DisabledIffNoChange(selected: seq<Category>, c: Category)
    ensures Disabled(selected, c) <==> ToggleCategory(selected, c).None?
  {
    if c in selected {
      assert |selected| > 0;
    }
  }

  /** The button captions. */
  function CategoryLabel(c: Category): (caption: string)
    ensures caption in ["Planets", "Signs", "Houses", "Aspects"]
  {
    match c
    case planet => "Planets"
    case sign => "Signs"
    case house => "Houses"
    case aspect => "Aspects"
  }

  /** The button icons: ringed planet, Gemini, house, arrows. */
  function CategoryIcon(c: Category): (icon: string)
    ensures icon in ["\U{1FA90}", "\U{264A}", "\U{1F3E0}", "\U{1F504}"]
  {
    match c
    case planet => "\U{1FA90}"
    case sign => "\U{264A}"
    case house => "\U{1F3E0}"
    case aspect => "\U{1F504}"
  }

  /** The captions and icons in display order, and no two categories share
      a caption or an icon. */
  lemma CategoryLabelsDistinct()
    ensures Map(AllCategories, CategoryLabel) == ["Planets", "Signs", "Houses", "Aspects"]
    ensures Map(AllCategories, CategoryIcon) == ["\U{1FA90}", "\U{264A}", "\U{1F3E0}", "\U{1F504}"]
    ensures forall c, d :: CategoryLabel(c) == CategoryLabel(d) ==> c == d
    ensures forall c, d :: CategoryIcon(c) == CategoryIcon(d) ==> c == d
  {
  }
}
