/**
 * The category editor (Views/Settings/CategoryFormView.swift): its validity
 * test and the save action, which trims the name, rejects an empty or
 * already used name, and otherwise adds or updates the category on the
 * settings view model.
 */
module CategoryForms {
  import opened Wrappers
  import opened Sequences
  import opened Entities
  import opened CategoryList
  import opened SettingsStore

  /**
   * `CharacterSet.whitespacesAndNewlines`: the Unicode separators (categories
   * Zs, Zl and Zp), the controls U+0009 to U+000D, and U+0085.
   */
  predicate IsWhitespace(c: char) {
    c == ' ' || ('\t' <= c <= '\r') || c == '\U{85}' || c == '\U{A0}' || c == '\U{1680}' ||
    ('\U{2000}' <= c <= '\U{200A}') || c == '\U{2028}' || c == '\U{2029}' || c == '\U{202F}' ||
    c == '\U{205F}' || c == '\U{3000}'
  }

  /** The number of whitespace characters at the front of `s`. */
  function LeadingSpace(s: string): (i: nat)
    ensures i <= |s|
    ensures forall k :: 0 <= k < i ==> IsWhitespace(s[k])
    ensures i < |s| ==> !IsWhitespace(s[i])
  {
    if s == [] || !IsWhitespace(s[0]) then 0 else 1 + LeadingSpace(s[1..])
  }

  /** The end of `s` once its trailing whitespace is dropped, never before `lo`. */
  function TrailingStart(s: string, lo: nat): (j: nat)
    requires lo <= |s|
    ensures lo <= j <= |s|
    ensures forall k :: j <= k < |s| ==> IsWhitespace(s[k])
    ensures j > lo ==> !IsWhitespace(s[j - 1])
    decreases |s|
  {
    if |s| == lo || !IsWhitespace(s[|s| - 1]) then |s|
    else TrailingStart(s[..|s| - 1], lo)
  }

  /** `r` is `s` without some whitespace at either end. */
  ghost predicate IsTrimmingOf(r: string, s: string) {
    exists i, j :: 0 <= i <= j <= |s| && r == s[i..j] &&
      (forall k :: 0 <= k < i ==> IsWhitespace(s[k])) &&
      (forall k :: j <= k < |s| ==> IsWhitespace(s[k]))
  }

  /** `trimmingCharacters(in: .whitespacesAndNewlines)` */
  function Trim(s: string): (r: string)
    ensures IsTrimmingOf(r, s)
    ensures r != [] ==> !IsWhitespace(r[0]) && !IsWhitespace(r[|r| - 1])
    ensures r == [] <==> forall k :: 0 <= k < |s| ==> IsWhitespace(s[k])
  {
    var i := LeadingSpace(s);
    var j := TrailingStart(s, i);
    assert s[i..j] == [] ==> j == i;
    s[i..j]
  }

  /** Trimming twice trims no more than trimming once. */
  lemma TrimIdempotent(s: string)
    ensures Trim(Trim(s)) == Trim(s)
  {
    var r := Trim(s);
    if r != [] {
      assert LeadingSpace(r) == 0;
      assert TrailingStart(r, 0) == |r|;
    }
  }

  /** `lowercased()` on one character: ASCII capitals become small letters. */
  function LowerChar(c: char): char {
    if 'A' <= c <= 'Z' then (c as int - 'A' as int + 'a' as int) as char else c
  }

  /** `lowercased()` */
  function Lower(s: string): (r: string)
    ensures |r| == |s|
    ensures forall i :: 0 <= i < |s| ==> r[i] == LowerChar(s[i])
  {
    seq(|s|, i requires 0 <= i < |s| => LowerChar(s[i]))
  }

  /** Names that differ only in the case of their letters collide. */
  lemma LowerIgnoresCase(a: string, b: string)
    requires |a| == |b|
    requires forall i :: 0 <= i < |a| ==> a[i] == b[i] || LowerChar(a[i]) == b[i] || a[i] == LowerChar(b[i])
    ensures Lower(a) == Lower(b)
  {
    assert forall i :: 0 <= i < |a| ==> LowerChar(LowerChar(a[i])) == LowerChar(a[i]);
  }

  /** The test of the duplicate check, on one category. */
  function ClashesWith(name: string, editing: Option<Category>): Category -> bool {
    (c: Category) => Lower(c.name) == Lower(name) && (editing.None? || c.id != editing.value.id)
  }

  /**
   * The duplicate check of `saveCategory`: some category, other than the one
   * being edited, has the same name up to case.  It compares the name as
   * typed, before trimming.
   */
  function HasDuplicateName(cs: seq<Category>, name: string, editing: Option<Category>): (b: bool)
    ensures b <==> exists i :: 0 <= i < |cs| && Lower(cs[i].name) == Lower(name) &&
                             (editing.None? || cs[i].id != editing.value.id)
  {
    FirstIndex(cs, ClashesWith(name, editing)).Some?
  }

  /**
   * The check compares the untrimmed name: a name typed with a leading space
   * passes it even though, once trimmed, it is the name of an existing category.
   */
  lemma PaddedNamePassesDuplicateCheck()
    ensures !HasDuplicateName([DefaultCategories[3]], " Transport", None)
    ensures Trim(" Transport") == DefaultCategories[3].name
  {
    PaddedNameIsNotADuplicate();
    PaddedNameTrimsToTransport();
  }

  lemma PaddedNameIsNotADuplicate()
    ensures !HasDuplicateName([DefaultCategories[3]], " Transport", None)
  {
    assert Lower(" Transport")[0] == ' ';
    assert Lower(DefaultCategories[3].name)[0] == 't';
  }

  lemma PaddedNameTrimsToTransport()
    ensures Trim(" Transport") == "Transport"
  {
    assert LeadingSpace(" Transport") == 1;
    assert TrailingStart(" Transport", 1) == 10;
    assert " Transport"[1..10] == "Transport";
  }

  const EmptyNameMessage: string := "Le nom de la catégorie ne peut pas être vide"
  const DuplicateNameMessage: string := "Une catégorie avec ce nom existe déjà"

  /**
   * The category `saveCategory` stores: the trimmed name, never a default
   * one, with the id and order of the edited category, or else a fresh id
   * and the next order of its type.
   */
  function SavedCategory(cs: seq<Category>, editing: Option<Category>, newId: Uuid, name: string, icon: string,
                         color: string, kind: TransactionType): (c: Category)
    ensures c.name == Trim(name) && c.icon == icon && c.color == color && c.kind == kind && !c.isDefault
    ensures c.id == (if editing.Some? then editing.value.id else newId)
    ensures editing.Some? ==> c.order == editing.value.order
    ensures editing.None? ==> c.order == NextCategoryOrder(cs, kind)
  {
    Category(
      if editing.Some? then editing.value.id else newId,
      Trim(name), icon, color, kind, false,
      if editing.Some? then editing.value.order else NextCategoryOrder(cs, kind))
  }

  /**
   * The form's state: what the user typed or picked, the category being
   * edited (`nil` for a new one), the error alert, and the view model it saves to.
   * `color` is the colour as its hex string, the form of `color.toHex()`.
   */
  class CategoryForm {
    var name: string
    var icon: string
    var color: string
    var kind: TransactionType
    var showingError: bool
    var errorMessage: string
    const editingCategory: Option<Category>
    const viewModel: SettingsViewModel

    /**
     * A form for `editingCategory`: its name, icon, colour and type when there
     * is one; otherwise an empty name, the "tag.fill" icon, `defaultColor` (the
     * hex string of `Color.blue`) and the expense type.
     */
    constructor(viewModel: SettingsViewModel, editingCategory: Option<Category>, defaultColor: string)
      ensures this.viewModel == viewModel && this.editingCategory == editingCategory
      ensures editingCategory.Some? ==>
        name == editingCategory.value.name && icon == editingCategory.value.icon &&
        color == editingCategory.value.color && kind == editingCategory.value.kind
      ensures editingCategory.None? ==> name == [] && icon == "tag.fill" && color == defaultColor && kind == Expense
      ensures !showingError && errorMessage == ""
    {
      this.viewModel := viewModel;
      this.editingCategory := editingCategory;
      if editingCategory.Some? {
        name := editingCategory.value.name;
        icon := editingCategory.value.icon;
        color := editingCategory.value.color;
        kind := editingCategory.value.kind;
      } else {
        name := [];
        icon := "tag.fill";
        color := defaultColor;
        kind := Expense;
      }
      showingError := false;
      errorMessage := "";
    }

    /** `isValid`: the name is not blank, that is, some character of it is not whitespace. */
    predicate IsValid(): (b: bool)
      reads this
      ensures b <==> exists k :: 0 <= k < |name| && !IsWhitespace(name[k])
    {
      Trim(name) != []
    }

    /**
     * `saveCategory()`.  `newId` stands for the `UUID()` a new category receives.
     * An empty trimmed name or a clashing name shows an error and saves
     * nothing; otherwise exactly one category is updated or appended.
     */
    method SaveCategory(newId: Uuid)
      modifies this, viewModel
      ensures name == old(name) && icon == old(icon) && color == old(color) && kind == old(kind)
      ensures viewModel.hasPIN == old(viewModel.hasPIN)
      ensures !old(IsValid()) ==>
        showingError && errorMessage == EmptyNameMessage && viewModel.categories == old(viewModel.categories)
      ensures old(IsValid()) && HasDuplicateName(old(viewModel.categories), name, editingCategory) ==>
        showingError && errorMessage == DuplicateNameMessage && viewModel.categories == old(viewModel.categories)
      ensures old(IsValid()) && !HasDuplicateName(old(viewModel.categories), name, editingCategory) ==>
        showingError == old(showingError) && errorMessage == old(errorMessage)
      ensures old(IsValid()) && !HasDuplicateName(old(viewModel.categories), name, editingCategory) && editingCategory.Some? ==>
        var saved := SavedCategory(old(viewModel.categories), editingCategory, newId, name, icon, color, kind);
        viewModel.categories == ReplaceFirst(old(viewModel.categories), CategoryHasId(saved.id), saved)
      ensures old(IsValid()) && !HasDuplicateName(old(viewModel.categories), name, editingCategory) && editingCategory.None? ==>
        viewModel.categories ==
          old(viewModel.categories) + [SavedCategory(old(viewModel.categories), None, newId, name, icon, color, kind)]
    {
      var trimmedName := Trim(name);
      if trimmedName == [] {
        errorMessage := EmptyNameMessage;
        showingError := true;
        return;
      }
      if HasDuplicateName(viewModel.categories, name, editingCategory) {
        showingError := true;
        errorMessage := DuplicateNameMessage;
        return;
      }
      var category := SavedCategory(viewModel.categories, editingCategory, newId, name, icon, color, kind);
      if editingCategory.Some? {
        viewModel.UpdateCategory(category);
      } else {
        viewModel.AddCategory(category);
      }
    }
  }

  /**
   * A successful save of a new category appends one category whose order is
   * above every order of its type and whose name is not blank.
   */
  lemma NewCategoryComesLast(cs: seq<Category>, newId: Uuid, name: string, icon: string, color: string,
                             kind: TransactionType)
    requires Trim(name) != []
    ensures var saved := SavedCategory(cs, None, newId, name, icon, color, kind);
      saved.name != [] && !IsWhitespace(saved.name[0]) &&
      forall i :: 0 <= i < |cs| && cs[i].kind == kind ==> cs[i].order < saved.order
  {
    var saved := SavedCategory(cs, None, newId, name, icon, color, kind);
    assert forall i :: 0 <= i < |cs| ==> cs[i] in cs;
  }
}
