/** The transactions page: the icon lookup, the type/category filter, and
    the handlers that edit and delete a transaction in the local list before
    the server answers (the optimistic updates). */
module TransactionList {
  import opened JsValues

  /** A transaction as the page holds it. */
  datatype Transaction = Transaction(
    id: int, title: string, category: string, amount: Number, txType: string, createdAt: string, icon: string)

  /** An entry of the page's category list; "all" has no icon. */
  datatype CategoryOption = CategoryOption(value: string, labelText: string, icon: Option<string>)

  const Categories: seq<CategoryOption> := [
    CategoryOption("all", "All Categories", None),
    CategoryOption("food", "Food & Dining", Some("🍽️")),
    CategoryOption("transportation", "Transportation", Some("🚗")),
    CategoryOption("shopping", "Shopping", Some("🛒")),
    CategoryOption("entertainment", "Entertainment", Some("🎬")),
    CategoryOption("bills", "Bills & Utilities", Some("📄")),
    CategoryOption("investment", "Investment", Some("📈")),
    CategoryOption("salary", "Salary", Some("💰")),
    CategoryOption("other", "Other", Some("📦"))
  ]

  const CategoryIcons: map<string, string> := map[
    "food" := "🍽️", "transport" := "🚗", "housing" := "🏠", "utilities" := "⚡",
    "entertainment" := "🎬", "shopping" := "🛍️", "health" := "💊", "education" := "📚",
    "salary" := "💵", "investment" := "📈", "freelance" := "💻", "rent" := "🏢",
    "other_expense" := "📌", "other_income" := "💎", "transportation" := "🚗",
    "bills" := "📄", "other" := "📦"
  ]

  const DefaultIcon: string := "📦"

  // ---------------------------------------------------------------------
  // getCategoryIcon

  /** The members every object literal inherits from Object.prototype whose
      names are all lower case, so that a lower-cased key can reach them. */
  const InheritedLowerCaseKeys: set<string> := {"constructor", "__proto__"}

  /** What indexing the icon table yields: one of its strings, or an
      inherited member (a function or an object, not text). */
  datatype IconLookup = Icon(text: string) | InheritedMember(name: string)

  /** getCategoryIcon as written: an object-literal lookup of the lower-cased
      key, with "📦" when the lookup is falsy. */
  function CategoryIconAsWritten(category: string): (r: IconLookup)
    ensures r.InheritedMember? <==> ToLower(category) in InheritedLowerCaseKeys
    ensures r.Icon? ==> r.text == DefaultIcon || r.text in CategoryIcons.Values
    ensures ToLower(category) in CategoryIcons ==> r == Icon(CategoryIcons[ToLower(category)])
  {
    InheritedKeysAreNotInTable();
    var key := ToLower(category);
    if key in CategoryIcons then Icon(CategoryIcons[key])
    else if key in InheritedLowerCaseKeys then InheritedMember(key)
    else Icon(DefaultIcon)
  }

  /** No inherited member is shadowed by an entry of the icon table. */
  lemma InheritedKeysAreNotInTable()
    ensures forall k :: k in InheritedLowerCaseKeys ==> k !in CategoryIcons
  {
    forall k | k in CategoryIcons ensures k !in InheritedLowerCaseKeys {
      assert 'c' !in k || |k| != 11;
      assert k[0] != '_';
    }
  }

  /** A category named "Constructor" reaches Object.prototype.constructor
      instead of falling back to the default icon. */
  lemma ConstructorCategoryHasNoIcon()
    ensures CategoryIconAsWritten("Constructor") == InheritedMember("constructor")
    ensures CategoryIconAsWritten("__proto__") == InheritedMember("__proto__")
  {
    assert ToLower("Constructor") == "constructor";
    assert ToLower("__proto__") == "__proto__";
  }

  /** getCategoryIcon as intended: the table's icon for the lower-cased
      category, the default for every other key. */
  function CategoryIcon(category: string): (icon: string)
    ensures icon == DefaultIcon || icon in CategoryIcons.Values
    ensures ToLower(category) in CategoryIcons ==> icon == CategoryIcons[ToLower(category)]
    ensures ToLower(category) !in CategoryIcons ==> icon == DefaultIcon
  {
    var key := ToLower(category);
    if key in CategoryIcons then CategoryIcons[key] else DefaultIcon
  }

  /** The lookup ignores the case of ASCII letters. */
  lemma CategoryIconIgnoresCase(category: string)
    ensures CategoryIcon(category) == CategoryIcon(ToLower(category))
  {
    ToLowerIdempotent(category);
  }

  /** The intended lookup and the written one agree on every category that
      does not name an inherited member. */
  lemma CategoryIconAgrees(category: string)
    requires ToLower(category) !in InheritedLowerCaseKeys
    ensures CategoryIconAsWritten(category) == Icon(CategoryIcon(category))
  {
  }

  // ---------------------------------------------------------------------
  // filteredTransactions

  /** The category filter: "all", or the category compared without case. */
  predicate CategoryMatches(t: Transaction, filterCategory: string) {
    filterCategory == "all" || ToLower(t.category) == ToLower(filterCategory)
  }

  /** The type filter: "all", or exact equality. */
  predicate TypeMatches(t: Transaction, filterType: string) {
    filterType == "all" || t.txType == filterType
  }

  predicate Shown(t: Transaction, filterCategory: string, filterType: string) {
    CategoryMatches(t, filterCategory) && TypeMatches(t, filterType)
  }

  /** filteredTransactions: the records that pass both the category and
      the type test. */
  function FilterTransactions(ts: seq<Transaction>, filterCategory: string, filterType: string): (r: seq<Transaction>)
    ensures |r| <= |ts|
    ensures forall t :: t in r <==> t in ts && CategoryMatches(t, filterCategory) && TypeMatches(t, filterType)
  {
    Filter(ts, t => Shown(t, filterCategory, filterType))
  }

  /** Filtering distributes over concatenation, so the shown transactions
      keep their order. */
  lemma FilterTransactionsKeepsOrder(a: seq<Transaction>, b: seq<Transaction>, filterCategory: string, filterType: string)
    ensures FilterTransactions(a + b, filterCategory, filterType) ==
      FilterTransactions(a, filterCategory, filterType) + FilterTransactions(b, filterCategory, filterType)
  {
    FilterAppend(a, b, t => Shown(t, filterCategory, filterType));
  }

  /** With both filters at "all" the whole list is shown, in order. */
  lemma FilterAllShowsEverything(ts: seq<Transaction>)
    ensures FilterTransactions(ts, "all", "all") == ts
  {
    FilterKeepsAll(ts, t => Shown(t, "all", "all"));
  }

  /** The type filter, unlike the category filter, is case-sensitive. */
  lemma TypeFilterIsExact(t: Transaction)
    requires t.txType == "expense"
    ensures Shown(t, "all", "expense") && !Shown(t, "all", "Expense")
    ensures Shown(t, ToLower(t.category), "all") && Shown(t, t.category, "all")
  {
    ToLowerIdempotent(t.category);
  }

  /** Choosing a category filter in another case shows the same list, as
      long as neither choice is the "all" option. */
  lemma {:induction false} FilterIgnoresCategoryCase(ts: seq<Transaction>, filterCategory: string, filterType: string)
    requires ToLower(filterCategory) != "all"
    ensures FilterTransactions(ts, filterCategory, filterType) == FilterTransactions(ts, ToLower(filterCategory), filterType)
  {
    ToLowerIdempotent(filterCategory);
    if ts != [] {
      FilterIgnoresCategoryCase(ts[1..], filterCategory, filterType);
    }
  }

  // ---------------------------------------------------------------------
  // handleEdit / handleSaveEdit

  /** The edit modal's form: every field is text. */
  datatype EditForm = EditForm(title: string, category: string, amount: string, txType: string)

  const InitialEditForm: EditForm := EditForm("", "", "", "expense")

  /** `amount.toString()`. */
  function ShowNumber(n: Number, nt: NumberText): string {
    match n
    case Finite(x) => nt.show(x)
    case NaN => "NaN"
  }

  /** The form handleEdit fills from a transaction. */
  function EditFormFor(t: Transaction, nt: NumberText): EditForm {
    EditForm(t.title, ToLower(t.category), ShowNumber(t.amount, nt), t.txType)
  }

  predicate HasValue(c: CategoryOption, value: string) {
    c.value == value
  }

  /** `categories.find((c) => c.value === value)` */
  function FindCategory(value: string): Option<CategoryOption> {
    Find(Categories, c => HasValue(c, value))
  }

  /** `a || b` on strings: the first unless it is empty. */
  function OrElse(a: string, b: string): string {
    if a != "" then a else b
  }

  /** The record the optimistic edit puts in place of `t`. */
  function Edited(t: Transaction, form: EditForm, nt: NumberText): (e: Transaction)
    ensures e.id == t.id && e.createdAt == t.createdAt
    ensures e.title == form.title && e.txType == form.txType && e.amount == nt.parse(form.amount)
    ensures e.category != "" || (form.category == "" && t.category == "")
  {
    var info := FindCategory(form.category);
    t.(
      title := form.title,
      category := OrElse(if info.Some? then info.value.labelText else "", OrElse(form.category, t.category)),
      amount := nt.parse(form.amount),
      txType := form.txType,
      icon := if info.Some? && info.value.icon.Some? then OrElse(info.value.icon.value, t.icon) else t.icon)
  }

  /** The optimistic edit: every record with the edited id is replaced by
      its edited form; the length, the order and every other record stay. */
  function ApplyEdit(ts: seq<Transaction>, id: int, form: EditForm, nt: NumberText): (r: seq<Transaction>)
    ensures |r| == |ts|
    ensures forall i :: 0 <= i < |ts| && ts[i].id != id ==> r[i] == ts[i]
    ensures forall i :: 0 <= i < |ts| && ts[i].id == id ==> r[i] == Edited(ts[i], form, nt)
    ensures forall i :: 0 <= i < |ts| && ts[i].id == id ==>
      && r[i].id == id && r[i].createdAt == ts[i].createdAt
      && r[i].title == form.title && r[i].txType == form.txType && r[i].amount == nt.parse(form.amount)
  {
    seq(|ts|, i requires 0 <= i < |ts| => if ts[i].id == id then Edited(ts[i], form, nt) else ts[i])
  }

  /** Opening the editor on a transaction and saving without changes keeps
      its title and type, and its amount whenever the amount's text parses
      back to it; only the category and icon can change. */
  lemma SaveUnchangedKeepsFields(t: Transaction, nt: NumberText)
    requires nt.parse(ShowNumber(t.amount, nt)) == t.amount
    ensures var e := Edited(t, EditFormFor(t, nt), nt);
      e.id == t.id && e.createdAt == t.createdAt && e.title == t.title && e.amount == t.amount && e.txType == t.txType
  {
  }

  /** Choosing "food" in the editor stores the label "Food & Dining" as the
      category: a "food" filter then hides the record, and its displayed
      icon falls back to the default, until the list is fetched again. */
  lemma EditToFoodStoresLabel(t: Transaction, form: EditForm, nt: NumberText)
    requires form.category == "food"
    ensures Edited(t, form, nt).category == "Food & Dining"
    ensures !Shown(Edited(t, form, nt), "food", "all")
    ensures CategoryIcon(Edited(t, form, nt).category) == DefaultIcon
  {
    assert FindCategory("food") == Some(Categories[1]);
    LabelIsNotAKey();
  }

  /** The edited record's category is the label of the option whose value
      the form names, else the form's own text, else the old category; its
      icon is that option's icon, else the old one. */
  lemma EditedCategoryAndIcon(t: Transaction, form: EditForm, nt: NumberText)
    ensures forall i :: 0 <= i < |Categories| && Categories[i].value == form.category ==>
      && Edited(t, form, nt).category == Categories[i].labelText
      && Edited(t, form, nt).icon == (if Categories[i].icon.Some? then Categories[i].icon.value else t.icon)
    ensures (forall i :: 0 <= i < |Categories| ==> Categories[i].value != form.category) ==>
      && Edited(t, form, nt).category == (if form.category != "" then form.category else t.category)
      && Edited(t, form, nt).icon == t.icon
  {
    forall i | 0 <= i < |Categories| && Categories[i].value == form.category
      ensures Edited(t, form, nt).category == Categories[i].labelText
      ensures Edited(t, form, nt).icon == (if Categories[i].icon.Some? then Categories[i].icon.value else t.icon)
    {
      CategoryValuesDistinct();
      FindUnique(Categories, form.category, i);
      CategoryTextsNonEmpty(i);
    }
  }

  /** In a list whose values are distinct, the search finds the one option
      carrying the value. */
  lemma FindUnique(options: seq<CategoryOption>, value: string, i: nat)
    requires forall a, b :: 0 <= a < b < |options| ==> options[a].value != options[b].value
    requires i < |options| && options[i].value == value
    ensures Find(options, c => HasValue(c, value)) == Some(options[i])
  {
    var r := Find(options, c => HasValue(c, value));
    var j :| 0 <= j < |options| && options[j] == r.value && HasValue(options[j], value)
      && forall k :: 0 <= k < j ==> !HasValue(options[k], value);
    assert !(j < i) && !(i < j);
  }

  lemma CategoryValuesDistinct()
    ensures forall a, b :: 0 <= a < b < |Categories| ==> Categories[a].value != Categories[b].value
  {
    var vs := seq(|Categories|, k requires 0 <= k < |Categories| => Categories[k].value);
    assert vs == ["all", "food", "transportation", "shopping", "entertainment", "bills", "investment", "salary", "other"];
    forall a, b | 0 <= a < b < |Categories|
      ensures Categories[a].value != Categories[b].value
    {
      assert vs[a] != vs[b];
    }
  }

  lemma CategoryTextsNonEmpty(i: nat)
    requires i < |Categories|
    ensures Categories[i].labelText != ""
    ensures Categories[i].icon.Some? ==> Categories[i].icon.value != ""
  {
  }

  lemma LabelIsNotAKey()
    ensures ToLower("Food & Dining") != "food"
    ensures ToLower("Food & Dining") !in CategoryIcons
  {
    var lower := ToLower("Food & Dining");
    assert |lower| == 13 && lower[4] == ' ';
    forall k | k in CategoryIcons ensures k != lower {
      assert ' ' !in k;
    }
  }

  // ---------------------------------------------------------------------
  // handleDelete

  predicate HasOtherId(t: Transaction, id: int) {
    t.id != id
  }

  /** The optimistic delete: the records without that id, in order. */
  function RemoveById(ts: seq<Transaction>, id: int): (r: seq<Transaction>)
    ensures forall t :: t in r <==> t in ts && t.id != id
    ensures (forall t :: t in ts ==> t.id != id) ==> r == ts
  {
    FilterKeepsAllIfNoMatch(ts, id);
    Filter(ts, t => HasOtherId(t, id))
  }

  lemma FilterKeepsAllIfNoMatch(ts: seq<Transaction>, id: int)
    ensures (forall t :: t in ts ==> t.id != id) ==> Filter(ts, t => HasOtherId(t, id)) == ts
  {
    if forall t :: t in ts ==> t.id != id {
      FilterKeepsAll(ts, t => HasOtherId(t, id));
    }
  }

  /** Deleting keeps the order of the records that stay. */
  lemma RemoveByIdKeepsOrder(a: seq<Transaction>, b: seq<Transaction>, id: int)
    ensures RemoveById(a + b, id) == RemoveById(a, id) + RemoveById(b, id)
  {
    FilterAppend(a, b, t => HasOtherId(t, id));
  }

  /** Editing a record and then deleting it leaves the list as deleting it
      straight away would. */
  lemma {:induction false} RemoveAfterEdit(ts: seq<Transaction>, id: int, form: EditForm, nt: NumberText)
    ensures RemoveById(ApplyEdit(ts, id, form, nt), id) == RemoveById(ts, id)
  {
    if ts != [] {
      var edited := ApplyEdit(ts, id, form, nt);
      assert edited[1..] == ApplyEdit(ts[1..], id, form, nt);
      RemoveAfterEdit(ts[1..], id, form, nt);
      assert HasOtherId(edited[0], id) == HasOtherId(ts[0], id);
      assert HasOtherId(edited[0], id) ==> edited[0] == ts[0];
    }
  }

  // ---------------------------------------------------------------------
  // The page's state and handlers

  datatype Toast = Toast(success: bool, message: string)

  /** The body of the PATCH request the save sends: the form's text, with
      the category's value rather than its label. */
  datatype PatchRequest = PatchRequest(id: int, title: string, category: string, txType: string, amount: string)

  class TransactionsPage {
    var transactions: seq<Transaction>
    var isLoading: bool
    var filterCategory: string
    var filterType: string
    var isEditModalOpen: bool
    var isUpdating: bool
    var editingTransaction: Option<Transaction>
    var editForm: EditForm
    var deleteConfirmId: Option<int>

    constructor ()
      ensures transactions == [] && isLoading
      ensures filterCategory == "all" && filterType == "all"
      ensures !isEditModalOpen && !isUpdating && editingTransaction == None
      ensures editForm == InitialEditForm && deleteConfirmId == None
    {
      transactions := [];
      isLoading := true;
      filterCategory, filterType := "all", "all";
      isEditModalOpen, isUpdating := false, false;
      editingTransaction := None;
      editForm := InitialEditForm;
      deleteConfirmId := None;
    }

    /** The list the page renders. */
    function FilteredTransactions(): seq<Transaction>
      reads this
    {
      FilterTransactions(transactions, filterCategory, filterType)
    }

    /** The initial fetch: its data replaces the list when it succeeds. */
    method FetchFinished(response: Option<seq<Transaction>>)
      modifies this
      ensures transactions == if response.Some? then response.value else old(transactions)
      ensures !isLoading
      ensures filterCategory == old(filterCategory) && filterType == old(filterType)
      ensures isEditModalOpen == old(isEditModalOpen) && isUpdating == old(isUpdating)
      ensures editingTransaction == old(editingTransaction) && editForm == old(editForm)
      ensures deleteConfirmId == old(deleteConfirmId)
    {
      if response.Some? {
        transactions := response.value;
      }
      isLoading := false;
    }

    /** The two filter selects. */
    method SetFilters(category: string, txType: string)
      modifies this`filterCategory, this`filterType
      ensures filterCategory == category && filterType == txType
    {
      filterCategory, filterType := category, txType;
    }

    /** The "clear filters" button: the whole list is shown again. */
    method ClearFilters()
      modifies this`filterCategory, this`filterType
      ensures filterCategory == "all" && filterType == "all"
      ensures FilteredTransactions() == transactions
    {
      filterCategory, filterType := "all", "all";
      FilterAllShowsEverything(transactions);
    }

    /** handleEdit: remembers the transaction, fills the form from it (the
        category lower-cased, the amount as text) and opens the modal. */
    method HandleEdit(t: Transaction, nt: NumberText)
      modifies this`editingTransaction, this`editForm, this`isEditModalOpen
      ensures editingTransaction == Some(t)
      ensures editForm == EditForm(t.title, ToLower(t.category), ShowNumber(t.amount, nt), t.txType)
      ensures isEditModalOpen
    {
      editingTransaction := Some(t);
      editForm := EditFormFor(t, nt);
      isEditModalOpen := true;
    }

    /** The modal's inputs and type buttons. */
    method SetEditForm(form: EditForm)
      modifies this`editForm
      ensures editForm == form
    {
      editForm := form;
    }

    /** The modal's close and cancel buttons; the edited transaction stays
        remembered. */
    method CloseEditModal()
      modifies this`isEditModalOpen
      ensures !isEditModalOpen
    {
      isEditModalOpen := false;
    }

    /** handleSaveEdit: without an edited transaction, nothing happens.
        Otherwise the local list is edited first, the PATCH is sent, and the
        modal closes; a failed PATCH only changes the toast, the local edit
        is not rolled back. */
    method HandleSaveEdit(nt: NumberText, patchSucceeds: bool)
      returns (request: Option<PatchRequest>, toast: Option<Toast>)
      modifies this
      ensures old(editingTransaction).None? ==>
        && request == None && toast == None
        && transactions == old(transactions) && isEditModalOpen == old(isEditModalOpen)
        && isUpdating == old(isUpdating) && editingTransaction == None
      ensures old(editingTransaction).Some? ==>
        var id := old(editingTransaction).value.id;
        && transactions == ApplyEdit(old(transactions), id, old(editForm), nt)
        && request == Some(PatchRequest(id, old(editForm).title, old(editForm).category, old(editForm).txType, old(editForm).amount))
        && toast == Some(if patchSucceeds then Toast(true, "Transaction updated.")
                         else Toast(false, "Failed to update transaction."))
        && !isUpdating && !isEditModalOpen && editingTransaction == None
      ensures editForm == old(editForm) && deleteConfirmId == old(deleteConfirmId)
      ensures filterCategory == old(filterCategory) && filterType == old(filterType)
      ensures isLoading == old(isLoading)
    {
      if editingTransaction.None? {
        return None, None;
      }
      var editing := editingTransaction.value;
      isUpdating := true;
      transactions := ApplyEdit(transactions, editing.id, editForm, nt);
      request := Some(PatchRequest(editing.id, editForm.title, editForm.category, editForm.txType, editForm.amount));
      if patchSucceeds {
        toast := Some(Toast(true, "Transaction updated."));
      } else {
        toast := Some(Toast(false, "Failed to update transaction."));
      }
      isUpdating := false;
      isEditModalOpen := false;
      editingTransaction := None;
    }

    /** The delete button: asks for confirmation of that id. */
    method AskDelete(id: int)
      modifies this`deleteConfirmId
      ensures deleteConfirmId == Some(id)
    {
      deleteConfirmId := Some(id);
    }

    /** The confirmation's cancel button and backdrop. */
    method CancelDelete()
      modifies this`deleteConfirmId
      ensures deleteConfirmId == None
    {
      deleteConfirmId := None;
    }

    /** handleDelete: every record with that id leaves the local list at
        once, the confirmation closes, and the DELETE's outcome only decides
        the toast. */
    method HandleDelete(id: int, deleteSucceeds: bool) returns (toast: Toast)
      modifies this`transactions, this`deleteConfirmId
      ensures transactions == RemoveById(old(transactions), id)
      ensures deleteConfirmId == None
      ensures toast == if deleteSucceeds then Toast(true, "Transaction deleted.")
                       else Toast(false, "Failed to delete transaction.")
    {
      transactions := RemoveById(transactions, id);
      deleteConfirmId := None;
      if deleteSucceeds {
        toast := Toast(true, "Transaction deleted.");
      } else {
        toast := Toast(false, "Failed to delete transaction.");
      }
    }
  }
}
