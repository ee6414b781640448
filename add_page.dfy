/** The add-transaction wizard: three steps over one form, a Next button
    gated per step, a type switch that clears the category, and a submit
    that resets the form only when the server accepts it. */
module AddWizard {
  import opened JsValues
  import opened TransactionDto

  datatype CategoryOption = CategoryOption(value: string, labelText: string, icon: string)

  const ExpenseCategories: seq<CategoryOption> := [
    CategoryOption("food", "Food & Dining", "🍽️"),
    CategoryOption("transport", "Transport", "🚗"),
    CategoryOption("housing", "Housing", "🏠"),
    CategoryOption("utilities", "Utilities", "⚡"),
    CategoryOption("entertainment", "Entertainment", "🎬"),
    CategoryOption("shopping", "Shopping", "🛍️"),
    CategoryOption("health", "Health", "💊"),
    CategoryOption("education", "Education", "📚"),
    CategoryOption("other_expense", "Other", "📌")
  ]

  const IncomeCategories: seq<CategoryOption> := [
    CategoryOption("salary", "Salary", "💵"),
    CategoryOption("investment", "Investment", "📈"),
    CategoryOption("freelance", "Freelance", "💻"),
    CategoryOption("rent", "Rent", "🏢"),
    CategoryOption("other_income", "Other", "💎")
  ]

  /** The wizard's form; every field is text. */
  datatype FormData = FormData(txType: string, title: string, amount: string, date: string, category: string, description: string)

  /** The empty form, dated today. */
  function InitialForm(today: string): FormData {
    FormData("expense", "", "", today, "", "")
  }

  /** The categories step 2 offers. */
  function CurrentCategories(form: FormData): (options: seq<CategoryOption>)
    ensures form.txType == "expense" ==> options == ExpenseCategories
    ensures form.txType != "expense" ==> options == IncomeCategories
  {
    if form.txType == "expense" then ExpenseCategories else IncomeCategories
  }

  predicate HasValue(c: CategoryOption, value: string) {
    c.value == value
  }

  /** getCategoryInfo: the option with that value, looked up among the
      expense categories first and then among the income categories. */
  function GetCategoryInfo(value: string): (r: Option<CategoryOption>)
    ensures r.Some? ==> r.value.value == value && (r.value in ExpenseCategories || r.value in IncomeCategories)
    ensures r.None? <==> !Offers(ExpenseCategories, value) && !Offers(IncomeCategories, value)
    ensures Offers(ExpenseCategories, value) ==> r.Some? && r.value in ExpenseCategories
  {
    FindOffered(ExpenseCategories, value);
    FindOffered(IncomeCategories, value);
    var expense := Find(ExpenseCategories, c => HasValue(c, value));
    if expense.Some? then expense else Find(IncomeCategories, c => HasValue(c, value))
  }

  /** Some option of the list carries that value. */
  predicate Offers(options: seq<CategoryOption>, value: string) {
    exists i :: 0 <= i < |options| && options[i].value == value
  }

  lemma FindOffered(options: seq<CategoryOption>, value: string)
    ensures var r := Find(options, c => HasValue(c, value));
      && (r.None? <==> !Offers(options, value))
      && (r.Some? ==> r.value in options && r.value.value == value)
  {
  }

  /** The step-2 choice is one of the categories currently offered. */
  predicate CategoryOffered(form: FormData) {
    Offers(CurrentCategories(form), form.category)
  }

  /** canProceedStep1: a title that is not blank once trimmed, and an amount
      that is not empty and parses to a number above zero. */
  function CanProceedStep1(form: FormData, nt: NumberText): (ok: bool)
    ensures ok <==> !IsBlank(form.title) && form.amount != "" && IsPositive(nt.parse(form.amount))
  {
    TrimEmptyIffBlank(form.title);
    Trim(form.title) != "" && form.amount != "" && IsPositive(nt.parse(form.amount))
  }

  /** canProceedStep2: a category was chosen; every category the list
      offers opens the gate. */
  function CanProceedStep2(form: FormData): (ok: bool)
    ensures CategoryOffered(form) ==> ok
  {
    OptionValuesNonEmpty();
    form.category != ""
  }

  /** While the category is either unset or one the list offers, as every
      reachable state keeps it, the step-2 gate opens exactly on an offered
      category. */
  lemma Step2GateIsOffered(form: FormData)
    requires form.category == "" || CategoryOffered(form)
    ensures CanProceedStep2(form) <==> CategoryOffered(form)
  {
    if CategoryOffered(form) {
      OptionValuesNonEmpty();
    }
  }

  // ---------------------------------------------------------------------
  // The request

  /** The body handleSubmit posts: no date; the description is sent as
      `desc`; the amount is parseFloat of the text. */
  datatype Payload = Payload(title: string, amount: Number, txType: string, category: string, desc: string)

  function PayloadOf(form: FormData, nt: NumberText): Payload {
    Payload(form.title, nt.parse(form.amount), form.txType, form.category, form.description)
  }

  /** The request carries the title, type, category and description (under
      the key `desc`) as text and the parsed amount as a JSON number, `null`
      when it is NaN; the date never reaches it. */
  lemma PayloadCarriesForm(form: FormData, date: string, nt: NumberText)
    ensures PayloadOf(form.(date := date), nt) == PayloadOf(form, nt)
    ensures var body := RequestBody(PayloadOf(form, nt));
      && body.title == Str(form.title) && body.txType == Str(form.txType)
      && body.category == Str(form.category) && body.desc == Str(form.description)
      && (nt.parse(form.amount).NaN? <==> body.amount == Null)
      && (nt.parse(form.amount).Finite? ==> body.amount == Num(nt.parse(form.amount).value))
  {
  }

  /** The payload as the server parses it from JSON. */
  function RequestBody(p: Payload): CreateTransactionBody {
    CreateTransactionBody(Str(p.title), Str(p.txType), NumberToJson(p.amount), Str(p.category), Str(p.desc))
  }

  lemma OfferedCategoryFits(form: FormData)
    requires CategoryOffered(form)
    ensures form.category != "" && Length(form.category) <= 100
  {
    var i :| 0 <= i < |CurrentCategories(form)| && CurrentCategories(form)[i].value == form.category;
    if form.txType == "expense" {
      assert form.category in {"food", "transport", "housing", "utilities", "entertainment", "shopping", "health", "education", "other_expense"};
    } else {
      assert form.category in {"salary", "investment", "freelance", "rent", "other_income"};
    }
  }

  /** What the client's gates leave to the server: a form that passed both
      steps is accepted exactly when its title and description are short
      enough and its amount is a whole number of cents. */
  lemma SubmittedFormValidation(form: FormData, nt: NumberText)
    requires form.txType == "expense" || form.txType == "income"
    requires CanProceedStep1(form, nt)
    requires CategoryOffered(form)
    ensures Validate(RequestBody(PayloadOf(form, nt))) == [] <==>
      && Length(form.title) <= 255
      && Length(form.description) <= 1000
      && exists c :: c >= 1 && Cents(c) == nt.parse(form.amount).value
  {
    OfferedCategoryFits(form);
    var body := RequestBody(PayloadOf(form, nt));
    assert form.title != "";
    assert body.amount == Num(nt.parse(form.amount).value);
  }

  // ---------------------------------------------------------------------
  // The page's state and handlers

  class AddPage {
    var currentStep: int
    var isSubmitting: bool
    var formData: FormData
    /** toString/parseFloat, as the page's environment provides them. */
    const numbers: NumberText

    /** What every reachable state satisfies: the step stays in 1..3, a later
        step is only reached through the gates of the earlier ones, and only
        step 3 submits. */
    ghost predicate Valid()
      reads this
    {
      && 1 <= currentStep <= 3
      && (formData.txType == "expense" || formData.txType == "income")
      && (currentStep >= 2 ==> CanProceedStep1(formData, numbers))
      && (formData.category == "" || CategoryOffered(formData))
      && (currentStep == 3 ==> CanProceedStep2(formData))
      && (isSubmitting ==> currentStep == 3)
    }

    constructor (today: string, numbers: NumberText)
      ensures Valid()
      ensures currentStep == 1 && !isSubmitting && formData == InitialForm(today)
      ensures this.numbers == numbers
    {
      currentStep := 1;
      isSubmitting := false;
      formData := InitialForm(today);
      this.numbers := numbers;
    }

    /** handleNext: one step forward, nothing at step 3. */
    method HandleNext()
      modifies this`currentStep
      ensures currentStep == if old(currentStep) < 3 then old(currentStep) + 1 else old(currentStep)
    {
      if currentStep < 3 {
        currentStep := currentStep + 1;
      }
    }

    /** handleBack: one step back, nothing at step 1. */
    method HandleBack()
      modifies this`currentStep
      ensures currentStep == if old(currentStep) > 1 then old(currentStep) - 1 else old(currentStep)
    {
      if currentStep > 1 {
        currentStep := currentStep - 1;
      }
    }

    /** Whether the Next button is shown and enabled: step 1 needs
        canProceedStep1, step 2 needs canProceedStep2, step 3 has none. */
    predicate NextEnabled()
      reads this
    {
      || (currentStep == 1 && CanProceedStep1(formData, numbers))
      || (currentStep == 2 && CanProceedStep2(formData))
    }

    /** A click on Next: handleNext when the button is enabled. */
    method ClickNext()
      requires Valid()
      modifies this`currentStep
      ensures Valid()
      ensures currentStep == if old(NextEnabled()) then old(currentStep) + 1 else old(currentStep)
    {
      if NextEnabled() {
        HandleNext();
      }
    }

    /** A click on Back: shown on steps 2 and 3, disabled on step 3 while
        submitting. */
    method ClickBack()
      requires Valid()
      modifies this`currentStep
      ensures Valid()
      ensures currentStep == if old(currentStep) == 2 || (old(currentStep) == 3 && !isSubmitting)
                             then old(currentStep) - 1 else old(currentStep)
    {
      if currentStep == 2 || (currentStep == 3 && !isSubmitting) {
        HandleBack();
      }
    }

    /** The Expense and Income buttons of step 1: set the type and clear the
        category. */
    method ChooseType(txType: string)
      requires Valid() && currentStep == 1
      requires txType == "expense" || txType == "income"
      modifies this`formData
      ensures Valid()
      ensures formData == old(formData).(txType := txType, category := "")
    {
      formData := formData.(txType := txType, category := "");
    }

    /** The title, amount and date inputs of step 1. */
    method EditStep1(title: string, amount: string, date: string)
      requires Valid() && currentStep == 1
      modifies this`formData
      ensures Valid()
      ensures formData == old(formData).(title := title, amount := amount, date := date)
    {
      formData := formData.(title := title, amount := amount, date := date);
    }

    /** A category button of step 2. */
    method SelectCategory(option: CategoryOption)
      requires Valid() && currentStep == 2
      requires option in CurrentCategories(formData)
      modifies this`formData
      ensures Valid()
      ensures formData == old(formData).(category := option.value)
    {
      var i :| 0 <= i < |CurrentCategories(formData)| && CurrentCategories(formData)[i] == option;
      var before := formData;
      formData := formData.(category := option.value);
      assert CurrentCategories(formData) == CurrentCategories(before);
      assert option.value != "" by {
        OptionValuesNonEmpty();
      }
    }

    /** The description input of step 3. */
    method EditDescription(description: string)
      requires Valid() && currentStep == 3
      modifies this`formData
      ensures Valid()
      ensures formData == old(formData).(description := description)
    {
      var before := formData;
      formData := formData.(description := description);
      assert CurrentCategories(formData) == CurrentCategories(before);
    }

    /** The first half of handleSubmit, up to the request: marks the page
        as submitting and posts the payload. The button is disabled while a
        submit is in flight. */
    method BeginSubmit() returns (posted: Option<Payload>)
      requires Valid() && currentStep == 3
      modifies this`isSubmitting
      ensures Valid() && isSubmitting
      ensures posted == if old(isSubmitting) then None else Some(PayloadOf(formData, numbers))
    {
      if isSubmitting {
        return None;
      }
      isSubmitting := true;
      posted := Some(PayloadOf(formData, numbers));
    }

    /** The second half of handleSubmit, once the server answered: success
        resets the form and returns to step 1; failure only clears the
        submitting flag, keeping the form and the step. */
    method FinishSubmit(succeeded: bool, today: string)
      requires Valid() && isSubmitting
      modifies this`isSubmitting, this`formData, this`currentStep
      ensures Valid() && !isSubmitting
      ensures succeeded ==> formData == InitialForm(today) && currentStep == 1
      ensures !succeeded ==> formData == old(formData) && currentStep == old(currentStep)
    {
      isSubmitting := false;
      if succeeded {
        formData := InitialForm(today);
        currentStep := 1;
      }
    }
  }

  lemma OptionValuesNonEmpty()
    ensures forall o :: o in ExpenseCategories ==> o.value != ""
    ensures forall o :: o in IncomeCategories ==> o.value != ""
  {
  }
}
