/**
 * The state of the `AddTransactionForm` composable and its click handlers. The Compose
 * `remember`ed variables are the fields of a class; each handler is a method. Parsing the
 * amount text (`String.toDoubleOrNull`) and the clock are parameters.
 */
module TransactionForm {
  import opened Wrappers
  import opened LedgerEntity

  /**
   * Kotlin's `Char.isWhitespace`: Java's whitespace characters together with every space
   * separator (category Zs, which includes the no-break spaces) and the line and paragraph
   * separators.
   */
  predicate IsWhitespace(c: char)
  {
    c == '\t' || c == '\n' || c == '\U{000B}' || c == '\U{000C}' || c == '\r'
    || ('\U{001C}' <= c <= '\U{001F}')
    || c == ' ' || c == '\U{00A0}' || c == '\U{1680}'
    || ('\U{2000}' <= c <= '\U{200A}')
    || c == '\U{202F}' || c == '\U{205F}' || c == '\U{3000}'
    || c == '\U{2028}' || c == '\U{2029}'
  }

  /** Kotlin's `isBlank`: empty or whitespace only. */
  predicate IsBlank(s: string)
  {
    forall i | 0 <= i < |s| :: IsWhitespace(s[i])
  }

  /** `amount.toDoubleOrNull() ?: 0.0`. */
  function ParsedAmount(parse: string -> Option<real>, text: string): (r: real)
    ensures parse(text).None? ==> r == 0.0
    ensures parse(text).Some? ==> r == parse(text).value
  {
    parse(text).GetOr(0.0)
  }

  /** What Save hands to `onSubmit`. */
  datatype Submission = Submission(
    title: string,
    amount: real,
    isIncome: bool,
    category: string,
    date: Millis,
    description: Option<string>)

  /** A character that is not whitespace, i.e. one that makes a text non-blank. */
  predicate HasVisible(s: string)
  {
    exists i | 0 <= i < |s| :: !IsWhitespace(s[i])
  }

  /**
   * The Save guard: the title and the category each hold a non-whitespace character, and
   * the amount is positive. Empty text never passes.
   */
  function CanSave(title: string, amount: real, category: string): (r: bool)
    ensures r <==> HasVisible(title) && amount > 0.0 && HasVisible(category)
    ensures r ==> |title| > 0 && |category| > 0
  {
    !IsBlank(title) && amount > 0.0 && !IsBlank(category)
  }

  /**
   * The outcome of pressing Save on the given field contents: the submission, or None when
   * the guard rejects it. The date is the picked one, or `now` when none is picked; a blank
   * description is sent as null.
   */
  function SaveOutcome(title: string, amountText: string, isIncome: bool, category: string,
                       description: string, selectedDate: Option<Millis>,
                       parse: string -> Option<real>, now: Millis): (r: Option<Submission>)
    ensures r.Some? <==> CanSave(title, ParsedAmount(parse, amountText), category)
    ensures r.Some? ==> r.value.title == title && r.value.category == category
    ensures r.Some? ==> r.value.isIncome == isIncome && r.value.amount == ParsedAmount(parse, amountText)
    ensures r.Some? ==> r.value.amount > 0.0
    ensures r.Some? ==> r.value.date == (if selectedDate.Some? then selectedDate.value else now)
    ensures r.Some? ==> (r.value.description.None? <==> IsBlank(description))
    ensures r.Some? && r.value.description.Some? ==> r.value.description.value == description
  {
    var amount := ParsedAmount(parse, amountText);
    var date := selectedDate.GetOr(now);
    if CanSave(title, amount, category) then
      Some(Submission(title, amount, isIncome, category, date,
                      if IsBlank(description) then None else Some(description)))
    else None
  }

  /** An amount that does not parse counts as 0 and is always rejected. */
  lemma UnparseableAmountRejected(title: string, amountText: string, isIncome: bool,
                                  category: string, description: string,
                                  selectedDate: Option<Millis>,
                                  parse: string -> Option<real>, now: Millis)
    requires parse(amountText).None?
    ensures SaveOutcome(title, amountText, isIncome, category, description, selectedDate, parse, now).None?
  {
  }

  /** A blank title or a blank category is rejected, whatever the amount. */
  lemma BlankFieldRejected(title: string, amountText: string, isIncome: bool,
                           category: string, description: string,
                           selectedDate: Option<Millis>,
                           parse: string -> Option<real>, now: Millis)
    requires IsBlank(title) || IsBlank(category)
    ensures SaveOutcome(title, amountText, isIncome, category, description, selectedDate, parse, now).None?
  {
  }

  /**
   * Blankness is decided character by character: a concatenation is blank exactly when both
   * parts are, and a text containing a letter or a digit is not blank.
   */
  lemma {:induction false} WhitespaceIsBlank(s: string, t: string)
    ensures IsBlank(s + t) <==> IsBlank(s) && IsBlank(t)
    ensures (exists i | 0 <= i < |s| :: 'a' <= s[i] <= 'z' || 'A' <= s[i] <= 'Z' || '0' <= s[i] <= '9')
              ==> !IsBlank(s)
  {
    if IsBlank(s + t) {
      forall i | 0 <= i < |s| ensures IsWhitespace(s[i]) {
        assert (s + t)[i] == s[i];
      }
      forall i | 0 <= i < |t| ensures IsWhitespace(t[i]) {
        assert (s + t)[|s| + i] == t[i];
      }
    }
    if IsBlank(s) && IsBlank(t) {
      forall i | 0 <= i < |s + t| ensures IsWhitespace((s + t)[i]) {
        if i < |s| { assert (s + t)[i] == s[i]; } else { assert (s + t)[i] == t[i - |s|]; }
      }
    }
  }

  class AddTransactionForm {
    var isExpanded: bool
    var title: string
    var amount: string
    var isIncome: bool
    var category: string
    var description: string
    /** The date picker's selection. */
    var selectedDateMillis: Option<Millis>

    /**
     * The form as first composed: collapsed, income selected, every text field empty.
     * `initialSelection` is the picker's initial selection: the picker is created with the
     * current time and keeps the start of that day (UTC), so it is not the raw clock value.
     */
    constructor (initialSelection: Millis)
      ensures !isExpanded && isIncome
      ensures title == "" && amount == "" && category == "" && description == ""
      ensures selectedDateMillis == Some(initialSelection)
    {
      isExpanded := false;
      title := "";
      amount := "";
      isIncome := true;
      category := "";
      description := "";
      selectedDateMillis := Some(initialSelection);
    }

    /** The floating action button: expands the form and touches nothing else. */
    method OnFabClick()
      modifies this
      ensures isExpanded
      ensures title == old(title) && amount == old(amount) && category == old(category)
      ensures description == old(description) && isIncome == old(isIncome)
      ensures selectedDateMillis == old(selectedDateMillis)
    {
      isExpanded := true;
    }

    /** Cancel: collapses the form; the typed contents stay. */
    method OnCancelClick()
      modifies this
      ensures !isExpanded
      ensures title == old(title) && amount == old(amount) && category == old(category)
      ensures description == old(description) && isIncome == old(isIncome)
      ensures selectedDateMillis == old(selectedDateMillis)
    {
      isExpanded := false;
    }

    /** The income / expense segmented buttons. */
    method OnTypeClick(income: bool)
      modifies this
      ensures isIncome == income
      ensures isExpanded == old(isExpanded)
      ensures title == old(title) && amount == old(amount) && category == old(category)
      ensures description == old(description) && selectedDateMillis == old(selectedDateMillis)
    {
      isIncome := income;
    }

    /** Editing one of the text fields replaces its contents. */
    method OnTextChange(newTitle: string, newAmount: string, newCategory: string, newDescription: string)
      modifies this
      ensures title == newTitle && amount == newAmount
      ensures category == newCategory && description == newDescription
      ensures isExpanded == old(isExpanded) && isIncome == old(isIncome)
      ensures selectedDateMillis == old(selectedDateMillis)
    {
      title := newTitle;
      amount := newAmount;
      category := newCategory;
      description := newDescription;
    }

    /** The date picker dialog's selection (it may be cleared). */
    method OnDateSelected(millis: Option<Millis>)
      modifies this
      ensures selectedDateMillis == millis
      ensures isExpanded == old(isExpanded) && isIncome == old(isIncome)
      ensures title == old(title) && amount == old(amount) && category == old(category)
      ensures description == old(description)
    {
      selectedDateMillis := millis;
    }

    /**
     * Save. When the guard holds, returns what `onSubmit` receives and resets title, amount,
     * category and description and collapses the form, keeping the type and the date; when it
     * does not, nothing is submitted and nothing changes.
     */
    method OnSaveClick(parse: string -> Option<real>, now: Millis) returns (submitted: Option<Submission>)
      modifies this
      ensures submitted == SaveOutcome(old(title), old(amount), old(isIncome), old(category),
                                       old(description), old(selectedDateMillis), parse, now)
      ensures submitted.Some? ==>
                title == "" && amount == "" && category == "" && description == "" && !isExpanded
      ensures submitted.None? ==>
                title == old(title) && amount == old(amount) && category == old(category)
                && description == old(description) && isExpanded == old(isExpanded)
      ensures isIncome == old(isIncome) && selectedDateMillis == old(selectedDateMillis)
    {
      var amountValue := ParsedAmount(parse, amount);
      var date := if selectedDateMillis.Some? then selectedDateMillis.value else now;
      if CanSave(title, amountValue, category) {
        var desc := if IsBlank(description) then None else Some(description);
        submitted := Some(Submission(title, amountValue, isIncome, category, date, desc));
        title := "";
        amount := "";
        category := "";
        description := "";
        isExpanded := false;
      } else {
        submitted := None;
      }
    }
  }

  /** Once a Save has been accepted, pressing Save again on the reset form is rejected. */
  lemma ResetFormRejectsSave(isIncome: bool, selectedDate: Option<Millis>,
                             parse: string -> Option<real>, now: Millis)
    ensures SaveOutcome("", "", isIncome, "", "", selectedDate, parse, now).None?
  {
  }
}
