/**
 * The logic of `AddTransactionScreen` in the budget app: input validation, the category
 * list offered for the selected type, and the account selected by default once the
 * repository's data is loaded. Number parsing (`String.toDoubleOrNull`) is a parameter.
 */
module AddTransactionScreen {
  import opened Wrappers
  import opened Sequences
  import opened BudgetModels
  import opened BudgetRepository

  /**
   * `validateInput`: every field filled in, and the amount a positive number. When it holds,
   * the amount handed on (`toDoubleOrNull() ?: 0.0`) is that positive number and both
   * selections can be unwrapped.
   */
  function ValidateInput(amount: string, description: string, categoryId: Option<string>,
                         accountId: Option<string>, parse: string -> Option<real>): (r: bool)
    ensures r ==> parse(amount).GetOr(0.0) > 0.0 && |amount| > 0 && |description| > 0
    ensures r ==> categoryId.Some? && accountId.Some?
  {
    |amount| > 0
    && parse(amount).Some?
    && parse(amount).value > 0.0
    && |description| > 0
    && categoryId.Some?
    && accountId.Some?
  }

  /**
   * Validation rejects an empty amount, an unparseable amount, an empty description and a
   * missing selection; with all of them present it accepts exactly a positive amount.
   */
  lemma ValidateInputRejects(amount: string, description: string, categoryId: Option<string>,
                             accountId: Option<string>, parse: string -> Option<real>)
    ensures amount == "" ==> !ValidateInput(amount, description, categoryId, accountId, parse)
    ensures parse(amount).None? ==> !ValidateInput(amount, description, categoryId, accountId, parse)
    ensures description == "" ==> !ValidateInput(amount, description, categoryId, accountId, parse)
    ensures categoryId.None? || accountId.None? ==>
              !ValidateInput(amount, description, categoryId, accountId, parse)
    ensures amount != "" && description != "" && categoryId.Some? && accountId.Some? ==>
              (ValidateInput(amount, description, categoryId, accountId, parse)
               <==> parse(amount).GetOr(0.0) > 0.0)
  {
  }

  /** The category filter's predicate: the selected type's categories, or all for a transfer. */
  function Shown(selected: TransactionType): Category -> bool
  {
    (c: Category) => c.kind == selected || selected == TRANSFER
  }

  /** The categories offered for the selected type, in their stored order. */
  function FilterCategories(categories: seq<Category>, selected: TransactionType): (r: seq<Category>)
    ensures selected == TRANSFER ==> r == categories
    ensures selected != TRANSFER ==> forall i | 0 <= i < |r| :: r[i].kind == selected
    ensures forall i | 0 <= i < |categories| && categories[i].kind == selected :: categories[i] in r
    ensures forall i | 0 <= i < |r| :: r[i] in categories
    ensures IsSubsequence(r, categories)
    ensures forall c {:trigger multiset(r)[c]} :: multiset(r)[c] ==
              if c.kind == selected || selected == TRANSFER then multiset(categories)[c] else 0
  {
    Filter(categories, Shown(selected))
  }

  /** `accounts.find { it.isDefault }?.id ?: accounts.first().id`, for a non-empty list. */
  function DefaultAccountId(accounts: seq<Account>): (r: string)
    requires |accounts| > 0
    ensures (exists i | 0 <= i < |accounts| :: accounts[i].isDefault) ==>
              exists i | 0 <= i < |accounts| ::
                accounts[i].isDefault && r == accounts[i].id
                && forall j | 0 <= j < i :: !accounts[j].isDefault
    ensures (forall i | 0 <= i < |accounts| :: !accounts[i].isDefault) ==> r == accounts[0].id
  {
    var found := Find(accounts, (a: Account) => a.isDefault);
    if found.Some? then found.value.id else accounts[0].id
  }

  /** A fresh repository's default account is "1", the cash account. */
  lemma FreshRepositoryDefaultsToCash()
    ensures DefaultAccountId(InitialAccounts()) == "1"
  {
    var accounts := InitialAccounts();
    assert accounts[0].isDefault;
    var r := DefaultAccountId(accounts);
    var i :| 0 <= i < |accounts| && accounts[i].isDefault && r == accounts[i].id
             && forall j | 0 <= j < i :: !accounts[j].isDefault;
    assert i == 0;
  }

  /** How many of four categories a filter keeps. */
  lemma FilterFourCount(c: seq<Category>, p: Category -> bool)
    requires |c| == 4
    ensures |Filter(c, p)| == (if p(c[0]) then 1 else 0) + (if p(c[1]) then 1 else 0)
                             + (if p(c[2]) then 1 else 0) + (if p(c[3]) then 1 else 0)
  {
    assert c == [c[0]] + ([c[1]] + ([c[2]] + ([c[3]] + [])));
    FilterCons(c[3], [], p);
    FilterCons(c[2], [c[3]] + [], p);
    FilterCons(c[1], [c[2]] + ([c[3]] + []), p);
    FilterCons(c[0], [c[1]] + ([c[2]] + ([c[3]] + [])), p);
  }

  /** With the initial categories, income offers one category and expense three. */
  lemma FreshRepositoryCategoryCounts()
    ensures |FilterCategories(InitialCategories(), INCOME)| == 1
    ensures |FilterCategories(InitialCategories(), EXPENSE)| == 3
    ensures FilterCategories(InitialCategories(), TRANSFER) == InitialCategories()
  {
    var c := InitialCategories();
    FilterFourCount(c, Shown(INCOME));
    assert Shown(INCOME)(c[0]) && !Shown(INCOME)(c[1]) && !Shown(INCOME)(c[2]) && !Shown(INCOME)(c[3]);
    FilterFourCount(c, Shown(EXPENSE));
    assert !Shown(EXPENSE)(c[0]) && Shown(EXPENSE)(c[1]) && Shown(EXPENSE)(c[2]) && Shown(EXPENSE)(c[3]);
  }

  class AddTransactionScreen {
    var amount: string
    var description: string
    var selectedType: TransactionType
    var selectedCategoryId: Option<string>
    var selectedAccountId: Option<string>
    var categories: seq<Category>
    var accounts: seq<Account>
    var isLoading: bool

    /** The screen as first composed: expense selected, nothing chosen, nothing loaded. */
    constructor ()
      ensures amount == "" && description == "" && selectedType == EXPENSE
      ensures selectedCategoryId.None? && selectedAccountId.None?
      ensures categories == [] && accounts == [] && isLoading
    {
      amount := "";
      description := "";
      selectedType := EXPENSE;
      selectedCategoryId := None;
      selectedAccountId := None;
      categories := [];
      accounts := [];
      isLoading := true;
    }

    /**
     * The launched effect: loads categories and accounts, selects the default account when
     * there is any account, and ends the loading state.
     */
    method LoadData(repository: CloudBudgetRepository)
      modifies this
      ensures categories == repository.categories && accounts == repository.accounts
      ensures |accounts| > 0 ==> selectedAccountId == Some(DefaultAccountId(accounts))
      ensures |accounts| == 0 ==> selectedAccountId == old(selectedAccountId)
      ensures !isLoading
      ensures amount == old(amount) && description == old(description)
      ensures selectedType == old(selectedType) && selectedCategoryId == old(selectedCategoryId)
    {
      categories := repository.GetCategories();
      accounts := repository.GetAccounts();
      if |accounts| > 0 {
        selectedAccountId := Some(DefaultAccountId(accounts));
      }
      isLoading := false;
    }

    /**
     * The categories the list shows for the current type: for a transfer all of them, else
     * exactly the loaded categories of that type, each as often as loaded, in loaded order.
     */
    function ShownCategories(): (r: seq<Category>)
      reads this
      ensures r == FilterCategories(categories, selectedType)
      ensures IsSubsequence(r, categories)
      ensures selectedType == TRANSFER ==> r == categories
      ensures selectedType != TRANSFER ==> forall i | 0 <= i < |r| :: r[i].kind == selectedType
      ensures forall c {:trigger multiset(r)[c]} :: multiset(r)[c] ==
                if c.kind == selectedType || selectedType == TRANSFER then multiset(categories)[c] else 0
    {
      FilterCategories(categories, selectedType)
    }

    method OnTypeClick(kind: TransactionType)
      modifies this
      ensures selectedType == kind
      ensures amount == old(amount) && description == old(description)
      ensures selectedCategoryId == old(selectedCategoryId) && selectedAccountId == old(selectedAccountId)
      ensures categories == old(categories) && accounts == old(accounts) && isLoading == old(isLoading)
    {
      selectedType := kind;
    }

    method OnCategoryClick(category: Category)
      modifies this
      ensures selectedCategoryId == Some(category.id)
      ensures amount == old(amount) && description == old(description) && selectedType == old(selectedType)
      ensures selectedAccountId == old(selectedAccountId)
      ensures categories == old(categories) && accounts == old(accounts) && isLoading == old(isLoading)
    {
      selectedCategoryId := Some(category.id);
    }

    method OnAccountClick(account: Account)
      modifies this
      ensures selectedAccountId == Some(account.id)
      ensures amount == old(amount) && description == old(description) && selectedType == old(selectedType)
      ensures selectedCategoryId == old(selectedCategoryId)
      ensures categories == old(categories) && accounts == old(accounts) && isLoading == old(isLoading)
    {
      selectedAccountId := Some(account.id);
    }

    method OnTextChange(newAmount: string, newDescription: string)
      modifies this
      ensures amount == newAmount && description == newDescription
      ensures selectedType == old(selectedType)
      ensures selectedCategoryId == old(selectedCategoryId) && selectedAccountId == old(selectedAccountId)
      ensures categories == old(categories) && accounts == old(accounts) && isLoading == old(isLoading)
    {
      amount := newAmount;
      description := newDescription;
    }

    /**
     * The Add button. It reports whether validation passed; even then the add that follows
     * never reaches the repository (the repository is not an activity, so no coroutine is
     * launched), and neither the screen nor the repository changes.
     */
    method OnAddClick(repository: CloudBudgetRepository, parse: string -> Option<real>,
                      uuid: Uuid, now: Millis) returns (validated: bool)
      ensures validated <==>
                ValidateInput(amount, description, selectedCategoryId, selectedAccountId, parse)
    {
      validated := ValidateInput(amount, description, selectedCategoryId, selectedAccountId, parse);
      if validated {
        var transaction := NewTransaction(uuid, now, parse(amount).GetOr(0.0), description,
                                          selectedCategoryId.value, selectedType, selectedAccountId.value);
      }
    }
  }
}
