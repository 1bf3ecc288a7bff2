/** The transaction form: the draft it edits field by field, the guard that
    decides whether the draft may be submitted, and the reset that follows
    a submission. */
module TransactionForm {
  import opened Types

  // ---------------------------------------------------------------------
  // Vocabularies
  // ---------------------------------------------------------------------

  const ExpenseCategories: seq<string> :=
    ["Housing", "Transportation", "Food & Dining", "Utilities", "Insurance", "Healthcare",
     "Entertainment", "Travel", "Education", "Debt", "Investments", "Other"]

  const IncomeCategories: seq<string> :=
    ["Salary", "Freelance", "Investments", "Rental", "Royalties", "Other"]

  const AccountTypes: seq<string> :=
    ["Corporate Card", "Personal Card", "Checking", "Savings", "Cash", "Other"]

  /** The categories the form offers for a transaction type. */
  function CategoryOptions(t: TransactionType): (r: seq<string>)
    ensures |r| > 0 && forall c :: c in r ==> c != ""
    ensures "Other" in r
  {
    match t
    case Expense => ExpenseCategories
    case Income => IncomeCategories
  }

  /** The draft's category is one the form offers for its type. */
  ghost predicate CategoryFitsType(d: Draft)
  {
    d.category in CategoryOptions(d.kind)
  }

  // ---------------------------------------------------------------------
  // String.prototype.trim
  // ---------------------------------------------------------------------

  /** The characters `trim` removes: ECMAScript white space (tab, vertical
      tab, form feed, space, no-break space, the byte order mark and the
      other space separators) and the line terminators. */
  predicate IsWhitespace(c: char)
  {
    c == '\t' || c == '\n' || c == '\U{000B}' || c == '\U{000C}' || c == '\r' || c == ' '
    || c == '\U{00A0}' || c == '\U{1680}' || ('\U{2000}' <= c <= '\U{200A}')
    || c == '\U{2028}' || c == '\U{2029}' || c == '\U{202F}' || c == '\U{205F}'
    || c == '\U{3000}' || c == '\U{FEFF}'
  }

  /** Drops leading white space: the result is a suffix of `s` that does not
      start with white space, and everything dropped was white space. */
  function TrimStart(s: string): (r: string)
    ensures |r| <= |s| && r == s[|s| - |r|..]
    ensures r == [] || !IsWhitespace(r[0])
    ensures forall k :: 0 <= k < |s| - |r| ==> IsWhitespace(s[k])
  {
    if s != [] && IsWhitespace(s[0]) then
      var r := TrimStart(s[1..]);
      assert forall k :: 1 <= k < |s| ==> s[k] == s[1..][k - 1];
      r
    else s
  }

  /** Drops trailing white space: the result is a prefix of `s` that does not
      end with white space, and everything dropped was white space. */
  function TrimEnd(s: string): (r: string)
    ensures |r| <= |s| && r == s[..|r|]
    ensures r == [] || !IsWhitespace(r[|r| - 1])
    ensures forall k :: |r| <= k < |s| ==> IsWhitespace(s[k])
  {
    if s != [] && IsWhitespace(s[|s| - 1]) then
      var r := TrimEnd(s[..|s| - 1]);
      assert forall k :: 0 <= k < |s| - 1 ==> s[k] == s[..|s| - 1][k];
      r
    else s
  }

  /** `String.prototype.trim`. A string with no white space at all comes
      back unchanged. */
  function Trim(s: string): (r: string)
    ensures |r| <= |s|
    ensures (forall k :: 0 <= k < |s| ==> !IsWhitespace(s[k])) ==> r == s
  {
    TrimEnd(TrimStart(s))
  }

  /** The trimmed string is the stretch `s[i..j]` of `s`, with only white
      space cut off on either side. */
  lemma TrimIsInnerStretch(s: string) returns (i: nat, j: nat)
    ensures i <= j <= |s| && Trim(s) == s[i..j]
    ensures forall k :: 0 <= k < i || j <= k < |s| ==> IsWhitespace(s[k])
  {
    var u := TrimStart(s);
    i := |s| - |u|;
    var r := TrimEnd(u);
    j := i + |r|;
    assert u == s[i..];
    assert r == u[..|r|];
    forall k | j <= k < |s| ensures IsWhitespace(s[k]) {
      assert s[k] == u[k - i];
    }
  }

  /** The trimmed string neither starts nor ends with white space. */
  lemma TrimmedEnds(s: string)
    ensures Trim(s) == [] || (!IsWhitespace(Trim(s)[0]) && !IsWhitespace(Trim(s)[|Trim(s)| - 1]))
  {
  }

  /** Trimming is empty exactly when the string is white space only. */
  lemma TrimEmptyIff(s: string)
    ensures |Trim(s)| > 0 <==> exists k :: 0 <= k < |s| && !IsWhitespace(s[k])
  {
  }

  /** Trimming twice is trimming once. */
  lemma TrimIdempotent(s: string)
    ensures Trim(Trim(s)) == Trim(s)
  {
  }

  // ---------------------------------------------------------------------
  // The draft and its rules
  // ---------------------------------------------------------------------

  /** `canSubmit`: a description with a visible character, a positive
      amount and a category. */
  function CanSubmit(d: Draft): (ok: bool)
    ensures ok <==> (exists k :: 0 <= k < |d.description| && !IsWhitespace(d.description[k]))
                    && d.amount > 0.0 && d.category != ""
  {
    TrimEmptyIff(d.description);
    |Trim(d.description)| > 0 && d.amount > 0.0 && d.category != ""
  }

  /** `defaultState`: an expense of 0 in "Other" on the corporate card,
      with an empty description, project and notes, dated when the module
      was loaded. */
  function DefaultState(loadedAt: int): (r: Draft)
    ensures !CanSubmit(r)
    ensures CategoryFitsType(r)
    ensures r.kind == Expense && r.account in AccountTypes && r.date == loadedAt
  {
    Draft(Expense, 0.0, "Other", "", loadedAt, "Corporate Card", Some(""), Some(""))
  }

  /** The draft `handleSubmit` leaves behind: the defaults, except that the
      type, category and account of the submitted draft are kept and the
      date is the time of submission. */
  function AfterSubmit(d: Draft, now: int): (r: Draft)
    ensures r.kind == d.kind && r.category == d.category && r.account == d.account
    ensures r.amount == 0.0 && r.description == "" && r.date == now
    ensures r.project == Some("") && r.notes == Some("")
    ensures !CanSubmit(r)
  {
    DefaultState(now).(kind := d.kind, category := d.category, account := d.account)
  }

  /** Whatever the draft, resetting keeps a category that fits its type. */
  lemma AfterSubmitKeepsFit(d: Draft, now: int)
    requires CategoryFitsType(d)
    ensures CategoryFitsType(AfterSubmit(d, now))
  {
  }

  /** Resetting an already reset draft changes at most its date. */
  lemma AfterSubmitSettles(d: Draft, n1: int, n2: int)
    ensures AfterSubmit(AfterSubmit(d, n1), n2) == AfterSubmit(d, n2)
  {
  }

  /** The type toggle: switches the type and picks the first category the
      form offers for it. */
  function WithType(d: Draft, t: TransactionType): (r: Draft)
    ensures r.kind == t && r.category == CategoryOptions(t)[0]
    ensures r.category == (if t == Expense then "Housing" else "Salary")
    ensures CategoryFitsType(r)
    ensures r.(kind := d.kind, category := d.category) == d
  {
    d.(kind := t, category := CategoryOptions(t)[0])
  }

  function WithAmount(d: Draft, amount: real): (r: Draft)
    ensures r.amount == amount && r.(amount := d.amount) == d
  {
    d.(amount := amount)
  }

  function WithCategory(d: Draft, category: string): (r: Draft)
    ensures r.category == category && r.(category := d.category) == d
  {
    d.(category := category)
  }

  function WithDate(d: Draft, date: int): (r: Draft)
    ensures r.date == date && r.(date := d.date) == d
  {
    d.(date := date)
  }

  function WithDescription(d: Draft, description: string): (r: Draft)
    ensures r.description == description && r.(description := d.description) == d
  {
    d.(description := description)
  }

  function WithAccount(d: Draft, account: string): (r: Draft)
    ensures r.account == account && r.(account := d.account) == d
  {
    d.(account := account)
  }

  function WithProject(d: Draft, project: string): (r: Draft)
    ensures r.project == Some(project) && r.(project := d.project) == d
  {
    d.(project := Some(project))
  }

  function WithNotes(d: Draft, notes: string): (r: Draft)
    ensures r.notes == Some(notes) && r.(notes := d.notes) == d
  {
    d.(notes := Some(notes))
  }

  /** Editing the date, account, project or notes never changes whether the
      draft may be submitted. */
  lemma MetadataEditsKeepGuard(d: Draft, date: int, account: string, project: string, notes: string)
    ensures CanSubmit(WithDate(d, date)) == CanSubmit(d)
    ensures CanSubmit(WithAccount(d, account)) == CanSubmit(d)
    ensures CanSubmit(WithProject(d, project)) == CanSubmit(d)
    ensures CanSubmit(WithNotes(d, notes)) == CanSubmit(d)
  {
  }

  /** A type toggle never disables a submittable draft: the category it picks
      is never empty. */
  lemma TypeToggleKeepsGuard(d: Draft, t: TransactionType)
    ensures CanSubmit(WithType(d, t)) == (CanSubmit(d) || (d.category == "" && |Trim(d.description)| > 0 && d.amount > 0.0))
  {
  }

  /** Toggling to the same type twice is toggling once. */
  lemma TypeToggleIdempotent(d: Draft, t: TransactionType)
    ensures WithType(WithType(d, t), t) == WithType(d, t)
  {
  }

  /** A draft whose description is blank cannot be submitted, whatever else
      it holds. */
  lemma BlankDescriptionIsHeld(d: Draft)
    requires forall k :: 0 <= k < |d.description| ==> IsWhitespace(d.description[k])
    ensures !CanSubmit(d)
  {
  }

  // ---------------------------------------------------------------------
  // The component's state
  // ---------------------------------------------------------------------

  /** The form's state: the draft being edited and whether a submission is
      still settling. */
  class Form {
    var draft: Draft
    var isSubmitting: bool

    /** A fresh form shows the defaults computed when the module loaded. */
    constructor(loadedAt: int)
      ensures draft == DefaultState(loadedAt) && !isSubmitting
    {
      draft := DefaultState(loadedAt);
      isSubmitting := false;
    }

    /** `handleSubmit`: does nothing unless the draft may be submitted;
        otherwise marks the form as submitting, emits the draft once and
        resets it. */
    method HandleSubmit(now: int) returns (emitted: Option<Draft>)
      modifies this
      ensures old(CanSubmit(draft)) ==>
                emitted == Some(old(draft)) && draft == AfterSubmit(old(draft), now) && isSubmitting
      ensures !old(CanSubmit(draft)) ==>
                emitted == None && draft == old(draft) && isSubmitting == old(isSubmitting)
      ensures !CanSubmit(draft) || emitted == None
    {
      if !CanSubmit(draft) {
        return None;
      }
      isSubmitting := true;
      emitted := Some(draft);
      draft := AfterSubmit(draft, now);
    }

    /** The timer that fires after a submission: clears the submitting flag. */
    method SubmitSettled()
      modifies this
      ensures !isSubmitting && draft == old(draft)
    {
      isSubmitting := false;
    }

    method SelectType(t: TransactionType)
      modifies this
      ensures draft == WithType(old(draft), t) && isSubmitting == old(isSubmitting)
      ensures CategoryFitsType(draft)
    {
      draft := WithType(draft, t);
    }

    method EditAmount(amount: real)
      modifies this
      ensures draft == WithAmount(old(draft), amount) && isSubmitting == old(isSubmitting)
    {
      draft := WithAmount(draft, amount);
    }

    /** Picks a category from the select, which lists the categories of the
        draft's type. */
    method EditCategory(category: string)
      modifies this
      ensures draft == WithCategory(old(draft), category) && isSubmitting == old(isSubmitting)
      ensures category in CategoryOptions(draft.kind) ==> CategoryFitsType(draft)
    {
      draft := WithCategory(draft, category);
    }

    method EditDate(date: int)
      modifies this
      ensures draft == WithDate(old(draft), date) && isSubmitting == old(isSubmitting)
    {
      draft := WithDate(draft, date);
    }

    method EditDescription(description: string)
      modifies this
      ensures draft == WithDescription(old(draft), description) && isSubmitting == old(isSubmitting)
    {
      draft := WithDescription(draft, description);
    }

    method EditAccount(account: string)
      modifies this
      ensures draft == WithAccount(old(draft), account) && isSubmitting == old(isSubmitting)
    {
      draft := WithAccount(draft, account);
    }

    method EditProject(project: string)
      modifies this
      ensures draft == WithProject(old(draft), project) && isSubmitting == old(isSubmitting)
    {
      draft := WithProject(draft, project);
    }

    method EditNotes(notes: string)
      modifies this
      ensures draft == WithNotes(old(draft), notes) && isSubmitting == old(isSubmitting)
    {
      draft := WithNotes(draft, notes);
    }
  }
}
