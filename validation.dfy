/** The form validators: e-mail shape, amount bounds, name and comment lengths,
    and the field-to-error-code map of a transaction form. */
module Validation {
  import opened Wrappers
  import opened Text
  import MoneyUtils

  /** Text that `[^\s@]` matches character by character. */
  predicate Plain(s: string) {
    forall i :: 0 <= i < |s| ==> !IsWhitespace(s[i]) && s[i] != '@'
  }

  /** The language of `/^[^\s@]+@[^\s@]+\.[^\s@]+$/`. */
  ghost predicate EmailShape(s: string) {
    exists user, host, tld ::
      s == user + "@" + host + "." + tld &&
      user != [] && host != [] && tld != [] && Plain(user) && Plain(host) && Plain(tld)
  }

  /** The first position of `c` in `s`. */
  function IndexOf(s: string, c: char): (r: Option<nat>)
    ensures r.None? ==> forall i :: 0 <= i < |s| ==> s[i] != c
    ensures r.Some? ==> r.value < |s| && s[r.value] == c && forall i :: 0 <= i < r.value ==> s[i] != c
  {
    if s == [] then None
    else if s[0] == c then Some(0)
    else match IndexOf(s[1..], c)
      case None => None
      case Some(k) => Some(k + 1)
  }

  /** `s` has a '.' with at least one character on each side. */
  predicate DotInside(s: string) {
    exists j :: 0 < j < |s| - 1 && s[j] == '.'
  }

  /** `validateEmail`: split at the first '@', then check each side. */
  function ValidateEmail(email: string): (ok: bool)
    ensures ok <==> EmailShape(email)
  {
    match IndexOf(email, '@')
    case None =>
      ShapeHasAt(email);
      false
    case Some(k) =>
      var user, domain := email[..k], email[k + 1..];
      var ok := user != [] && Plain(user) && Plain(domain) && DotInside(domain);
      EmailSplit(email, k);
      ok
  }

  /** Every accepted address has an '@'. */
  lemma ShapeHasAt(email: string)
    ensures EmailShape(email) ==> exists i :: 0 <= i < |email| && email[i] == '@'
  {
    if EmailShape(email) {
      var user, host, tld :| email == user + "@" + host + "." + tld && user != [] && host != [] && tld != [];
      assert email[|user|] == '@';
    }
  }

  /** Split at the first '@', the two sides decide the whole address. */
  lemma EmailSplit(email: string, k: nat)
    requires k < |email| && email[k] == '@' && forall i :: 0 <= i < k ==> email[i] != '@'
    ensures (email[..k] != [] && Plain(email[..k]) && Plain(email[k + 1..]) && DotInside(email[k + 1..]))
        <==> EmailShape(email)
  {
    var user, domain := email[..k], email[k + 1..];
    if user != [] && Plain(user) && Plain(domain) && DotInside(domain) {
      EmailSplitSound(email, k);
    }
    if EmailShape(email) {
      EmailSplitComplete(email, k);
    }
  }

  lemma EmailSplitSound(email: string, k: nat)
    requires k < |email| && email[k] == '@'
    requires email[..k] != [] && Plain(email[..k]) && Plain(email[k + 1..]) && DotInside(email[k + 1..])
    ensures EmailShape(email)
  {
    var user, domain := email[..k], email[k + 1..];
    var j :| 0 < j < |domain| - 1 && domain[j] == '.';
    var host, tld := domain[..j], domain[j + 1..];
    PlainSlice(domain, 0, j);
    PlainSlice(domain, j + 1, |domain|);
    SplitAt(domain, j);
    SplitAt(email, k);
    assert domain == host + "." + tld;
    assert email == user + "@" + domain;
    assert email == user + "@" + host + "." + tld;
    assert user != [] && host != [] && tld != [] && Plain(user) && Plain(host) && Plain(tld);
  }

  lemma EmailSplitComplete(email: string, k: nat)
    requires k < |email| && email[k] == '@' && forall i :: 0 <= i < k ==> email[i] != '@'
    requires EmailShape(email)
    ensures email[..k] != [] && Plain(email[..k]) && Plain(email[k + 1..]) && DotInside(email[k + 1..])
  {
    var u, host, tld :| email == u + "@" + host + "." + tld &&
      u != [] && host != [] && tld != [] && Plain(u) && Plain(host) && Plain(tld);
    assert email[|u|] == '@';
    assert forall i :: 0 <= i < |u| ==> email[i] == u[i];
    assert |u| == k;
    assert email[..k] == u;
    assert email[k + 1..] == host + "." + tld;
    assert (host + "." + tld)[|host|] == '.';
    PlainJoin(host, tld);
  }

  lemma SplitAt(s: string, k: nat)
    requires k < |s|
    ensures s == s[..k] + [s[k]] + s[k + 1..]
  {
  }

  lemma PlainSlice(s: string, i: nat, j: nat)
    requires i <= j <= |s| && Plain(s)
    ensures Plain(s[i..j])
  {
    assert forall k :: 0 <= k < j - i ==> s[i..j][k] == s[i + k];
  }

  lemma PlainJoin(host: string, tld: string)
    requires Plain(host) && Plain(tld)
    ensures Plain(host + "." + tld)
  {
    var d := host + "." + tld;
    forall k | 0 <= k < |d| ensures !IsWhitespace(d[k]) && d[k] != '@' {
      if k < |host| { assert d[k] == host[k]; }
      else if k > |host| { assert d[k] == tld[k - |host| - 1]; }
    }
  }

  /** The largest amount a form accepts. */
  const MaxAmount: real := 999999.99

  /** `validateAmount` applied to the parsed number (`None` is `NaN`). Stricter
      than `isValidAmount`, which has no upper bound. */
  predicate ValidateAmount(amount: Option<real>)
    ensures ValidateAmount(amount) ==> MoneyUtils.IsValidAmount(amount)
  {
    amount.Some? && amount.value > 0.0 && amount.value <= MaxAmount
  }

  /** A positive amount above the bound passes `isValidAmount` but not `validateAmount`. */
  lemma AmountBoundsDiffer()
    ensures MoneyUtils.IsValidAmount(Some(1000000.0)) && !ValidateAmount(Some(1000000.0))
  {
  }

  /** `validateCategory`: a present name whose trimmed length is 1 to 50. */
  function ValidateCategory(category: Option<string>): (ok: bool)
    ensures ok ==> category.Some? && !Blank(category.value)
    ensures category.Some? && !Blank(category.value) && Utf16Length(category.value) <= 50 ==> ok
  {
    if category.None? then false
    else
      var n := Utf16Length(Trim(category.value));
      TrimShortens(category.value);
      0 < n <= 50
  }

  /** `validateComment`: an absent or empty comment passes; any other comment
      passes when its trimmed length is 1 to 200, so a comment of white space
      only fails. */
  function ValidateComment(comment: Option<string>): (ok: bool)
    ensures comment.None? || comment.value == [] ==> ok
    ensures comment.Some? && comment.value != [] && Blank(comment.value) ==> !ok
    ensures comment.Some? && !Blank(comment.value) && Utf16Length(comment.value) <= 200 ==> ok
  {
    if comment.None? || comment.value == [] then true
    else
      var n := Utf16Length(Trim(comment.value));
      TrimShortens(comment.value);
      0 < n <= 200
  }

  /** The fields `validateTransaction` reads; the form hands over the amount
      already parsed and the date as the ISO text it holds. */
  datatype TransactionForm = TransactionForm(
    amount: Option<real>, categoryId: Option<string>, date: Option<string>, comment: Option<string>)

  /** JavaScript truthiness of an optional string. */
  predicate Truthy(s: Option<string>) {
    s.Some? && s.value != []
  }

  /** The keys of the `errors` object. */
  datatype Field = AmountField | CategoryField | DateField | CommentField

  /** The code each key is set to. */
  function ErrorCode(f: Field): string {
    match f
    case AmountField => "INVALID_AMOUNT"
    case CategoryField => "SELECT_CATEGORY"
    case DateField => "SELECT_DATE"
    case CommentField => "COMMENT_TOO_LONG"
  }

  /** The body of `validateTransaction` once the four checks have been made:
      each failed check sets its own key to its code, and the form is valid when
      no key is set. */
  method CollectErrors(amountOk: bool, categoryOk: bool, dateOk: bool, commentOk: bool)
    returns (isValid: bool, errors: map<Field, string>)
    ensures AmountField in errors <==> !amountOk
    ensures CategoryField in errors <==> !categoryOk
    ensures DateField in errors <==> !dateOk
    ensures CommentField in errors <==> !commentOk
    ensures forall f :: f in errors ==> errors[f] == ErrorCode(f)
    ensures isValid <==> errors == map[]
    ensures isValid <==> amountOk && categoryOk && dateOk && commentOk
  {
    errors := map[];
    if !amountOk {
      errors := errors[AmountField := ErrorCode(AmountField)];
    }
    if !categoryOk {
      errors := errors[CategoryField := ErrorCode(CategoryField)];
    }
    if !dateOk {
      errors := errors[DateField := ErrorCode(DateField)];
    }
    if !commentOk {
      errors := errors[CommentField := ErrorCode(CommentField)];
    }
    isValid := |errors| == 0;
  }

  /** `validateTransaction`: four independent checks, each setting its own key. */
  method ValidateTransaction(form: TransactionForm) returns (isValid: bool, errors: map<Field, string>)
    ensures AmountField in errors <==> !ValidateAmount(form.amount)
    ensures CategoryField in errors <==> !Truthy(form.categoryId)
    ensures DateField in errors <==> !Truthy(form.date)
    ensures CommentField in errors <==> !ValidateComment(form.comment)
    ensures forall f :: f in errors ==> errors[f] == ErrorCode(f)
    ensures isValid <==> errors == map[]
    ensures isValid <==> ValidateAmount(form.amount) && Truthy(form.categoryId) && Truthy(form.date)
                         && ValidateComment(form.comment)
  {
    isValid, errors := CollectErrors(
      ValidateAmount(form.amount), Truthy(form.categoryId), Truthy(form.date), ValidateComment(form.comment));
  }
}
