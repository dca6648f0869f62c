/**
 * The add-expense form (`AddExpenseView`): the amount text is sanitised as
 * it is typed and parsed into the amount, Save is offered only for a titled
 * form with an amount, and saving builds the record and then restarts the
 * inactivity timer and runs the smart reminders. The outcome of the store's
 * save, the new record's identifier, the current instant and the results
 * of the reminder pass's queries are inputs.
 */
module AddExpense {
  import opened Wrappers
  import opened Calendar
  import opened Expenses
  import opened Sanitizer
  import Text
  import Notifications

  /** The categories the form offers, in order. */
  const FormCategories: seq<string> := ["Food", "Transport", "Shopping", "Bills", "Entertainment", "Health", "Other"]

  /** "0" is accepted as an amount: it survives sanitising and parses as zero. */
  lemma ZeroIsAnAmount()
    ensures Sanitize("0") == "0"
    ensures ParseAmount("0") == Some(0.0)
  {
    assert Text.NatToString(0) == "0";
    ParseWholeNumber(0);
    assert KeepAllowed("0") == "0";
    assert Split("0") == ["0"];
  }

  class AddExpenseForm {
    var title: string
    var amount: Option<real>
    var date: DateTime
    var category: string
    var amountText: string

    /** A fresh form: empty title and amount, "Food", dated `preselectedDate`. */
    constructor (preselectedDate: DateTime)
      ensures title == "" && amount == None && date == preselectedDate
      ensures category == "Food" && amountText == ""
    {
      title, amount, date, category, amountText := "", None, preselectedDate, "Food", "";
    }

    /** The amount is never negative: it only ever comes from parsing sanitised text. */
    predicate AmountNonNegative()
      reads this
    {
      amount.Some? ==> amount.value >= 0.0
    }

    /**
     * The `onChange(of: amountText)` handler: a text that parses sets the
     * amount, an empty text clears it, any other text leaves it as it was.
     */
    method AmountTextChanged(newValue: string)
      modifies this`amount
      ensures ParseAmount(newValue).Some? ==> amount == ParseAmount(newValue)
      ensures newValue == [] ==> amount == None
      ensures ParseAmount(newValue).None? && newValue != [] ==> amount == old(amount)
      ensures old(AmountNonNegative()) ==> AmountNonNegative()
    {
      var value := ParseAmount(newValue);
      if value.Some? {
        amount := value;
      } else if newValue == [] {
        amount := None;
      }
    }

    /**
     * Typing into the amount field: the text is written back sanitised and
     * the handler sees the sanitised text. The amount is cleared exactly when
     * the text keeps no digit and no dot, kept when it keeps only a dot, and
     * otherwise is the value of the kept digits.
     */
    method EditAmountText(newValue: string)
      modifies this`amountText, this`amount
      ensures amountText == Sanitize(newValue)
      ensures ParseAmount(amountText).Some? ==> amount == ParseAmount(amountText)
      ensures KeepAllowed(newValue) == [] ==> amount == None
      ensures KeepAllowed(newValue) != [] && RemoveDots(KeepAllowed(newValue)) == [] ==> amount == old(amount)
      ensures old(AmountNonNegative()) ==> AmountNonNegative()
    {
      amountText := Sanitize(newValue);
      SanitizedParses(newValue);
      SanitizeEmpty(newValue);
      AmountTextChanged(amountText);
    }

    /** Save is enabled exactly for a non-empty title and a parsed amount. */
    function CanSave(): (enabled: bool)
      reads this
      ensures enabled <==> title != [] && amount.Some?
    {
      !(title == [] || amount == None)
    }

    method SetTitle(newTitle: string)
      modifies this`title
      ensures title == newTitle
    {
      title := newTitle;
    }

    /** A category button: the form takes that category. */
    method ChooseCategory(cat: string)
      requires cat in FormCategories
      modifies this`category
      ensures category == cat
    {
      category := cat;
    }

    /**
     * `addExpense`: the record carries the form's fields, a missing amount
     * as 0. When the store saves it, the stored last-open time becomes now
     * and a smart-reminder pass runs; when the save fails, neither happens.
     */
    method AddExpense(id: nat, saveSucceeds: bool, now: real,
                      manager: Notifications.NotificationManager, pass: Notifications.PassInput)
      returns (record: Expense, saved: bool)
      modifies manager
      ensures record == Expense(id, Some(title), amount.GetOr(0.0), Some(date), Some(category))
      ensures saved == saveSucceeds
      ensures saved ==> manager.lastAppOpenTime == Some(now)
      ensures saved ==> manager.State() == Notifications.SmartPass(old(manager.State()), pass)
      ensures CanSave() ==> record.amount == amount.value
      ensures !saved ==>
        manager.lastAppOpenTime == old(manager.lastAppOpenTime) && manager.State() == old(manager.State())
    {
      record := Expense(id, Some(title), amount.GetOr(0.0), Some(date), Some(category));
      saved := saveSucceeds;
      if saved {
        manager.lastAppOpenTime := Some(now);
        manager.ScheduleSmartReminders(pass);
      }
    }
  }

  /** Sanitising keeps a text empty exactly when it has no digit and no dot. */
  lemma SanitizeEmpty(s: string)
    ensures Sanitize(s) == [] <==> KeepAllowed(s) == []
  {
    SanitizeShape(s);
    var f := KeepAllowed(s);
    if CountDots(f) > 1 {
      assert |Sanitize(s)| > |BeforeFirstDot(f)|;
    }
  }
}
