/**
 * The checkout page: validateAndSave's form rules, the sanitising of the
 * accepted fields, the five-tick payment countdown that stages the order
 * details, and confirmOrder driving the store. The session object holds
 * what the script keeps in the page: the checkout phase, the staged details
 * (the script's window.tempOrder) and the error flags of the fields.
 */
module Checkout {
  import opened Options
  import opened Strings
  import opened Orders
  import opened Storage

  /** The raw values of the form's inputs, before trimming. */
  datatype CheckoutForm = CheckoutForm(name: string, phone: string, countryCode: string, pincode: string, address: string)

  /** Which fields show an error message (and are marked aria-invalid). */
  datatype FieldErrors = FieldErrors(name: bool, phone: bool, pincode: bool, address: bool)

  const NoErrors: FieldErrors := FieldErrors(false, false, false, false)

  // ---------------------------------------------------------------------
  // The field rules, each applied to the trimmed value
  // ---------------------------------------------------------------------

  /** `!name` fails exactly for the empty string. */
  predicate NameOk(name: string) {
    name != ""
  }

  /** `!phone || !/^\d+$/.test(phone)` is the failure condition. */
  predicate PhoneOk(phone: string) {
    phone != "" && AllDigits(phone)
  }

  /** /^\d{5,10}$/ */
  predicate PincodeOk(pincode: string) {
    5 <= |pincode| <= 10 && AllDigits(pincode)
  }

  predicate AddressOk(address: string) {
    address != ""
  }

  predicate FormValid(f: CheckoutForm) {
    NameOk(Trim(f.name)) && PhoneOk(Trim(f.phone)) && PincodeOk(Trim(f.pincode)) && AddressOk(Trim(f.address))
  }

  /** The details staged after a valid submit: every trimmed field passed
      through the sanitiser, the country code put in front of the phone. */
  function Staged(f: CheckoutForm): (r: Contact) {
    Contact(
      StripScriptTags(Trim(f.name)),
      f.countryCode + StripScriptTags(Trim(f.phone)),
      StripScriptTags(Trim(f.pincode)),
      StripScriptTags(Trim(f.address)))
  }

  /** The error flags a submit of f raises, one per failed rule. */
  function FormErrors(f: CheckoutForm): (r: FieldErrors) {
    FieldErrors(!NameOk(Trim(f.name)), !PhoneOk(Trim(f.phone)), !PincodeOk(Trim(f.pincode)), !AddressOk(Trim(f.address)))
  }

  /** A name or an address is refused exactly when it is all whitespace, and
      a form raises no error exactly when every rule passes. */
  lemma FormErrorsMeaning(f: CheckoutForm)
    ensures FormErrors(f).name <==> IsBlank(f.name)
    ensures FormErrors(f).address <==> IsBlank(f.address)
    ensures FormErrors(f) == NoErrors <==> FormValid(f)
  {
    TrimFacts(f.name);
    TrimFacts(f.address);
  }

  /** validateAndSave's checks and sanitising. All four rules run, each
      failing field gets its own error, and the sanitised details are staged
      exactly when none failed. A name or address is refused exactly when it
      is all whitespace. */
  method ValidateForm(f: CheckoutForm) returns (errors: FieldErrors, staged: Option<Contact>)
    ensures errors == FormErrors(f)
    ensures errors.name <==> IsBlank(f.name)
    ensures errors.address <==> IsBlank(f.address)
    ensures staged == if errors == NoErrors then Some(Staged(f)) else None
    ensures staged.Some? <==> FormValid(f)
  {
    FormErrorsMeaning(f);
    var name := Trim(f.name);
    var phone := Trim(f.phone);
    var pincode := Trim(f.pincode);
    var address := Trim(f.address);
    errors := NoErrors;
    var valid := true;
    if !NameOk(name) {
      errors := errors.(name := true);
      valid := false;
    }
    if !PhoneOk(phone) {
      errors := errors.(phone := true);
      valid := false;
    }
    if !PincodeOk(pincode) {
      errors := errors.(pincode := true);
      valid := false;
    }
    if !AddressOk(address) {
      errors := errors.(address := true);
      valid := false;
    }
    if !valid {
      return errors, None;
    }
    staged := Some(Contact(
      StripScriptTags(name),
      f.countryCode + StripScriptTags(phone),
      StripScriptTags(pincode),
      StripScriptTags(address)));
  }

  /** A letter in the phone fails the phone rule; ten digits with a six-digit
      pincode pass both. */
  lemma PhoneRuleExamples()
    ensures !PhoneOk("abc123")
    ensures PhoneOk("9876543210") && PincodeOk("560001")
  {
    assert !IsDigit("abc123"[0]);
  }

  /** On a valid form the sanitiser leaves the phone and the pincode as they
      were typed, after trimming (they are digits), and changes the name or the address only
      by deleting "<script>" tags from them. */
  lemma StagedFromValidForm(f: CheckoutForm)
    requires FormValid(f)
    ensures Staged(f).phone == f.countryCode + Trim(f.phone)
    ensures Staged(f).pincode == Trim(f.pincode)
    ensures Staged(f).name == Trim(f.name) <==> !ContainsScriptTag(Trim(f.name))
    ensures Staged(f).address == Trim(f.address) <==> !ContainsScriptTag(Trim(f.address))
  {
    DigitsUnchanged(Trim(f.phone));
    DigitsUnchanged(Trim(f.pincode));
    StripUnchangedIffNoTag(Trim(f.name));
    StripUnchangedIffNoTag(Trim(f.address));
  }

  /** The rules run before the sanitiser, so a name that is nothing but a
      "<script>" tag (in any letter case) passes the name rule and is staged
      empty. */
  lemma TagOnlyNameStagedEmpty(f: CheckoutForm)
    requires |f.name| == TagLength && StartsWithScriptTag(f.name)
    ensures NameOk(Trim(f.name))
    ensures Staged(f).name == ""
  {
    assert LowerAscii(f.name[0]) == '<' && LowerAscii(f.name[7]) == '>';
    assert f.name[0] == '<' && f.name[7] == '>';
    assert !IsSpace(f.name[0]) && !IsSpace(f.name[7]);
    assert TrimStart(f.name) == f.name;
    assert TrimEnd(f.name) == f.name;
    assert f.name[TagLength..] == [];
  }

  // ---------------------------------------------------------------------
  // The checkout phases and the countdown
  // ---------------------------------------------------------------------

  /** Editing the form; the overlay counting down with the sanitised details
      held by the timer callback; the UPI section shown; the confirmation
      shown with its order number. */
  datatype Phase =
    | Editing
    | CountingDown(count: int, pending: Contact)
    | AwaitingUpiRef
    | Confirmed(orderId: string)

  const CountdownStart: int := 5

  /** The phase together with the staged details. */
  datatype Flow = Flow(phase: Phase, tempOrder: Option<Contact>)

  /** One run of the interval callback: the count goes down by one; at zero
      or below the UPI section is shown and the pending details are staged.
      Outside the countdown no timer is running and nothing happens. */
  function AfterTick(flow: Flow): (r: Flow) {
    match flow.phase
    case CountingDown(count, pending) =>
      if count - 1 <= 0 then Flow(AwaitingUpiRef, Some(pending))
      else Flow(CountingDown(count - 1, pending), flow.tempOrder)
    case _ => flow
  }

  function AfterTicks(flow: Flow, n: nat): (r: Flow)
    decreases n
  {
    if n == 0 then flow else AfterTicks(AfterTick(flow), n - 1)
  }

  /** Before k ticks have run a countdown started at k is still showing k - n. */
  lemma {:induction false} CountdownStillRunning(k: int, n: nat, pending: Contact, temp: Option<Contact>)
    requires n < k
    ensures AfterTicks(Flow(CountingDown(k, pending), temp), n) == Flow(CountingDown(k - n, pending), temp)
  {
    if n > 0 {
      assert AfterTick(Flow(CountingDown(k, pending), temp)) == Flow(CountingDown(k - 1, pending), temp);
      CountdownStillRunning(k - 1, n - 1, pending, temp);
    }
  }

  /** After exactly k ticks a countdown started at k reaches the UPI step
      with its details staged, whatever was staged before. */
  lemma {:induction false} CountdownRunsOut(k: nat, pending: Contact, temp: Option<Contact>)
    requires k >= 1
    ensures AfterTicks(Flow(CountingDown(k, pending), temp), k) == Flow(AwaitingUpiRef, Some(pending))
  {
    if k > 1 {
      assert AfterTick(Flow(CountingDown(k, pending), temp)) == Flow(CountingDown(k - 1, pending), temp);
      CountdownRunsOut(k - 1, pending, temp);
    }
  }

  /** Once the UPI step is reached, further ticks change nothing. */
  lemma {:induction false} TicksAfterCountdownIdle(flow: Flow, n: nat)
    requires !flow.phase.CountingDown?
    ensures AfterTicks(flow, n) == flow
  {
    if n > 0 {
      TicksAfterCountdownIdle(AfterTick(flow), n - 1);
    }
  }

  // ---------------------------------------------------------------------
  // The page session
  // ---------------------------------------------------------------------

  class Session {
    var phase: Phase
    var tempOrder: Option<Contact>
    var fieldErrors: FieldErrors
    var upiRefError: bool

    function State(): (r: Flow)
      reads this
    {
      Flow(phase, tempOrder)
    }

    /** A freshly loaded checkout page. */
    constructor ()
      ensures phase == Editing && tempOrder == None
      ensures fieldErrors == NoErrors && !upiRefError
    {
      phase := Editing;
      tempOrder := None;
      fieldErrors := NoErrors;
      upiRefError := false;
    }

    /** validateAndSave: clear every error, run the four rules, and on a
        valid form start the countdown at five holding the sanitised
        details. An invalid form stages nothing and starts nothing. */
    method ValidateAndSave(f: CheckoutForm)
      modifies this
      ensures fieldErrors == FormErrors(f)
      ensures !upiRefError
      ensures fieldErrors.name <==> IsBlank(f.name)
      ensures fieldErrors.address <==> IsBlank(f.address)
      ensures phase == if FormValid(f) then CountingDown(CountdownStart, Staged(f)) else old(phase)
      ensures tempOrder == old(tempOrder)
    {
      var errors, staged := ValidateForm(f);
      fieldErrors := errors;
      upiRefError := false;
      if staged.Some? {
        phase := CountingDown(CountdownStart, staged.value);
      }
    }

    /** One interval callback of the countdown. */
    method Tick()
      modifies this
      ensures State() == AfterTick(old(State()))
      ensures fieldErrors == old(fieldErrors) && upiRefError == old(upiRefError)
    {
      if phase.CountingDown? {
        var count := phase.count - 1;
        if count <= 0 {
          tempOrder := Some(phase.pending);
          phase := AwaitingUpiRef;
        } else {
          phase := CountingDown(count, phase.pending);
        }
      }
    }

    /** confirmOrder: the field error is shown exactly when the reference is
        refused. An order is written exactly when the reference passes, the
        cart parses and the orders read as a list; it carries the staged
        details (whichever they are), the prior cart (or null), the amount, a
        fresh order number, the confirmed status and the trimmed reference,
        and the page moves to the confirmation. A null cart then makes the
        item count throw, so the error notice follows the confirmation. */
    method ConfirmOrder(store: Store, upiInput: string, amount: nat,
                        year: nat, month: nat, day: nat, draw: real)
      returns (outcome: ConfirmOutcome)
      requires 0.0 <= draw < 1.0
      modifies this, store
      ensures upiRefError <==> !IsUpiRef(Trim(upiInput))
      ensures outcome.Placed? <==>
        IsUpiRef(Trim(upiInput)) && old(store.CartItems()).Some? && old(store.PlacedOrders()).Some?
      ensures outcome.PlacedThenFailed? <==>
        IsUpiRef(Trim(upiInput)) && old(store.cart) == Null && old(store.PlacedOrders()).Some?
      ensures outcome.Written() ==>
        old(store.PlacedOrders()).Some?
        && outcome.order == Order(old(tempOrder),
                                  if old(store.cart) == Null then None else old(store.CartItems()),
                                  amount, GenerateOrderId(year, month, day, draw),
                                  ConfirmedStatus, Trim(upiInput))
        && phase == Confirmed(outcome.order.orderId)
        && store.orders == Saved(old(store.PlacedOrders()).value + [outcome.order])
        && store.CartItems() == Some([])
      ensures !outcome.Written() ==>
        phase == old(phase) && store.cart == old(store.cart) && store.orders == old(store.orders)
      ensures tempOrder == old(tempOrder) && fieldErrors == old(fieldErrors)
    {
      upiRefError := false;
      outcome := store.ConfirmOrder(upiInput, tempOrder, amount, year, month, day, draw);
      if outcome == BadReference {
        upiRefError := true;
      } else if outcome.Written() {
        phase := Confirmed(outcome.order.orderId);
      }
    }
  }
}
