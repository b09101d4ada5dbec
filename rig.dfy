/** The customer form of the Rig web part (Rig.tsx): a list of customers
    loaded from a SharePoint list, a dropdown derived from it, a draft record
    that mirrors the selected customer or a new one, and the submit logic that
    decides between updating the selected customer and adding a new one.

    The list calls (`items()`, `items.add`, `items.getById(id).update`) are not
    modelled: `LoadCustomers` takes what the list returned, and `HandleSubmit`
    returns the call it issues and takes whether that call succeeded. */
module Rig {
  import opened Optional
  import opened RigProps
  import opened JsBuiltins

  // ---------------------------------------------------------------------------
  // Values
  // ---------------------------------------------------------------------------

  /** The draft the form starts with and returns to after a reset. */
  const EmptyCustomer := Customer(None, "", "", 0, 0, 0, UrlValue(""))

  /** An entry of the "Select Customer to Edit" dropdown. */
  datatype DropdownOption = DropdownOption(key: int, text: string)

  /** The severity of the message bar. */
  datatype MessageType = Warning | Error | Success

  /** The messages the form shows; their texts are not modelled. */
  datatype Notice =
    | RequiredFieldsMissing
    | DuplicateCustomer
    | CustomerUpdated
    | CustomerAdded
    | SubmitFailed
    | LoadFailed
  {
    function Kind(): MessageType {
      match this
      case RequiredFieldsMissing | DuplicateCustomer => Warning
      case CustomerUpdated | CustomerAdded => Success
      case SubmitFailed | LoadFailed => Error
    }
  }

  /** The fields the list's `add` and `update` receive: the draft without its
      Id, and the hyperlink column as `null` (`None`) when the URL is empty. */
  datatype Payload = Payload(
    customerName: string,
    address: string,
    numberOfRigs: int,
    numberOfJackUps: int,
    numberOfModus: int,
    siteUrls: Option<UrlValue>)

  /** The list call a submit issues. */
  datatype RemoteCall = NoCall | Update(id: int, payload: Payload) | Add(payload: Payload)

  /** What a submit decides before any list call: stop at the required-fields
      guard, stop at the duplicate-name guard, or go on with a call (possibly
      none at all). */
  datatype Decision = MissingRequired | DuplicateName | Proceed(call: RemoteCall)

  /** A change of one draft field, as the inputs of the form produce it. */
  datatype Edit =
    | SetCustomerName(name: string)
    | SetAddress(address: string)
    | SetNumberOfRigs(rigs: int)
    | SetNumberOfJackUps(jackUps: int)
    | SetNumberOfModus(modus: int)
    | SetSiteUrl(url: string)

  /** The text inputs of the form. */
  datatype Input = NameInput | AddressInput | RigsInput | JackUpsInput | ModusInput | UrlInput

  /** What an input shows of the draft: a text, or a count it displays with
      `toString()`. */
  datatype FieldValue = Text(s: string) | Count(n: int)

  /** The draft field each input's `value` is bound to. */
  function FieldOf(c: Customer, input: Input): FieldValue {
    match input
    case NameInput => Text(c.customerName)
    case AddressInput => Text(c.address)
    case RigsInput => Count(c.numberOfRigs)
    case JackUpsInput => Count(c.numberOfJackUps)
    case ModusInput => Count(c.numberOfModus)
    case UrlInput => Text(c.siteUrls.url)
  }

  /** The input showing the field an edit writes. */
  function EditedInput(e: Edit): Input {
    match e
    case SetCustomerName(_) => NameInput
    case SetAddress(_) => AddressInput
    case SetNumberOfRigs(_) => RigsInput
    case SetNumberOfJackUps(_) => JackUpsInput
    case SetNumberOfModus(_) => ModusInput
    case SetSiteUrl(_) => UrlInput
  }

  /** The value an edit writes, as that input shows it. */
  function EditedValue(e: Edit): FieldValue {
    match e
    case SetCustomerName(v) => Text(v)
    case SetAddress(v) => Text(v)
    case SetNumberOfRigs(v) => Count(v)
    case SetNumberOfJackUps(v) => Count(v)
    case SetNumberOfModus(v) => Count(v)
    case SetSiteUrl(v) => Text(v)
  }

  /** The inputs of `type="number"`. */
  predicate IsCountInput(input: Input) {
    input == RigsInput || input == JackUpsInput || input == ModusInput
  }

  /** A customer's `Id` read as a JavaScript value; an absent Id is `undefined`. */
  function IdValue(id: Option<int>): JsValue {
    if id.Some? then Num(id.value) else Undefined
  }

  /** `selectedCustomer?.Id`: `undefined` when nothing is selected. */
  function SelectedIdValue(selected: Option<Customer>): JsValue {
    if selected.Some? then IdValue(selected.value.id) else Undefined
  }

  // ---------------------------------------------------------------------------
  // Dropdown derivation (loadCustomers)
  // ---------------------------------------------------------------------------

  /** `item.Id || 0`: the Id when it is truthy, else 0. */
  function OptionKey(c: Customer): (k: int)
    ensures Truthy(IdValue(c.id)) ==> k == c.id.value
    ensures !Truthy(IdValue(c.id)) ==> k == 0
  {
    c.id.GetOr(0)
  }

  /** `items.map(item => ({ key: item.Id || 0, text: item.CustomerName }))`:
      one option per customer, in the same order. */
  function DropdownOptions(items: seq<Customer>): (r: seq<DropdownOption>)
    ensures |r| == |items|
    ensures forall i :: 0 <= i < |items| ==> r[i].key == OptionKey(items[i]) && r[i].text == items[i].customerName
  {
    if items == [] then []
    else [DropdownOption(OptionKey(items[0]), items[0].customerName)] + DropdownOptions(items[1..])
  }

  // ---------------------------------------------------------------------------
  // Queries
  // ---------------------------------------------------------------------------

  /** The index of the first customer whose Id is `key` (`c.Id === option.key`;
      a customer without an Id matches no key). */
  function FirstWithId(cs: seq<Customer>, key: int): (r: Option<nat>)
    ensures r.Some? ==> r.value < |cs| && cs[r.value].id == Some(key)
    ensures r.Some? ==> forall j :: 0 <= j < r.value ==> cs[j].id != Some(key)
    ensures r.None? ==> forall j :: 0 <= j < |cs| ==> cs[j].id != Some(key)
  {
    if cs == [] then None
    else if cs[0].id == Some(key) then Some(0)
    else match FirstWithId(cs[1..], key)
      case None => None
      case Some(k) => Some(k + 1)
  }

  /** Whether some loaded customer has `name`, compared after lower-casing. */
  predicate IsDuplicate(cs: seq<Customer>, name: string) {
    exists i :: 0 <= i < |cs| && ToLower(cs[i].customerName) == ToLower(name)
  }

  /** The required-fields guard `!CustomerName || !Address`, negated: it
      passes exactly when both strings are truthy. */
  function HasRequiredFields(draft: Customer): (ok: bool)
    ensures !ok <==> !Truthy(Str(draft.customerName)) || !Truthy(Str(draft.address))
  {
    draft.customerName != "" && draft.address != ""
  }

  /** `selectedCustomer?.Id` where it is truthy, the Id `getById` receives. */
  function TruthyId(selected: Option<Customer>): (r: Option<int>)
    ensures r.Some? <==> Truthy(SelectedIdValue(selected))
    ensures r.Some? ==> SelectedIdValue(selected) == Num(r.value)
  {
    if selected.Some? && selected.value.id.Some? && selected.value.id.value != 0
    then selected.value.id else None
  }

  /** The body of the `add` and `update` calls. It keeps everything of the
      draft but its Id; only the empty URL is sent as `null`. */
  function MakePayload(draft: Customer): (p: Payload)
    ensures p.siteUrls.None? <==> draft.siteUrls.url == ""
    ensures DraftOf(p, draft.id) == draft
  {
    Payload(draft.customerName, draft.address, draft.numberOfRigs, draft.numberOfJackUps,
            draft.numberOfModus, if draft.siteUrls.url != "" then Some(draft.siteUrls) else None)
  }

  /** The draft a payload describes, given an Id; `null` reads as the empty URL. */
  function DraftOf(p: Payload, id: Option<int>): Customer {
    Customer(id, p.customerName, p.address, p.numberOfRigs, p.numberOfJackUps,
             p.numberOfModus, p.siteUrls.GetOr(UrlValue("")))
  }

  /** `{ ...prev, [field]: value }` for a typed edit: the edited field takes
      the new value, the Id and every other field keep theirs. */
  function WithEdit(draft: Customer, e: Edit): (r: Customer)
    ensures r.id == draft.id
    ensures r.customerName == (if e.SetCustomerName? then e.name else draft.customerName)
    ensures r.address == (if e.SetAddress? then e.address else draft.address)
    ensures r.numberOfRigs == (if e.SetNumberOfRigs? then e.rigs else draft.numberOfRigs)
    ensures r.numberOfJackUps == (if e.SetNumberOfJackUps? then e.jackUps else draft.numberOfJackUps)
    ensures r.numberOfModus == (if e.SetNumberOfModus? then e.modus else draft.numberOfModus)
    ensures r.siteUrls == (if e.SetSiteUrl? then UrlValue(e.url) else draft.siteUrls)
  {
    match e
    case SetCustomerName(v) => draft.(customerName := v)
    case SetAddress(v) => draft.(address := v)
    case SetNumberOfRigs(v) => draft.(numberOfRigs := v)
    case SetNumberOfJackUps(v) => draft.(numberOfJackUps := v)
    case SetNumberOfModus(v) => draft.(numberOfModus := v)
    case SetSiteUrl(v) => draft.(siteUrls := UrlValue(v))
  }

  /** The `onChange` callbacks of the text inputs: the new text (`None` for
      `undefined`) becomes `newValue || ''` for the name, the address and the
      URL, and `parseInt(newValue || '0') || 0` for the three counts. The
      edit writes the field the input shows: the text for a text input, its
      coercion for a number input. */
  function EditFor(input: Input, newValue: Option<string>): (e: Edit)
    ensures EditedInput(e) == input
    ensures EditedValue(e) == if IsCountInput(input) then Count(CoerceCount(newValue)) else Text(newValue.GetOr(""))
  {
    match input
    case NameInput => SetCustomerName(newValue.GetOr(""))
    case AddressInput => SetAddress(newValue.GetOr(""))
    case RigsInput => SetNumberOfRigs(CoerceCount(newValue))
    case JackUpsInput => SetNumberOfJackUps(CoerceCount(newValue))
    case ModusInput => SetNumberOfModus(CoerceCount(newValue))
    case UrlInput => SetSiteUrl(newValue.GetOr(""))
  }

  /** The decision `handleSubmit` takes on a draft: the required-fields guard
      first; then an update of the selected customer whenever its Id is truthy,
      whatever the mode; otherwise, in add mode, an add unless the name is
      already loaded (in any case); otherwise no call at all. */
  function Decide(draft: Customer, selected: Option<Customer>, addMode: bool, loaded: seq<Customer>): (d: Decision)
    ensures d.MissingRequired? <==> !HasRequiredFields(draft)
    ensures d.Proceed? && d.call.Update? <==> HasRequiredFields(draft) && TruthyId(selected).Some?
    ensures d.Proceed? && d.call.Update? ==> d.call == Update(TruthyId(selected).value, MakePayload(draft))
    ensures d.DuplicateName? <==>
      HasRequiredFields(draft) && TruthyId(selected).None? && addMode && IsDuplicate(loaded, draft.customerName)
    ensures d.Proceed? && d.call.Add? <==>
      HasRequiredFields(draft) && TruthyId(selected).None? && addMode && !IsDuplicate(loaded, draft.customerName)
    ensures d.Proceed? && d.call.Add? ==> d.call == Add(MakePayload(draft))
  {
    if !HasRequiredFields(draft) then MissingRequired
    else if TruthyId(selected).Some? then Proceed(Update(TruthyId(selected).value, MakePayload(draft)))
    else if addMode then
      if IsDuplicate(loaded, draft.customerName) then DuplicateName else Proceed(Add(MakePayload(draft)))
    else Proceed(NoCall)
  }

  /** The `disabled` expression of the submit button, negated. */
  function SubmitEnabled(loading: bool, addMode: bool, draft: Customer, selected: Option<Customer>,
                         loaded: seq<Customer>): (enabled: bool)
    ensures enabled ==> !loading
    ensures enabled && addMode ==> draft.customerName != "" && Decide(draft, selected, addMode, loaded) != DuplicateName
    ensures enabled && !addMode ==> selected.Some?
    ensures (!loading && addMode && Decide(draft, selected, addMode, loaded).Proceed?
            && Decide(draft, selected, addMode, loaded).call.Add?) ==> enabled
    ensures (!loading && !addMode && Decide(draft, selected, addMode, loaded).Proceed?
            && Decide(draft, selected, addMode, loaded).call.Update?) ==> enabled
  {
    !(loading || (addMode && (draft.customerName == "" || IsDuplicate(loaded, draft.customerName)))
      || (!addMode && selected.None?))
  }

  /** The message a submit that got past its guards ends with: a success
      message naming the call, and none when no call was issued. */
  function SuccessNotice(call: RemoteCall): (r: Option<Notice>)
    ensures r.None? <==> call.NoCall?
    ensures r.Some? ==> r.value.Kind() == Success
    ensures r == Some(CustomerUpdated) <==> call.Update?
    ensures r == Some(CustomerAdded) <==> call.Add?
  {
    match call
    case Update(_, _) => Some(CustomerUpdated)
    case Add(_) => Some(CustomerAdded)
    case NoCall => None
  }

  // ---------------------------------------------------------------------------
  // Lemmas
  // ---------------------------------------------------------------------------

  /** A loaded name is a duplicate of itself in any letter case. */
  lemma LoadedNameIsDuplicate(cs: seq<Customer>, i: nat, name: string)
    requires i < |cs| && ToLower(name) == ToLower(cs[i].customerName)
    ensures IsDuplicate(cs, name)
  {
  }

  /** The duplicate check ignores the letter case of the name it is given. */
  lemma DuplicateIgnoresCase(cs: seq<Customer>, name: string)
    ensures IsDuplicate(cs, ToLower(name)) == IsDuplicate(cs, name)
  {
  }

  /** Nothing is a duplicate of an empty list. */
  lemma NoDuplicateInEmptyList(name: string)
    ensures !IsDuplicate([], name)
  {
  }

  /** Choosing the dropdown option of a customer with an Id selects a customer
      with that Id, at or before it in the list; when Ids are distinct, that
      very customer. */
  lemma {:induction false} OptionSelectsItsCustomer(items: seq<Customer>, i: nat)
    requires i < |items| && items[i].id.Some?
    ensures FirstWithId(items, DropdownOptions(items)[i].key).Some?
    ensures FirstWithId(items, DropdownOptions(items)[i].key).value <= i
    ensures items[FirstWithId(items, DropdownOptions(items)[i].key).value].id == items[i].id
    ensures (forall j, k :: 0 <= j < k < |items| && items[j].id.Some? ==> items[j].id != items[k].id)
            ==> FirstWithId(items, DropdownOptions(items)[i].key) == Some(i)
  {
    var key := DropdownOptions(items)[i].key;
    assert key == items[i].id.value;
    assert items[i].id == Some(key);
  }

  /** A customer with an Id equal to 0 is selected but never updated: in edit
      mode its submit issues no call, in add mode it is treated as new. */
  lemma ZeroIdIsNeverUpdated(draft: Customer, c: Customer, addMode: bool, loaded: seq<Customer>)
    requires HasRequiredFields(draft) && c.id == Some(0)
    ensures !addMode ==> Decide(draft, Some(c), addMode, loaded) == Proceed(NoCall)
    ensures addMode ==> Decide(draft, Some(c), addMode, loaded) == Decide(draft, None, addMode, loaded)
  {
  }

  /** With a truthy selected Id the mode does not matter. */
  lemma UpdateIgnoresMode(draft: Customer, selected: Option<Customer>, loaded: seq<Customer>)
    requires TruthyId(selected).Some?
    ensures Decide(draft, selected, true, loaded) == Decide(draft, selected, false, loaded)
  {
  }

  /** An edit writes its value into the field of its input; the Id and the
      fields of every other input keep their values. */
  lemma WithEditChangesOneField(draft: Customer, e: Edit)
    ensures WithEdit(draft, e).id == draft.id
    ensures FieldOf(WithEdit(draft, e), EditedInput(e)) == EditedValue(e)
    ensures forall j :: j != EditedInput(e) ==> FieldOf(WithEdit(draft, e), j) == FieldOf(draft, j)
  {
    var r := WithEdit(draft, e);
    forall j | j != EditedInput(e)
      ensures FieldOf(r, j) == FieldOf(draft, j)
    {
      match j
      case NameInput => assert !e.SetCustomerName?;
      case AddressInput => assert !e.SetAddress?;
      case RigsInput => assert !e.SetNumberOfRigs?;
      case JackUpsInput => assert !e.SetNumberOfJackUps?;
      case ModusInput => assert !e.SetNumberOfModus?;
      case UrlInput => assert !e.SetSiteUrl?;
    }
  }

  /** A change in one input leaves the Id and what every other input shows
      as they were; the changed input then shows its new text, or for a
      number input the coerced count. */
  lemma InputChangesOnlyItsField(draft: Customer, input: Input, newValue: Option<string>)
    ensures var r := WithEdit(draft, EditFor(input, newValue));
      && r.id == draft.id
      && (forall j :: j != input ==> FieldOf(r, j) == FieldOf(draft, j))
      && FieldOf(r, input) == if IsCountInput(input) then Count(CoerceCount(newValue)) else Text(newValue.GetOr(""))
  {
    WithEditChangesOneField(draft, EditFor(input, newValue));
  }

  /** Edits of two different fields commute; a second edit of the same field
      overrides the first. */
  lemma EditsCommute(draft: Customer, e1: Edit, e2: Edit)
    ensures e1.SetCustomerName? == e2.SetCustomerName? && e1.SetAddress? == e2.SetAddress?
            && e1.SetNumberOfRigs? == e2.SetNumberOfRigs? && e1.SetNumberOfJackUps? == e2.SetNumberOfJackUps?
            && e1.SetNumberOfModus? == e2.SetNumberOfModus?
            ==> WithEdit(WithEdit(draft, e1), e2) == WithEdit(draft, e2)
    ensures (e1.SetCustomerName? ==> !e2.SetCustomerName?) && (e1.SetAddress? ==> !e2.SetAddress?)
            && (e1.SetNumberOfRigs? ==> !e2.SetNumberOfRigs?) && (e1.SetNumberOfJackUps? ==> !e2.SetNumberOfJackUps?)
            && (e1.SetNumberOfModus? ==> !e2.SetNumberOfModus?) && (e1.SetSiteUrl? ==> !e2.SetSiteUrl?)
            ==> WithEdit(WithEdit(draft, e1), e2) == WithEdit(WithEdit(draft, e2), e1)
  {
  }

  /** The Id and what the six inputs show determine the draft. */
  lemma FieldsDetermineDraft(a: Customer, b: Customer)
    requires a.id == b.id
    requires forall j :: FieldOf(a, j) == FieldOf(b, j)
    ensures a == b
  {
    assert FieldOf(a, NameInput) == FieldOf(b, NameInput);
    assert FieldOf(a, AddressInput) == FieldOf(b, AddressInput);
    assert FieldOf(a, RigsInput) == FieldOf(b, RigsInput);
    assert FieldOf(a, JackUpsInput) == FieldOf(b, JackUpsInput);
    assert FieldOf(a, ModusInput) == FieldOf(b, ModusInput);
    assert FieldOf(a, UrlInput) == FieldOf(b, UrlInput);
  }

  /** Re-entering the number a count input shows leaves the draft as it was. */
  lemma RetypingCountKeepsDraft(draft: Customer, input: Input)
    requires IsCountInput(input)
    ensures FieldOf(draft, input).Count?
    ensures WithEdit(draft, EditFor(input, Some(DecimalString(FieldOf(draft, input).n)))) == draft
  {
    var n := FieldOf(draft, input).n;
    CoerceCountOfDecimal(n);
    RetypedCountKeepsDraft(draft, input, Some(DecimalString(n)));
  }

  /** A count input's text that coerces to the count it shows leaves the
      draft as it was. */
  lemma RetypedCountKeepsDraft(draft: Customer, input: Input, text: Option<string>)
    requires IsCountInput(input) && FieldOf(draft, input) == Count(CoerceCount(text))
    ensures WithEdit(draft, EditFor(input, text)) == draft
  {
    var r := WithEdit(draft, EditFor(input, text));
    InputChangesOnlyItsField(draft, input, text);
    FieldsDetermineDraft(r, draft);
  }

  // ---------------------------------------------------------------------------
  // The component's state and handlers
  // ---------------------------------------------------------------------------

  class RigForm {
    var customers: seq<Customer>
    var selectedCustomer: Option<Customer>
    var formData: Customer
    var loading: bool
    var message: Option<Notice>
    var dropdownOptions: seq<DropdownOption>
    var showAddForm: bool

    /** The dropdown always lists the loaded customers; add mode never has a
        selection; a selection always carries an Id. */
    ghost predicate Valid()
      reads this
    {
      dropdownOptions == DropdownOptions(customers)
      && (showAddForm ==> selectedCustomer.None?)
      && (selectedCustomer.Some? ==> selectedCustomer.value.id.Some?)
    }

    /** The initial state of the component's `useState` hooks. */
    constructor ()
      ensures Valid()
      ensures customers == [] && dropdownOptions == [] && selectedCustomer == None
      ensures formData == EmptyCustomer && !loading && message == None && !showAddForm
    {
      customers := [];
      selectedCustomer := None;
      formData := EmptyCustomer;
      loading := false;
      message := None;
      dropdownOptions := [];
      showAddForm := false;
    }

    /** `loadCustomers` once the list call has returned (`None` when it threw):
        the customers and the dropdown are replaced together, or an error
        message is shown and both are kept. */
    method LoadCustomers(fetched: Option<seq<Customer>>)
      requires Valid()
      modifies this`customers, this`dropdownOptions, this`message, this`loading
      ensures Valid() && !loading
      ensures fetched.Some? ==> customers == fetched.value && message == old(message)
      ensures fetched.None? ==> customers == old(customers) && message == Some(LoadFailed)
    {
      loading := true;
      if fetched.Some? {
        customers := fetched.value;
        dropdownOptions := DropdownOptions(fetched.value);
      } else {
        message := Some(LoadFailed);
      }
      loading := false;
    }

    /** `handleInputChange`: only the edited field of the draft changes. */
    method HandleInputChange(e: Edit)
      modifies this`formData
      ensures formData == WithEdit(old(formData), e)
    {
      formData := WithEdit(formData, e);
    }

    /** The `onChange` of one text input: coerce the new text, then edit. */
    method HandleTextChange(input: Input, newValue: Option<string>)
      modifies this`formData
      ensures formData == WithEdit(old(formData), EditFor(input, newValue))
    {
      HandleInputChange(EditFor(input, newValue));
    }

    /** `handleCustomerSelect`: the first loaded customer whose Id is the
        option's key becomes the selection and the draft, and the form leaves
        add mode; without an option or a match nothing changes. */
    method HandleCustomerSelect(option: Option<DropdownOption>)
      requires Valid()
      modifies this`selectedCustomer, this`formData, this`showAddForm
      ensures Valid()
      ensures option.Some? && FirstWithId(customers, option.value.key).Some? ==>
        var c := customers[FirstWithId(customers, option.value.key).value];
        selectedCustomer == Some(c) && formData == c && !showAddForm
      ensures option.None? || FirstWithId(customers, option.value.key).None? ==>
        selectedCustomer == old(selectedCustomer) && formData == old(formData) && showAddForm == old(showAddForm)
    {
      if option.Some? {
        var key := option.value.key;
        var customer: Option<Customer> := None;
        var i := 0;
        while i < |customers|
          invariant 0 <= i <= |customers| && customer.None?
          invariant forall j :: 0 <= j < i ==> customers[j].id != Some(key)
        {
          if customers[i].id == Some(key) {
            customer := Some(customers[i]);
            break;
          }
          i := i + 1;
        }
        if customer.Some? {
          selectedCustomer := customer;
          formData := customer.value;
          showAddForm := false;
        }
      }
    }

    /** `checkDuplicateCustomer`: scans the loaded customers, lower-casing both
        names, and stops at the first match. */
    method CheckDuplicateCustomer(name: string) returns (dup: bool)
      ensures dup == IsDuplicate(customers, name)
    {
      var lowered := ToLower(name);
      var i := 0;
      while i < |customers|
        invariant 0 <= i <= |customers|
        invariant forall j :: 0 <= j < i ==> ToLower(customers[j].customerName) != lowered
      {
        if ToLower(customers[i].customerName) == lowered {
          return true;
        }
        i := i + 1;
      }
      return false;
    }

    /** `resetForm`: the empty draft and no selection. The new state does not
        depend on the old one, so resetting twice is resetting once. */
    method ResetForm()
      requires Valid()
      modifies this`formData, this`selectedCustomer
      ensures Valid()
      ensures formData == EmptyCustomer && selectedCustomer == None
    {
      formData := EmptyCustomer;
      selectedCustomer := None;
    }

    /** "Add New Customer": add mode with an empty draft. */
    method OpenAddForm()
      requires Valid()
      modifies this`formData, this`selectedCustomer, this`showAddForm
      ensures Valid()
      ensures showAddForm && formData == EmptyCustomer && selectedCustomer == None
    {
      ResetForm();
      showAddForm := true;
    }

    /** "Edit Existing Customers" and "Cancel Add": edit mode with an empty draft. */
    method CloseAddForm()
      requires Valid()
      modifies this`formData, this`selectedCustomer, this`showAddForm
      ensures Valid()
      ensures !showAddForm && formData == EmptyCustomer && selectedCustomer == None
    {
      showAddForm := false;
      ResetForm();
    }

    /** "Cancel Edit": no selection and an empty draft; the mode is kept. */
    method CancelEdit()
      requires Valid()
      modifies this`formData, this`selectedCustomer
      ensures Valid()
      ensures formData == EmptyCustomer && selectedCustomer == None
    {
      selectedCustomer := None;
      ResetForm();
    }

    /** `handleSubmit`. `remoteSucceeds` says whether the list call, if one is
        issued, returns instead of throwing. Returns the call issued and
        whether the customers are reloaded afterwards. A guard that stops the
        submit, and a call that throws, keep the draft, the selection and the
        mode; a submit that completes empties the draft, clears the selection
        and leaves add mode. The loaded customers never change here. */
    method HandleSubmit(remoteSucceeds: bool) returns (call: RemoteCall, reload: bool)
      requires Valid()
      modifies this`selectedCustomer, this`formData, this`showAddForm, this`message, this`loading
      ensures Valid()
      ensures var d := Decide(old(formData), old(selectedCustomer), old(showAddForm), old(customers));
        && call == (if d.Proceed? then d.call else NoCall)
        && (d.MissingRequired? ==> message == Some(RequiredFieldsMissing) && loading == old(loading))
        && (d.DuplicateName? ==> message == Some(DuplicateCustomer) && !loading)
        && (d.Proceed? && d.call != NoCall && !remoteSucceeds ==> message == Some(SubmitFailed) && !loading)
        && (reload <==> d.Proceed? && (d.call == NoCall || remoteSucceeds))
      ensures !reload ==>
        formData == old(formData) && selectedCustomer == old(selectedCustomer) && showAddForm == old(showAddForm)
      ensures reload ==>
        formData == EmptyCustomer && selectedCustomer == None && !showAddForm && !loading
        && message == SuccessNotice(call)
    {
      if formData.customerName == "" || formData.address == "" {
        message := Some(RequiredFieldsMissing);
        return NoCall, false;
      }
      loading := true;
      message := None;
      call := NoCall;
      var id := TruthyId(selectedCustomer);
      if id.Some? {
        call := Update(id.value, MakePayload(formData));
        if !remoteSucceeds {
          message := Some(SubmitFailed);
          loading := false;
          return call, false;
        }
        message := Some(CustomerUpdated);
      } else if showAddForm {
        var dup := CheckDuplicateCustomer(formData.customerName);
        if dup {
          message := Some(DuplicateCustomer);
          loading := false;
          return NoCall, false;
        }
        call := Add(MakePayload(formData));
        if !remoteSucceeds {
          message := Some(SubmitFailed);
          loading := false;
          return call, false;
        }
        message := Some(CustomerAdded);
      }
      reload := true;
      ResetForm();
      showAddForm := false;
      loading := false;
    }
  }

  /** "Add New Customer", then type "Acme", "1 Dock Rd" and 2 rigs. */
  method FillAddForm(form: RigForm)
    requires form.Valid()
    modifies form
    ensures form.Valid() && form.showAddForm && form.customers == old(form.customers)
    ensures form.formData == Customer(None, "Acme", "1 Dock Rd", 2, 0, 0, UrlValue(""))
  {
    form.OpenAddForm();
    form.HandleTextChange(NameInput, Some("Acme"));
    form.HandleTextChange(AddressInput, Some("1 Dock Rd"));
    TypeTwoRigs(form);
  }

  /** Type "2" into "Number of Rigs". */
  method TypeTwoRigs(form: RigForm)
    modifies form`formData
    ensures form.formData == old(form.formData).(numberOfRigs := 2)
  {
    CoerceCountOfDecimal(2);
    assert DecimalString(2) == "2";
    form.HandleTextChange(RigsInput, Some("2"));
  }

  /** Add "Acme" in add mode: the add carries the draft, the URL as `null`,
      and the form is reset. */
  method AddScenario()
  {
    var form := new RigForm();
    FillAddForm(form);
    NoDuplicateInEmptyList("Acme");
    var call, reload := form.HandleSubmit(true);
    assert call == Add(Payload("Acme", "1 Dock Rd", 2, 0, 0, None));
    assert reload && form.formData == EmptyCustomer && !form.showAddForm;
  }

  /** Select customer 7, change its address and submit: an update of 7, and
      a failed update keeps the draft. */
  method EditScenario()
  {
    var form := new RigForm();
    var acme := Customer(Some(7), "Acme", "1 Dock Rd", 2, 0, 0, UrlValue(""));
    form.LoadCustomers(Some([acme]));
    form.HandleCustomerSelect(Some(DropdownOption(7, "Acme")));
    assert form.selectedCustomer == Some(acme);
    form.HandleTextChange(AddressInput, Some("2 Quay St"));
    var call, reload := form.HandleSubmit(false);
    assert call == Update(7, Payload("Acme", "2 Quay St", 2, 0, 0, None));
    assert form.message == Some(SubmitFailed) && form.formData.address == "2 Quay St";
  }

  /** "Add New Customer", then type the name "acme" and an address. */
  method FillDuplicateName(form: RigForm)
    requires form.Valid()
    modifies form
    ensures form.Valid() && form.showAddForm && form.customers == old(form.customers)
    ensures form.selectedCustomer == None && form.formData.id == None
    ensures form.formData.customerName == "acme" && form.formData.address == "3 Pier Ave"
  {
    form.OpenAddForm();
    form.HandleTextChange(NameInput, Some("acme"));
    form.HandleTextChange(AddressInput, Some("3 Pier Ave"));
  }

  /** Adding "acme" while "Acme" is loaded issues no call and keeps the draft. */
  method DuplicateScenario()
  {
    var form := new RigForm();
    var acme := Customer(Some(7), "Acme", "1 Dock Rd", 2, 0, 0, UrlValue(""));
    form.LoadCustomers(Some([acme]));
    FillDuplicateName(form);
    LoadedNameIsDuplicate([acme], 0, "acme");
    var call, reload := form.HandleSubmit(true);
    assert call == NoCall && !reload && form.message == Some(DuplicateCustomer);
    assert form.formData.customerName == "acme";
  }
}
