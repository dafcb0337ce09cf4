/** The invoice issuance page (app/notas-fiscais/emitir/page.tsx): a form with
    five fields and an editable list of items that never becomes empty, its
    validation, and its simulated submit. */
module InvoiceIssue {
  import opened Wrappers
  import opened Text
  import opened Rules

  datatype Item = Item(description: string, quantity: string, unitPrice: string)

  datatype FormData = FormData(
    number: string, company: string, date: string, value: string, status: string,
    items: seq<Item>)

  /** The fields of the form outside the item list. */
  datatype Field = Number | Company | Date | Value | Status

  datatype ItemField = Description | Quantity | UnitPrice

  /** `FormErrors`: one optional message per field, the optional per-item
      error list, and the general message shown above the form. */
  datatype FormErrors = FormErrors(
    fields: map<Field, string>,
    items: Option<seq<map<ItemField, string>>>,
    general: Option<string>)

  const NoErrors: FormErrors := FormErrors(map[], None, None)
  const BlankItem: Item := Item("", "", "")
  const ListRoute: string := "/notas-fiscais"

  const NumberRequired: string := "N\U{00FA}mero da nota fiscal \U{00E9} obrigat\U{00F3}rio"
  const CompanyRequired: string := "Empresa \U{00E9} obrigat\U{00F3}ria"
  const DateRequired: string := "Data \U{00E9} obrigat\U{00F3}ria"
  const ValueRequired: string := "Valor \U{00E9} obrigat\U{00F3}rio"
  const ValueInvalid: string := "Valor deve ser um n\U{00FA}mero v\U{00E1}lido (ex: 1234,56)"
  const DescriptionRequired: string := "Descri\U{00E7}\U{00E3}o \U{00E9} obrigat\U{00F3}ria"
  const QuantityRequired: string := "Quantidade \U{00E9} obrigat\U{00F3}ria"
  const QuantityInvalid: string := "Quantidade deve ser um n\U{00FA}mero inteiro"
  const UnitPriceRequired: string := "Pre\U{00E7}o unit\U{00E1}rio \U{00E9} obrigat\U{00F3}rio"
  const UnitPriceInvalid: string := "Pre\U{00E7}o deve ser um n\U{00FA}mero v\U{00E1}lido (ex: 123,45)"
  const GeneralError: string := "Por favor, corrija os erros no formul\U{00E1}rio antes de continuar."

  /** The initial form: today's date (an input here), status "Pendente" and
      one blank item. */
  function InitialForm(today: string): (f: FormData)
    ensures |f.items| == 1 && f.items[0] == BlankItem
  {
    FormData("", "", today, "", "Pendente", [BlankItem])
  }

  /** `(,\d{1,2})?`: nothing, or a comma and one or two digits. */
  predicate OptionalCents(u: string)
  {
    u == [] || (u[0] == ',' && 2 <= |u| <= 3 && AllDigits(u[1..]))
  }

  /** `/^\d+(,\d{1,2})?$/`: a non-empty run of digits followed by the
      optional decimal part. */
  predicate IsAmount(t: string)
  {
    exists k :: 1 <= k <= |t| && AllDigits(t[..k]) && OptionalCents(t[k..])
  }

  /** `/^\d+$/` */
  predicate IsCount(t: string)
  {
    t != [] && AllDigits(t)
  }

  /** The length of the longest prefix of `t` made of digits. */
  function LeadingDigits(t: string): (n: nat)
    ensures n <= |t| && AllDigits(t[..n])
    ensures n < |t| ==> !IsDigit(t[n])
  {
    if t == [] || !IsDigit(t[0]) then 0
    else
      var n := 1 + LeadingDigits(t[1..]);
      assert forall i :: 1 <= i < n ==> t[..n][i] == t[1..][..n - 1][i - 1];
      n
  }

  /** Every character of an all-digit prefix is a digit. */
  lemma DigitAt(t: string, k: nat, i: nat)
    ensures i < k <= |t| && AllDigits(t[..k]) ==> IsDigit(t[i])
  {
    if i < k <= |t| {
      assert t[..k][i] == t[i];
    }
  }

  /** The amount pattern read left to right: since a comma is not a digit,
      the only way to split an amount is after all of its leading digits. */
  lemma IsAmountIff(t: string)
    ensures IsAmount(t) <==> LeadingDigits(t) >= 1 && OptionalCents(t[LeadingDigits(t)..])
  {
    var n := LeadingDigits(t);
    if IsAmount(t) {
      var k :| 1 <= k <= |t| && AllDigits(t[..k]) && OptionalCents(t[k..]);
      assert k < |t| ==> t[k..][0] == t[k];
      DigitAt(t, k, n);
      assert k == n;
    }
  }

  /** What the pattern accepts on typical inputs. */
  lemma AmountAccepted()
    ensures IsAmount("1234,56") && IsAmount("12,3") && IsAmount("7")
  {
    assert AllDigits("1234,56"[..4]) && OptionalCents("1234,56"[4..]) by {
      assert "1234,56"[..4] == "1234" && "1234,56"[4..] == ",56" && ",56"[1..] == "56";
    }
    assert AllDigits("12,3"[..2]) && OptionalCents("12,3"[2..]) by {
      assert "12,3"[..2] == "12" && "12,3"[2..] == ",3" && ",3"[1..] == "3";
    }
    assert AllDigits("7"[..1]) && OptionalCents("7"[1..]);
  }

  /** What it refuses: a bare comma, no digits before the comma, a point,
      three decimals, a thousands separator, the empty text. */
  lemma AmountRefused()
    ensures !IsAmount("1234,") && !IsAmount(",5") && !IsAmount("1.5")
    ensures !IsAmount("1,234") && !IsAmount("1.234,56") && !IsAmount("")
  {
    NotAmountAfterOneDigit("1.5");
    NotAmountAfterOneDigit("1,234");
    NotAmountAfterOneDigit("1.234,56");
    IsAmountIff(",5");
    IsAmountIff("1234,");
    assert LeadingDigits("1234,") == 4 by {
      assert "1234,"[1..] == "234," && "234,"[1..] == "34," && "34,"[1..] == "4," && "4,"[1..] == ",";
    }
    assert "1234,"[4..] == ",";
  }

  /** A text of one digit and then something other than a comma and one or
      two digits is not an amount. */
  lemma NotAmountAfterOneDigit(t: string)
    requires |t| >= 2 && IsDigit(t[0]) && !IsDigit(t[1]) && !OptionalCents(t[1..])
    ensures !IsAmount(t)
  {
    IsAmountIff(t);
    assert t[1..][0] == t[1];
    assert LeadingDigits(t[1..]) == 0;
  }

  /** The value and unit-price rule: accepted exactly when the trimmed text
      is an amount; a blank field gets the "required" message and never the
      format message. */
  function AmountCheck(v: string, required: string, invalid: string): (r: Option<string>)
    ensures r.None? <==> IsAmount(Trim(v))
    ensures AllSpace(v) ==> r == Some(required)
    ensures r.Some? && !AllSpace(v) ==> r == Some(invalid)
  {
    var t := Trim(v);
    if t == [] then Some(required) else if !IsAmount(t) then Some(invalid) else None
  }

  /** The quantity rule, in the same shape with the digits-only pattern. */
  function CountCheck(v: string, required: string, invalid: string): (r: Option<string>)
    ensures r.None? <==> IsCount(Trim(v))
    ensures AllSpace(v) ==> r == Some(required)
    ensures r.Some? && !AllSpace(v) ==> r == Some(invalid)
  {
    var t := Trim(v);
    if t == [] then Some(required) else if !IsCount(t) then Some(invalid) else None
  }

  /** The errors of the five form fields. */
  function FieldErrorsOf(form: FormData): (r: map<Field, string>)
    ensures Number in r <==> AllSpace(form.number)
    ensures Company in r <==> form.company == ""
    ensures Date in r <==> form.date == ""
    ensures Value in r <==> !IsAmount(Trim(form.value))
    ensures Status !in r
    ensures Number in r ==> r[Number] == NumberRequired
    ensures Company in r ==> r[Company] == CompanyRequired
    ensures Date in r ==> r[Date] == DateRequired
    ensures Value in r ==> r[Value] == (if AllSpace(form.value) then ValueRequired else ValueInvalid)
  {
    var m1 := PutSome(map[], Number, RequiredCheck(form.number, NumberRequired));
    var m2 := PutSome(m1, Company, PresentCheck(form.company, CompanyRequired));
    var m3 := PutSome(m2, Date, PresentCheck(form.date, DateRequired));
    PutSome(m3, Value, AmountCheck(form.value, ValueRequired, ValueInvalid))
  }

  /** The errors one item gets (`itemError`). */
  function ItemErrorsOf(item: Item): (r: map<ItemField, string>)
    ensures Description in r <==> AllSpace(item.description)
    ensures Quantity in r <==> !IsCount(Trim(item.quantity))
    ensures UnitPrice in r <==> !IsAmount(Trim(item.unitPrice))
    ensures Description in r ==> r[Description] == DescriptionRequired
    ensures Quantity in r ==> r[Quantity] == (if AllSpace(item.quantity) then QuantityRequired else QuantityInvalid)
    ensures UnitPrice in r ==> r[UnitPrice] == (if AllSpace(item.unitPrice) then UnitPriceRequired else UnitPriceInvalid)
  {
    var m1 := PutSome(map[], Description, RequiredCheck(item.description, DescriptionRequired));
    var m2 := PutSome(m1, Quantity, CountCheck(item.quantity, QuantityRequired, QuantityInvalid));
    PutSome(m2, UnitPrice, AmountCheck(item.unitPrice, UnitPriceRequired, UnitPriceInvalid))
  }

  /** The item has at least one message. */
  predicate HasItemError(e: map<ItemField, string>)
  {
    Description in e || Quantity in e || UnitPrice in e
  }

  /** The checks of the five form fields in `validateForm`, each clearing
      `isValid` when it records a message. */
  method CheckFields(form: FormData) returns (fields: map<Field, string>, ok: bool)
    ensures fields == FieldErrorsOf(form)
    ensures ok <==> fields == map[]
  {
    fields := map[];
    ok := true;
    var number := RequiredCheck(form.number, NumberRequired);
    if number.Some? {
      fields := fields[Number := number.value];
      ok := false;
    }
    var company := PresentCheck(form.company, CompanyRequired);
    if company.Some? {
      fields := fields[Company := company.value];
      ok := false;
    }
    var date := PresentCheck(form.date, DateRequired);
    if date.Some? {
      fields := fields[Date := date.value];
      ok := false;
    }
    var value := AmountCheck(form.value, ValueRequired, ValueInvalid);
    if value.Some? {
      fields := fields[Value := value.value];
      ok := false;
    }
    assert fields == FieldErrorsOf(form);
    if !ok {
      assert Number in fields || Company in fields || Date in fields || Value in fields;
    } else {
      assert fields == map[];
    }
  }

  /** The `forEach` callback of `validateForm` on one item: its errors, and
      whether it raised `hasItemErrors`. */
  method CheckItem(item: Item) returns (itemError: map<ItemField, string>, failed: bool)
    ensures itemError == ItemErrorsOf(item)
    ensures failed == ItemFails(item)
  {
    itemError := map[];
    failed := false;
    var description := RequiredCheck(item.description, DescriptionRequired);
    if description.Some? {
      itemError := itemError[Description := description.value];
      failed := true;
    }
    var quantity := CountCheck(item.quantity, QuantityRequired, QuantityInvalid);
    if quantity.Some? {
      itemError := itemError[Quantity := quantity.value];
      failed := true;
    }
    var unitPrice := AmountCheck(item.unitPrice, UnitPriceRequired, UnitPriceInvalid);
    if unitPrice.Some? {
      itemError := itemError[UnitPrice := unitPrice.value];
      failed := true;
    }
  }

  /** `f` applied to every element of `s`, built from the front. */
  function MapSeq<S, T>(s: seq<S>, f: S -> T): seq<T>
    decreases |s|
  {
    if s == [] then [] else MapSeq(s[..|s| - 1], f) + [f(s[|s| - 1])]
  }

  lemma {:induction false} MapSeqAt<S, T>(s: seq<S>, f: S -> T)
    ensures |MapSeq(s, f)| == |s|
    ensures forall i :: 0 <= i < |s| ==> MapSeq(s, f)[i] == f(s[i])
    decreases |s|
  {
    if s != [] {
      var init := s[..|s| - 1];
      MapSeqAt(init, f);
      assert forall i :: 0 <= i < |init| ==> init[i] == s[i];
    }
  }

  lemma MapSeqSnoc<S, T>(s: seq<S>, i: nat, f: S -> T)
    requires i < |s|
    ensures MapSeq(s[..i + 1], f) == MapSeq(s[..i], f) + [f(s[i])]
  {
    assert s[..i + 1][..i] == s[..i];
  }

  /** The error entry of every item, in order. */
  function ItemErrorList(items: seq<Item>): seq<map<ItemField, string>>
  {
    MapSeq(items, ItemErrorsOf)
  }

  /** Some element of `s` satisfies `p`, read from the last one back. */
  predicate Any<T>(s: seq<T>, p: T -> bool)
    decreases |s|
  {
    s != [] && (Any(s[..|s| - 1], p) || p(s[|s| - 1]))
  }

  lemma {:induction false} AnyIff<T>(s: seq<T>, p: T -> bool)
    ensures Any(s, p) <==> exists i :: 0 <= i < |s| && p(s[i])
    decreases |s|
  {
    if s != [] {
      var init := s[..|s| - 1];
      AnyIff(init, p);
      assert forall i :: 0 <= i < |init| ==> init[i] == s[i];
    }
  }

  lemma AnySnoc<T>(s: seq<T>, i: nat, p: T -> bool)
    requires i < |s|
    ensures Any(s[..i + 1], p) == (Any(s[..i], p) || p(s[i]))
  {
    assert s[..i + 1][..i] == s[..i];
  }

  predicate ItemFails(item: Item)
  {
    HasItemError(ItemErrorsOf(item))
  }

  /** Some item has a message (`hasItemErrors` at the end of the loop). */
  predicate AnyItemError(items: seq<Item>)
  {
    Any(items, ItemFails)
  }

  /** The error list is index-aligned with the items. */
  lemma ItemErrorListAt(items: seq<Item>)
    ensures |ItemErrorList(items)| == |items|
    ensures forall i :: 0 <= i < |items| ==> ItemErrorList(items)[i] == ItemErrorsOf(items[i])
  {
    MapSeqAt(items, ItemErrorsOf);
  }

  lemma AnyItemErrorIff(items: seq<Item>)
    ensures AnyItemError(items) <==> exists i :: 0 <= i < |items| && HasItemError(ItemErrorsOf(items[i]))
  {
    AnyIff(items, ItemFails);
  }

  /** The error set `validateForm` builds for `form`: the field rules, and
      the per-item list only when some item failed; no general message. */
  function ErrorsOf(form: FormData): FormErrors
  {
    FormErrors(FieldErrorsOf(form), if AnyItemError(form.items) then Some(ItemErrorList(form.items)) else None, None)
  }

  /** A form passes exactly when no field and no item has a message. */
  lemma ErrorsOfIff(form: FormData)
    ensures ErrorsOf(form) == NoErrors <==>
      && !AllSpace(form.number) && form.company != "" && form.date != "" && IsAmount(Trim(form.value))
      && forall i :: 0 <= i < |form.items| ==> !HasItemError(ItemErrorsOf(form.items[i]))
  {
    AnyItemErrorIff(form.items);
    var f := FieldErrorsOf(form);
    if f != map[] {
      assert Number in f || Company in f || Date in f || Value in f;
    }
  }

  /** Submitting the untouched form is refused: the number, the company, the
      value and every field of the one blank item get their "required"
      message, and the date its own exactly when today's date is empty. */
  lemma UntouchedFormRefused(today: string)
    ensures ErrorsOf(InitialForm(today)) != NoErrors
    ensures FieldErrorsOf(InitialForm(today)) ==
      (map[Number := NumberRequired, Company := CompanyRequired, Value := ValueRequired] +
       if today == "" then map[Date := DateRequired] else map[])
    ensures ErrorsOf(InitialForm(today)).items ==
      Some([map[Description := DescriptionRequired, Quantity := QuantityRequired, UnitPrice := UnitPriceRequired]])
  {
    var blank := map[Description := DescriptionRequired, Quantity := QuantityRequired, UnitPrice := UnitPriceRequired];
    assert AllSpace("");
    assert ItemErrorsOf(BlankItem) == blank;
    var items := InitialForm(today).items;
    AnyItemErrorIff(items);
    assert ItemFails(items[0]);
    ItemErrorListAt(items);
    assert ItemErrorList(items) == [blank];
  }

  /** `validateForm`'s computation: a fresh error set (the old one is not
      consulted), the field rules, one entry per item that is kept only when
      some item failed, and the verdict. */
  method Validate(form: FormData) returns (isValid: bool, newErrors: FormErrors)
    ensures newErrors == ErrorsOf(form)
    ensures isValid <==> newErrors == NoErrors
  {
    var fields: map<Field, string>;
    fields, isValid := CheckFields(form);
    var itemErrors: seq<map<ItemField, string>> := [];
    var hasItemErrors := false;
    var i := 0;
    while i < |form.items|
      invariant 0 <= i <= |form.items|
      invariant itemErrors == ItemErrorList(form.items[..i])
      invariant hasItemErrors == AnyItemError(form.items[..i])
    {
      var itemError, failed := CheckItem(form.items[i]);
      MapSeqSnoc(form.items, i, ItemErrorsOf);
      AnySnoc(form.items, i, ItemFails);
      hasItemErrors := hasItemErrors || failed;
      itemErrors := itemErrors + [itemError];
      i := i + 1;
    }
    assert form.items[..i] == form.items;
    if hasItemErrors {
      newErrors := FormErrors(fields, Some(itemErrors), None);
      isValid := false;
    } else {
      newErrors := FormErrors(fields, None, None);
    }
  }

  /** `[...s].splice(index, 1)`: the element at `index` removed when there is
      one, the sequence unchanged otherwise. */
  function SpliceOut<T>(s: seq<T>, index: nat): (r: seq<T>)
    ensures index < |s| ==> |r| == |s| - 1
    ensures index < |s| ==> forall j :: 0 <= j < |r| ==> r[j] == (if j < index then s[j] else s[j + 1])
    ensures index >= |s| ==> r == s
  {
    if index < |s| then s[..index] + s[index + 1..] else s
  }

  /** `{ ...prev, [field]: value }` for the five form fields. */
  function WithField(form: FormData, field: Field, value: string): FormData
  {
    match field
    case Number => form.(number := value)
    case Company => form.(company := value)
    case Date => form.(date := value)
    case Value => form.(value := value)
    case Status => form.(status := value)
  }

  /** `{ ...item, [field]: value }` */
  function WithItemField(item: Item, field: ItemField, value: string): Item
  {
    match field
    case Description => item.(description := value)
    case Quantity => item.(quantity := value)
    case UnitPrice => item.(unitPrice := value)
  }

  /** The rules are local: a change of one field leaves the verdict and the
      message of every other field as they were, and the items untouched. So
      clearing only the changed field's message never hides another one the
      new data would still deserve. */
  lemma ChangeIsLocal(form: FormData, field: Field, value: string, other: Field)
    requires other != field
    ensures WithField(form, field, value).items == form.items
    ensures other in FieldErrorsOf(WithField(form, field, value)) <==> other in FieldErrorsOf(form)
    ensures other in FieldErrorsOf(form) ==> FieldErrorsOf(WithField(form, field, value))[other] == FieldErrorsOf(form)[other]
  {
  }

  /** The same for one field of one item. */
  lemma ItemChangeIsLocal(item: Item, field: ItemField, value: string, other: ItemField)
    requires other != field
    ensures other in ItemErrorsOf(WithItemField(item, field, value)) <==> other in ItemErrorsOf(item)
    ensures other in ItemErrorsOf(item) ==> ItemErrorsOf(WithItemField(item, field, value))[other] == ItemErrorsOf(item)[other]
  {
  }

  /** The error set after a change of one item field: that one message is
      dropped, when the item has an entry in the error list. */
  function ClearItemError(errors: FormErrors, index: nat, field: ItemField): (r: FormErrors)
    ensures r.fields == errors.fields && r.general == errors.general
    ensures r.items.Some? <==> errors.items.Some?
    ensures errors.items.Some? ==> |r.items.value| == |errors.items.value|
    ensures errors.items.Some? ==> forall j :: 0 <= j < |errors.items.value| ==>
      r.items.value[j] == if j == index then errors.items.value[j] - {field} else errors.items.value[j]
  {
    if errors.items.Some? && index < |errors.items.value| && field in errors.items.value[index] then
      var list := errors.items.value;
      errors.(items := Some(list[index := list[index] - {field}]))
    else errors
  }

  /** Removing the same index from two aligned lists keeps them aligned. */
  lemma SpliceOutKeepsAlignment<S, T>(items: seq<S>, errors: seq<T>, index: nat)
    requires |items| == |errors| && index < |items|
    ensures |SpliceOut(items, index)| == |SpliceOut(errors, index)| == |items| - 1
    ensures forall j :: 0 <= j < |items| - 1 ==>
      (SpliceOut(items, index)[j], SpliceOut(errors, index)[j]) ==
      (if j < index then (items[j], errors[j]) else (items[j + 1], errors[j + 1]))
  {
  }

  /** The page's state. `location` records the `router.push` target. */
  class IssuePage {
    var form: FormData
    var errors: FormErrors
    var isSubmitting: bool
    var location: Option<string>

    /** The item list is never empty. */
    predicate Valid()
      reads this
    {
      |form.items| >= 1
    }

    constructor (today: string)
      ensures Valid()
      ensures form == InitialForm(today) && errors == NoErrors
      ensures !isSubmitting && location == None
    {
      form := InitialForm(today);
      errors := NoErrors;
      isSubmitting := false;
      location := None;
    }

    /** `handleChange` (the inputs "number", "date" and "value") and
      `handleSelectChange` ("company" and "status"): the field takes the new
      text and only its own error is cleared. */
    method HandleChange(field: Field, value: string)
      requires Valid()
      modifies this
      ensures Valid()
      ensures form == WithField(old(form), field, value)
      ensures errors == old(errors).(fields := old(errors.fields) - {field})
      ensures isSubmitting == old(isSubmitting) && location == old(location)
    {
      form := WithField(form, field, value);
      if field in errors.fields {
        errors := errors.(fields := errors.fields - {field});
      }
    }

    /** `handleItemChange`, called from the rendered item at `index`. */
    method HandleItemChange(index: nat, field: ItemField, value: string)
      requires Valid() && index < |form.items|
      modifies this
      ensures Valid()
      ensures form == old(form).(items := old(form.items)[index := WithItemField(old(form.items[index]), field, value)])
      ensures errors == ClearItemError(old(errors), index, field)
      ensures isSubmitting == old(isSubmitting) && location == old(location)
    {
      var newItems := form.items[index := WithItemField(form.items[index], field, value)];
      form := form.(items := newItems);
      if errors.items.Some? && index < |errors.items.value| && field in errors.items.value[index] {
        var list := errors.items.value;
        errors := errors.(items := Some(list[index := list[index] - {field}]));
      }
    }

    /** `addItem`: one blank item at the end, the rest untouched. */
    method AddItem()
      requires Valid()
      modifies this
      ensures Valid()
      ensures form == old(form).(items := old(form.items) + [BlankItem])
      ensures errors == old(errors) && isSubmitting == old(isSubmitting) && location == old(location)
    {
      form := form.(items := form.items + [BlankItem]);
    }

    /** `removeItem`: nothing when one item is left; otherwise the item and its
      error entry at `index` go, the others keep their order. */
    method RemoveItem(index: nat)
      requires Valid()
      modifies this
      ensures Valid()
      ensures |old(form.items)| == 1 ==> form == old(form) && errors == old(errors)
      ensures |old(form.items)| > 1 ==>
        form == old(form).(items := SpliceOut(old(form.items), index)) &&
        errors == (if old(errors.items).Some? then old(errors).(items := Some(SpliceOut(old(errors.items.value), index))) else old(errors))
      ensures isSubmitting == old(isSubmitting) && location == old(location)
    {
      if |form.items| > 1 {
        form := form.(items := SpliceOut(form.items, index));
        if errors.items.Some? {
          errors := errors.(items := Some(SpliceOut(errors.items.value, index)));
        }
      }
    }

    /** `validateForm`: the error set is replaced by the fresh one. */
    method ValidateForm() returns (isValid: bool)
      requires Valid()
      modifies this
      ensures Valid()
      ensures form == old(form) && isSubmitting == old(isSubmitting) && location == old(location)
      ensures errors == ErrorsOf(form)
      ensures isValid <==> errors == NoErrors
    {
      var newErrors;
      isValid, newErrors := Validate(form);
      errors := newErrors;
    }

    /** `handleSubmit`: a valid form starts the (simulated) save; an invalid
      one gets the general message on top of the fresh field errors. */
    method HandleSubmit()
      requires Valid()
      modifies this
      ensures Valid()
      ensures form == old(form) && location == old(location)
      ensures ErrorsOf(form) == NoErrors ==> errors == NoErrors && isSubmitting
      ensures ErrorsOf(form) != NoErrors ==>
        errors == ErrorsOf(form).(general := Some(GeneralError)) && isSubmitting == old(isSubmitting)
    {
      var isValid := ValidateForm();
      if isValid {
        isSubmitting := true;
      } else {
        errors := errors.(general := Some(GeneralError));
      }
    }

    /** The one-second timer of a valid submit: back to the invoice list. */
    method SubmitDelayElapsed()
      requires Valid()
      modifies this
      ensures Valid()
      ensures !isSubmitting && location == Some(ListRoute)
      ensures form == old(form) && errors == old(errors)
    {
      isSubmitting := false;
      location := Some(ListRoute);
    }
  }
}
