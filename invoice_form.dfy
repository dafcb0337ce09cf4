/** The invoice create/edit form (app/notas-fiscais/form.tsx): the invoice
    being edited, its validation with the boleto-number rule, the currency
    entry that reads the typed digits as cents, error clearing on edit, and
    the save that is a PUT for an existing invoice and a POST otherwise.
    `valor` is held as an integer number of cents. */
module InvoiceForm {
  import opened Wrappers
  import opened Text
  import opened Rules

  /** `Invoice`; `id` is absent for a new invoice and `valor` is in cents. */
  datatype Invoice = Invoice(
    id: Option<int>, descricao: string, empresaId: int,
    dataEmissao: string, dataVencimento: string, valor: int,
    tipoPagamento: string, numeroBoleto: Option<string>, status: string)

  datatype Company = Company(id: int, nome: string, cnpj: string)

  /** The keys of `FormErrors` other than `general`. */
  datatype Field = Descricao | EmpresaId | DataEmissao | DataVencimento | Valor | TipoPagamento | NumeroBoleto

  datatype FormErrors = FormErrors(fields: map<Field, string>, general: Option<string>)

  const NoErrors: FormErrors := FormErrors(map[], None)
  const Boleto: string := "BOLETO"
  const ListRoute: string := "/notas-fiscais"
  const CollectionPath: string := "/notas"

  const DescricaoRequired: string := "Descri\U{00E7}\U{00E3}o \U{00E9} obrigat\U{00F3}ria"
  const EmpresaRequired: string := "Empresa \U{00E9} obrigat\U{00F3}ria"
  const EmissaoRequired: string := "Data de emiss\U{00E3}o \U{00E9} obrigat\U{00F3}ria"
  const VencimentoRequired: string := "Data de vencimento \U{00E9} obrigat\U{00F3}ria"
  const ValorRequired: string := "Valor \U{00E9} obrigat\U{00F3}rio"
  const TipoRequired: string := "Tipo de pagamento \U{00E9} obrigat\U{00F3}rio"
  const BoletoRequired: string := "N\U{00FA}mero do boleto \U{00E9} obrigat\U{00F3}rio para este tipo de pagamento"
  const GeneralError: string := "Por favor, corrija os erros no formul\U{00E1}rio antes de continuar."
  const SaveError: string := "Ocorreu um erro ao salvar a nota fiscal. Por favor, tente novamente."

  /** The initial form data: both dates are today (an input here), no
      company, no amount, payment by boleto without a number, pending. */
  function InitialForm(today: string): (f: Invoice)
    ensures f.id.None? && f.empresaId == 0 && f.valor == 0
    ensures f.dataEmissao == today && f.dataVencimento == today
    ensures f.tipoPagamento == Boleto && f.numeroBoleto.None? && f.status == "PENDENTE"
  {
    Invoice(None, "", 0, today, today, 0, Boleto, None, "PENDENTE")
  }

  /** `!formData.numeroBoleto`: null or the empty text. */
  predicate MissingBoleto(n: Option<string>)
  {
    n.None? || n.value == ""
  }

  /** The fields of the form. */
  const AllFields: set<Field> := {Descricao, EmpresaId, DataEmissao, DataVencimento, Valor, TipoPagamento, NumeroBoleto}

  /** The same fields in the order `validateForm` checks them. */
  const FieldOrder: seq<Field> := [Descricao, EmpresaId, DataEmissao, DataVencimento, Valor, TipoPagamento, NumeroBoleto]

  /** The rule of one field. */
  function FieldCheck(form: Invoice, f: Field): Option<string>
  {
    match f
    case Descricao => RequiredCheck(form.descricao, DescricaoRequired)
    case EmpresaId => Check(form.empresaId == 0, EmpresaRequired)
    case DataEmissao => PresentCheck(form.dataEmissao, EmissaoRequired)
    case DataVencimento => PresentCheck(form.dataVencimento, VencimentoRequired)
    case Valor => Check(form.valor == 0, ValorRequired)
    case TipoPagamento => PresentCheck(form.tipoPagamento, TipoRequired)
    case NumeroBoleto => Check(form.tipoPagamento == Boleto && MissingBoleto(form.numeroBoleto), BoletoRequired)
  }

  /** The rules of the form as one function value. */
  function RulesOf(form: Invoice): Field -> Option<string>
  {
    f => FieldCheck(form, f)
  }

  /** The errors `validateForm` records for `form`: one rule per field, each
      reading only its own field, except the boleto number, which is required
      only for payment by boleto. */
  function FieldErrorsOf(form: Invoice): (r: map<Field, string>)
    ensures Descricao in r <==> AllSpace(form.descricao)
    ensures EmpresaId in r <==> form.empresaId == 0
    ensures DataEmissao in r <==> form.dataEmissao == ""
    ensures DataVencimento in r <==> form.dataVencimento == ""
    ensures Valor in r <==> form.valor == 0
    ensures TipoPagamento in r <==> form.tipoPagamento == ""
    ensures NumeroBoleto in r <==> form.tipoPagamento == Boleto && MissingBoleto(form.numeroBoleto)
    ensures Descricao in r ==> r[Descricao] == DescricaoRequired
    ensures EmpresaId in r ==> r[EmpresaId] == EmpresaRequired
    ensures DataEmissao in r ==> r[DataEmissao] == EmissaoRequired
    ensures DataVencimento in r ==> r[DataVencimento] == VencimentoRequired
    ensures Valor in r ==> r[Valor] == ValorRequired
    ensures TipoPagamento in r ==> r[TipoPagamento] == TipoRequired
    ensures NumeroBoleto in r ==> r[NumeroBoleto] == BoletoRequired
  {
    map f | f in AllFields && FieldCheck(form, f).Some? :: FieldCheck(form, f).value
  }

  /** Saving the untouched form is refused: the description, the company,
      the amount and the boleto number get their "required" message, the two
      dates theirs exactly when today's date is empty, and the payment type
      never. */
  lemma UntouchedFormRefused(today: string)
    ensures FieldErrorsOf(InitialForm(today)) ==
      (map[Descricao := DescricaoRequired, EmpresaId := EmpresaRequired, Valor := ValorRequired,
           NumeroBoleto := BoletoRequired] +
       if today == "" then map[DataEmissao := EmissaoRequired, DataVencimento := VencimentoRequired] else map[])
  {
    assert AllSpace("");
  }

  /** The rules applied one at a time in the order of `validateForm` record
      exactly these errors. */
  lemma RulesInOrder(form: Invoice)
    ensures Recorded(RulesOf(form), FieldOrder, |FieldOrder|) == FieldErrorsOf(form)
  {
    RecordedAll(RulesOf(form), FieldOrder);
    forall f: Field
      ensures f in AllFields && f in FieldOrder
    {
      match f
      case Descricao => assert FieldOrder[0] == f;
      case EmpresaId => assert FieldOrder[1] == f;
      case DataEmissao => assert FieldOrder[2] == f;
      case DataVencimento => assert FieldOrder[3] == f;
      case Valor => assert FieldOrder[4] == f;
      case TipoPagamento => assert FieldOrder[5] == f;
      case NumeroBoleto => assert FieldOrder[6] == f;
    }
  }

  /** The form passes exactly when every required field is filled and, for a
      boleto, the boleto number is present. */
  lemma ValidIff(form: Invoice)
    ensures FieldErrorsOf(form) == map[] <==>
      && !AllSpace(form.descricao) && form.empresaId != 0
      && form.dataEmissao != "" && form.dataVencimento != ""
      && form.valor != 0 && form.tipoPagamento != ""
      && (form.tipoPagamento == Boleto ==> !MissingBoleto(form.numeroBoleto))
  {
    var r := FieldErrorsOf(form);
    if r != map[] {
      var f :| f in r;
      assert f == Descricao || f == EmpresaId || f == DataEmissao || f == DataVencimento
        || f == Valor || f == TipoPagamento || f == NumeroBoleto;
    }
  }

  /** `validateForm`: a fresh error set, and the rules of the seven fields
      applied in the order of the source. */
  method Validate(form: Invoice) returns (isValid: bool, fields: map<Field, string>)
    ensures fields == FieldErrorsOf(form)
    ensures isValid <==> fields == map[]
  {
    var rules := RulesOf(form);
    fields := map[];
    isValid := true;
    assert fields == Recorded(rules, FieldOrder, 0);
    fields, isValid := ApplyRule(rules, FieldOrder, 0, 1, fields, isValid);
    fields, isValid := ApplyRule(rules, FieldOrder, 1, 2, fields, isValid);
    fields, isValid := ApplyRule(rules, FieldOrder, 2, 3, fields, isValid);
    fields, isValid := ApplyRule(rules, FieldOrder, 3, 4, fields, isValid);
    fields, isValid := ApplyRule(rules, FieldOrder, 4, 5, fields, isValid);
    fields, isValid := ApplyRule(rules, FieldOrder, 5, 6, fields, isValid);
    fields, isValid := ApplyRule(rules, FieldOrder, 6, |FieldOrder|, fields, isValid);
    RulesInOrder(form);
  }

  /** `handleCurrencyInput`: every non-digit is discarded and the remaining
      digits are read as a number of cents, nothing typed giving 0. */
  function CentsOf(text: string): nat
  {
    DecimalValue(DigitsOnly(text))
  }

  /** Separators, spaces and letters typed into the amount do not count. */
  lemma CentsIgnoresNonDigit(a: string, c: char, b: string)
    requires !IsDigit(c)
    ensures CentsOf(a + [c] + b) == CentsOf(a + b)
  {
    DigitsOnlyAppend(a + [c], b);
    DigitsOnlyAppend(a, [c]);
    DigitsOnlyAppend(a, b);
    assert [c][..0] == [] && [c][0] == c;
    assert DigitsOnly([c]) == [];
    assert DigitsOnly(a + [c]) == DigitsOnly(a);
  }

  /** Typing a digit after the shown amount shifts it one place left: with
      "12,34" shown, typing 5 gives 123,45. */
  lemma CentsTypeDigit(s: string, d: char)
    requires IsDigit(d)
    ensures CentsOf(s + [d]) == 10 * CentsOf(s) + DigitValue(d)
  {
    DigitsOnlyAppend(s, [d]);
    assert [d][..0] == [];
    assert DigitsOnly([d]) == [d];
    var t := DigitsOnly(s) + [d];
    assert t[..|t| - 1] == DigitsOnly(s) && t[|t| - 1] == d;
  }

  /** Deleting the last digit drops the last place of the amount. */
  lemma CentsDeleteDigit(s: string, d: char)
    requires IsDigit(d)
    ensures CentsOf(s) == CentsOf(s + [d]) / 10
  {
    CentsTypeDigit(s, d);
  }

  /** The amount shown in the field, without the thousands grouping of the
      locale: the whole part, a comma and two decimals. */
  function Display(cents: nat): (s: string)
    ensures |s| >= 4 && s[|s| - 3] == ','
  {
    DecimalString(cents / 100) + [',', DigitChar(cents % 100 / 10), DigitChar(cents % 10)]
  }

  /** The whole part, the tens and the units of cents put back together. */
  lemma CentsDigits(cents: nat)
    ensures 10 * (10 * (cents / 100) + cents % 100 / 10) + cents % 10 == cents
  {
    var q, r := cents / 100, cents % 100;
    assert cents == 100 * q + r;
    assert r == 10 * (r / 10) + r % 10;
    assert cents % 10 == r % 10;
  }

  /** Reading the shown amount back gives the same amount, so an untouched
      field is stable from one render to the next. */
  lemma DisplayReadsBack(cents: nat)
    ensures CentsOf(Display(cents)) == cents
  {
    var w := DecimalString(cents / 100);
    var hi := DigitChar(cents % 100 / 10);
    var lo := DigitChar(cents % 10);
    assert Display(cents) == w + [','] + [hi, lo];
    CentsIgnoresNonDigit(w, ',', [hi, lo]);
    assert w + [hi, lo] == (w + [hi]) + [lo];
    CentsTypeDigit(w + [hi], lo);
    CentsTypeDigit(w, hi);
    DigitsOnlyOfDigits(w);
    DecimalRoundTrip(cents / 100);
    assert CentsOf(w) == cents / 100;
    assert CentsOf(w + [hi]) == 10 * (cents / 100) + cents % 100 / 10;
    CentsDigits(cents);
  }

  /** One user action on the form: typing into one of the text inputs
      (`handleChange`), choosing in one of the selects (`handleSelectChange`),
      or typing into the amount (`handleCurrencyInput`, given the new text of
      the input). */
  datatype Edit =
    | TypeDescricao(text: string)
    | TypeDataEmissao(text: string)
    | TypeDataVencimento(text: string)
    | TypeNumeroBoleto(text: string)
    | SelectEmpresa(companyId: int)
    | SelectTipo(text: string)
    | SelectStatus(text: string)
    | TypeValor(text: string)

  /** The form data after an action. */
  function ApplyEdit(form: Invoice, e: Edit): Invoice
  {
    match e
    case TypeDescricao(t) => form.(descricao := t)
    case TypeDataEmissao(t) => form.(dataEmissao := t)
    case TypeDataVencimento(t) => form.(dataVencimento := t)
    case TypeNumeroBoleto(t) => form.(numeroBoleto := Some(t))
    case SelectEmpresa(c) => form.(empresaId := c)
    case SelectTipo(t) => form.(tipoPagamento := t)
    case SelectStatus(t) => form.(status := t)
    case TypeValor(t) => form.(valor := CentsOf(t))
  }

  /** The error key an action clears; the status has none. */
  function ClearedKey(e: Edit): Option<Field>
  {
    match e
    case TypeDescricao(_) => Some(Descricao)
    case TypeDataEmissao(_) => Some(DataEmissao)
    case TypeDataVencimento(_) => Some(DataVencimento)
    case TypeNumeroBoleto(_) => Some(NumeroBoleto)
    case SelectEmpresa(_) => Some(EmpresaId)
    case SelectTipo(_) => Some(TipoPagamento)
    case SelectStatus(_) => None
    case TypeValor(_) => Some(Valor)
  }

  /** The errors after an action: only the acted-on field's message goes,
      every other message and the general one stay. */
  function ClearError(errors: FormErrors, e: Edit): (r: FormErrors)
    ensures r.general == errors.general
    ensures forall f :: f in r.fields <==> f in errors.fields && Some(f) != ClearedKey(e)
    ensures forall f :: f in r.fields ==> r.fields[f] == errors.fields[f]
  {
    match ClearedKey(e)
    case Some(f) => errors.(fields := errors.fields - {f})
    case None => errors
  }

  /** The rules are local: an action changes the validation verdict only of
      the field it acts on, and a payment-type choice also that of the boleto
      number. So clearing just that message on edit never hides a message the
      new data would still deserve on another field. */
  lemma EditIsLocal(form: Invoice, e: Edit, f: Field)
    requires Some(f) != ClearedKey(e)
    requires e.SelectTipo? ==> f != NumeroBoleto
    ensures (f in FieldErrorsOf(ApplyEdit(form, e))) <==> (f in FieldErrorsOf(form))
  {
  }

  /** A typed amount with at least one non-zero digit clears the amount rule;
      one without any (nothing, or only zeros and separators) fails it. */
  lemma TypedValorRule(form: Invoice, t: string)
    ensures Valor in FieldErrorsOf(ApplyEdit(form, TypeValor(t))) <==> CentsOf(t) == 0
  {
  }

  /** The save request of a valid submit. */
  datatype SaveRequest = Put(path: string, body: Invoice) | Post(path: string, body: Invoice)

  /** `notaFiscal?.id`: the edited invoice has a non-zero id. */
  predicate Existing(notaFiscal: Option<Invoice>)
  {
    notaFiscal.Some? && notaFiscal.value.id.Some? && notaFiscal.value.id.value != 0
  }

  /** PUT `/notas/{id}` for an existing invoice, POST `/notas` otherwise; the
      body is always the form data. */
  function SaveRequestFor(notaFiscal: Option<Invoice>, form: Invoice): (r: SaveRequest)
    ensures r.body == form
    ensures r.Put? <==> Existing(notaFiscal)
    ensures r.Post? ==> r.path == CollectionPath
    ensures r.Put? ==> r.path == CollectionPath + "/" + IntText(notaFiscal.value.id.value)
  {
    if Existing(notaFiscal) then Put(CollectionPath + "/" + IntText(notaFiscal.value.id.value), form)
    else Post(CollectionPath, form)
  }

  /** The PUT path names the edited invoice: different ids give different
      paths, and no PUT path is the collection path. */
  lemma PutPathIdentifies(a: Option<Invoice>, b: Option<Invoice>, form: Invoice)
    requires Existing(a) && Existing(b)
    ensures SaveRequestFor(a, form).path == SaveRequestFor(b, form).path ==> a.value.id == b.value.id
    ensures SaveRequestFor(a, form).path != CollectionPath
    ensures SaveRequestFor(a, form).path[..|CollectionPath| + 1] == CollectionPath + "/"
  {
    var pa := SaveRequestFor(a, form).path;
    var pb := SaveRequestFor(b, form).path;
    if pa == pb {
      assert pa[7..] == IntText(a.value.id.value);
      assert pb[7..] == IntText(b.value.id.value);
      IntTextInjective(a.value.id.value, b.value.id.value);
    }
    assert |pa| > |CollectionPath|;
  }

  /** The form component. `notaFiscal` is its prop; `location` records the
      `router.push` target. */
  class FormPage {
    const notaFiscal: Option<Invoice>
    var companies: seq<Company>
    var formData: Invoice
    var errors: FormErrors
    var isSubmitting: bool
    var isLoading: bool
    var location: Option<string>

    constructor (notaFiscal: Option<Invoice>, today: string)
      ensures this.notaFiscal == notaFiscal && companies == []
      ensures formData == InitialForm(today) && errors == NoErrors
      ensures !isSubmitting && isLoading && location == None
    {
      this.notaFiscal := notaFiscal;
      companies := [];
      formData := InitialForm(today);
      errors := NoErrors;
      isSubmitting := false;
      isLoading := true;
      location := None;
    }

    /** `fetchCompanies`, given the backend's answer: the list on success,
      the old (empty) list on failure, and not loading either way. */
    method LoadCompanies(reply: Reply<seq<Company>>)
      modifies this
      ensures companies == (if reply.Ok? then reply.data else old(companies))
      ensures !isLoading
      ensures formData == old(formData) && errors == old(errors)
      ensures isSubmitting == old(isSubmitting) && location == old(location)
    {
      if reply.Ok? {
        companies := reply.data;
      }
      isLoading := false;
    }

    /** The effect on `notaFiscal`: an invoice given to edit replaces the form data. */
    method SyncProp()
      modifies this
      ensures formData == (if notaFiscal.Some? then notaFiscal.value else old(formData))
      ensures companies == old(companies) && errors == old(errors)
      ensures isSubmitting == old(isSubmitting) && isLoading == old(isLoading) && location == old(location)
    {
      if notaFiscal.Some? {
        formData := notaFiscal.value;
      }
    }

    /** One action on the form: its field changes and only its own message
      is cleared. */
    method HandleEdit(e: Edit)
      modifies this
      ensures formData == ApplyEdit(old(formData), e)
      ensures errors == ClearError(old(errors), e)
      ensures companies == old(companies)
      ensures isSubmitting == old(isSubmitting) && isLoading == old(isLoading) && location == old(location)
    {
      formData := ApplyEdit(formData, e);
      var key := ClearedKey(e);
      if key.Some? && key.value in errors.fields {
        errors := errors.(fields := errors.fields - {key.value});
      }
    }

    /** `validateForm`: the errors are replaced wholesale, so a previous
      general message is dropped too. */
    method ValidateForm() returns (isValid: bool)
      modifies this
      ensures errors == FormErrors(FieldErrorsOf(formData), None)
      ensures isValid <==> FieldErrorsOf(formData) == map[]
      ensures formData == old(formData) && companies == old(companies)
      ensures isSubmitting == old(isSubmitting) && isLoading == old(isLoading) && location == old(location)
    {
      var fields;
      isValid, fields := Validate(formData);
      errors := FormErrors(fields, None);
    }

    /** `handleSubmit` up to the `await`: an invalid form gets the general
      message and no request; a valid one starts submitting and yields the
      request to send. */
    method BeginSubmit() returns (request: Option<SaveRequest>)
      modifies this
      ensures FieldErrorsOf(formData) != map[] ==>
        request.None? && errors == FormErrors(FieldErrorsOf(formData), Some(GeneralError)) &&
        isSubmitting == old(isSubmitting)
      ensures FieldErrorsOf(formData) == map[] ==>
        request == Some(SaveRequestFor(notaFiscal, formData)) && errors == NoErrors && isSubmitting
      ensures formData == old(formData) && companies == old(companies)
      ensures isLoading == old(isLoading) && location == old(location)
    {
      var isValid := ValidateForm();
      if !isValid {
        errors := errors.(general := Some(GeneralError));
        request := None;
        return;
      }
      isSubmitting := true;
      request := Some(SaveRequestFor(notaFiscal, formData));
    }

    /** `handleSubmit` after the `await`: back to the list on success, the
      save message on failure, and no longer submitting either way. */
    method FinishSubmit(reply: Reply<()>)
      modifies this
      ensures !isSubmitting
      ensures reply.Ok? ==> location == Some(ListRoute) && errors == old(errors)
      ensures reply.Failed? ==> errors == old(errors).(general := Some(SaveError)) && location == old(location)
      ensures formData == old(formData) && companies == old(companies) && isLoading == old(isLoading)
    {
      if reply.Ok? {
        location := Some(ListRoute);
      } else {
        errors := errors.(general := Some(SaveError));
      }
      isSubmitting := false;
    }

    /** A whole `handleSubmit`, given the backend's answer to the save. */
    method HandleSubmit(reply: Reply<()>) returns (request: Option<SaveRequest>)
      modifies this
      ensures request.Some? <==> FieldErrorsOf(old(formData)) == map[]
      ensures request.Some? ==> request.value == SaveRequestFor(notaFiscal, formData) && !isSubmitting
      ensures request.None? ==>
        errors == FormErrors(FieldErrorsOf(formData), Some(GeneralError)) &&
        isSubmitting == old(isSubmitting) && location == old(location)
      ensures request.Some? && reply.Ok? ==> location == Some(ListRoute) && errors == NoErrors
      ensures request.Some? && reply.Failed? ==>
        errors == NoErrors.(general := Some(SaveError)) && location == old(location)
      ensures formData == old(formData) && companies == old(companies) && isLoading == old(isLoading)
    {
      request := BeginSubmit();
      if request.Some? {
        FinishSubmit(reply);
      }
    }
  }
}
