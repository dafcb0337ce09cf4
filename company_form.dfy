/** The company registration form (app/empresas/form.tsx): its schema of
    required fields and of the CNPJ, phone and email patterns, the message
    each field gets, the banner, and the simulated submit. */
module CompanyForm {
  import opened Wrappers
  import opened Text
  import Rules

  /** The form's values; `phone` and `email` are optional. */
  datatype CompanyData = CompanyData(
    name: string, cnpj: string, address: string, city: string, state: string,
    phone: Option<string>, email: Option<string>)

  datatype Field = Name | Cnpj | Address | City | State | Phone | Email

  const NameRequired: string := "Nome da empresa \U{00E9} obrigat\U{00F3}rio"
  const CnpjRequired: string := "CNPJ \U{00E9} obrigat\U{00F3}rio"
  const CnpjFormat: string := "CNPJ deve estar no formato 00.000.000/0000-00"
  const AddressRequired: string := "Endere\U{00E7}o \U{00E9} obrigat\U{00F3}rio"
  const CityRequired: string := "Cidade \U{00E9} obrigat\U{00F3}ria"
  const StateRequired: string := "Estado \U{00E9} obrigat\U{00F3}rio"
  const PhoneFormat: string := "Telefone deve estar no formato (00) 90000-0000"
  const EmailInvalid: string := "Email inv\U{00E1}lido"
  const ListRoute: string := "/empresas"

  /** A fixed-layout pattern: `#` stands for `\d`, every other character for
      itself. */
  predicate MatchesMask(s: string, mask: string)
  {
    |s| == |mask| && forall i :: 0 <= i < |s| ==> if mask[i] == '#' then IsDigit(s[i]) else s[i] == mask[i]
  }

  /** `/^\d{2}\.\d{3}\.\d{3}\/\d{4}-\d{2}$/` */
  const CnpjMask: string := "##.###.###/####-##"

  /** `/^\(\d{2}\) \d{5}-\d{4}$/` */
  const PhoneMask: string := "(##) #####-####"

  /** A CNPJ in the format is 18 characters long with its 14 digits at fixed
      places; a phone is 15 characters long. Neither can be empty. */
  lemma MaskLengths(s: string)
    ensures MatchesMask(s, CnpjMask) ==> |s| == 18 && s[2] == '.' && s[6] == '.' && s[10] == '/' && s[15] == '-'
    ensures MatchesMask(s, PhoneMask) ==> |s| == 15 && s[0] == '(' && s[3] == ')' && s[4] == ' ' && s[10] == '-'
    ensures !MatchesMask("", CnpjMask) && !MatchesMask("", PhoneMask)
  {
    assert |CnpjMask| == 18 && CnpjMask[2] == '.' && CnpjMask[6] == '.' && CnpjMask[10] == '/' && CnpjMask[15] == '-';
    assert |PhoneMask| == 15 && PhoneMask[0] == '(' && PhoneMask[3] == ')' && PhoneMask[4] == ' ' && PhoneMask[10] == '-';
  }

  /** A formatted CNPJ and a mobile number are accepted; the bare digits, a
      landline number with four digits before the dash, and an unformatted
      phone are not. */
  lemma MaskExamples()
    ensures MatchesMask("12.345.678/0001-90", CnpjMask)
    ensures !MatchesMask("12345678000190", CnpjMask)
    ensures MatchesMask("(11) 91234-5678", PhoneMask)
    ensures !MatchesMask("(11) 1234-5678", PhoneMask)
    ensures !MatchesMask("11912345678", PhoneMask)
  {
  }

  /** `[^\s@]`: neither white space nor `@`. */
  predicate Plain(c: char)
  {
    !IsSpace(c) && c != '@'
  }

  predicate AllPlain(t: string)
  {
    forall i :: 0 <= i < |t| ==> Plain(t[i])
  }

  /** `/^[^\s@]+@[^\s@]+\.[^\s@]+$/` as written: a non-empty plain part, the
      `@` at `a`, a non-empty plain part, the `.` at `k`, a non-empty plain part. */
  predicate EmailPattern(s: string)
  {
    exists a: nat, k: nat :: 0 < a < k - 1 && k < |s| - 1 && s[a] == '@' && s[k] == '.' &&
      AllPlain(s[..a]) && AllPlain(s[a + 1..k]) && AllPlain(s[k + 1..])
  }

  /** The same rule stated on the whole text: no white space, exactly one
      `@`, something before it, and after it a `.` that is neither the first
      nor the last character of the domain. */
  predicate EmailShape(s: string)
  {
    && (forall i :: 0 <= i < |s| ==> !IsSpace(s[i]))
    && (exists a ::
          && 0 < a < |s| && s[a] == '@'
          && (forall i :: 0 <= i < |s| && s[i] == '@' ==> i == a)
          && (exists k :: a + 1 < k < |s| - 1 && s[k] == '.'))
  }

  /** A slice is plain exactly when each of its characters is. */
  lemma AllPlainSlice(s: string, lo: nat, hi: nat)
    requires lo <= hi <= |s|
    ensures AllPlain(s[lo..hi]) <==> forall i :: lo <= i < hi ==> Plain(s[i])
  {
    assert forall j :: 0 <= j < hi - lo ==> s[lo..hi][j] == s[lo + j];
  }

  /** Every text the pattern accepts has the shape. */
  lemma PatternGivesShape(s: string, a: nat, k: nat)
    requires 0 < a < k - 1 && k < |s| - 1 && s[a] == '@' && s[k] == '.'
    requires AllPlain(s[..a]) && AllPlain(s[a + 1..k]) && AllPlain(s[k + 1..])
    ensures EmailShape(s)
  {
    assert s[..a] == s[0..a] && s[k + 1..] == s[k + 1..|s|];
    AllPlainSlice(s, 0, a);
    AllPlainSlice(s, a + 1, k);
    AllPlainSlice(s, k + 1, |s|);
    assert forall i :: 0 <= i < |s| && i != a && i != k ==> Plain(s[i]);
    assert !IsSpace(s[a]) && !IsSpace(s[k]);
  }

  /** Every text of the shape is accepted by the pattern. */
  lemma ShapeGivesPattern(s: string)
    requires EmailShape(s)
    ensures EmailPattern(s)
  {
    var a :| 0 < a < |s| && s[a] == '@'
      && (forall i :: 0 <= i < |s| && s[i] == '@' ==> i == a)
      && (exists k :: a + 1 < k < |s| - 1 && s[k] == '.');
    var k :| a + 1 < k < |s| - 1 && s[k] == '.';
    assert forall i :: 0 <= i < |s| && i != a ==> Plain(s[i]);
    assert s[..a] == s[0..a] && s[k + 1..] == s[k + 1..|s|];
    AllPlainSlice(s, 0, a);
    AllPlainSlice(s, a + 1, k);
    AllPlainSlice(s, k + 1, |s|);
    var a': nat, k': nat := a, k;
    assert 0 < a' < k' - 1 && k' < |s| - 1 && s[a'] == '@' && s[k'] == '.'
      && AllPlain(s[..a']) && AllPlain(s[a' + 1..k']) && AllPlain(s[k' + 1..]);
  }

  lemma EmailPatternIff(s: string)
    ensures EmailPattern(s) <==> EmailShape(s)
  {
    if EmailPattern(s) {
      var a: nat, k: nat :| 0 < a < k - 1 && k < |s| - 1 && s[a] == '@' && s[k] == '.' &&
        AllPlain(s[..a]) && AllPlain(s[a + 1..k]) && AllPlain(s[k + 1..]);
      PatternGivesShape(s, a, k);
    }
    if EmailShape(s) {
      ShapeGivesPattern(s);
    }
  }

  /** A typical address has the shape. */
  lemma EmailAccepted()
    ensures EmailShape("contato@empresa.com")
  {
    var s := "contato@empresa.com";
    assert s[7] == '@' && s[15] == '.';
    assert forall i :: 0 <= i < |s| && s[i] == '@' ==> i == 7;
  }

  /** No dot in the domain, nothing before `@`, two `@`, a space, or a dot
      right after `@`: all refused. */
  lemma EmailRefused()
    ensures !EmailShape("contato@empresa") && !EmailShape("@empresa.com")
    ensures !EmailShape("a@b@c.com") && !EmailShape("a b@c.com") && !EmailShape("a@.com")
  {
    var t := "a@b@c.com";
    assert t[1] == '@' && t[3] == '@';
    var u := "a b@c.com";
    assert u[1] == ' ';
    var v := "a@.com";
    assert v[1] == '@' && v[3] == 'c' && v[4] == 'o';
  }

  /** `cnpj`: the emptiness check comes first, so an empty CNPJ gets the
      "required" message, never the format one. */
  function CnpjCheck(v: string): (r: Option<string>)
    ensures r.None? <==> MatchesMask(v, CnpjMask)
    ensures v == "" ==> r == Some(CnpjRequired)
    ensures v != "" && r.Some? ==> r == Some(CnpjFormat)
  {
    MaskLengths(v);
    if v == "" then Some(CnpjRequired) else if !MatchesMask(v, CnpjMask) then Some(CnpjFormat) else None
  }

  /** `!val || pattern.test(val)`: absent and empty pass. */
  function OptionalCheck(v: Option<string>, ok: string -> bool, message: string): (r: Option<string>)
    ensures r.None? <==> v.None? || v.value == "" || ok(v.value)
    ensures r.Some? ==> r.value == message
  {
    if v.None? || v.value == "" || ok(v.value) then None else Some(message)
  }

  const AllFields: set<Field> := {Name, Cnpj, Address, City, State, Phone, Email}

  /** The check of one field of the schema. */
  function FieldCheck(d: CompanyData, f: Field): Option<string>
  {
    match f
    case Name => Rules.PresentCheck(d.name, NameRequired)
    case Cnpj => CnpjCheck(d.cnpj)
    case Address => Rules.PresentCheck(d.address, AddressRequired)
    case City => Rules.PresentCheck(d.city, CityRequired)
    case State => Rules.PresentCheck(d.state, StateRequired)
    case Phone => OptionalCheck(d.phone, s => MatchesMask(s, PhoneMask), PhoneFormat)
    case Email => OptionalCheck(d.email, EmailPattern, EmailInvalid)
  }

  /** The errors of the form, one message per failing field. */
  function ErrorsOf(d: CompanyData): (r: map<Field, string>)
    ensures Name in r <==> d.name == ""
    ensures Cnpj in r <==> !MatchesMask(d.cnpj, CnpjMask)
    ensures Address in r <==> d.address == ""
    ensures City in r <==> d.city == ""
    ensures State in r <==> d.state == ""
    ensures Phone in r <==> d.phone.Some? && d.phone.value != "" && !MatchesMask(d.phone.value, PhoneMask)
    ensures Email in r <==> d.email.Some? && d.email.value != "" && !EmailPattern(d.email.value)
    ensures Name in r ==> r[Name] == NameRequired
    ensures Cnpj in r ==> r[Cnpj] == (if d.cnpj == "" then CnpjRequired else CnpjFormat)
    ensures Address in r ==> r[Address] == AddressRequired
    ensures City in r ==> r[City] == CityRequired
    ensures State in r ==> r[State] == StateRequired
    ensures Phone in r ==> r[Phone] == PhoneFormat
    ensures Email in r ==> r[Email] == EmailInvalid
  {
    map f | f in AllFields && FieldCheck(d, f).Some? :: FieldCheck(d, f).value
  }

  /** `Object.keys(errors).length > 0` */
  predicate ShowsBanner(errors: map<Field, string>)
  {
    |errors.Keys| > 0
  }

  /** The banner is shown exactly when some field fails its rule. */
  lemma BannerIff(d: CompanyData)
    ensures ShowsBanner(ErrorsOf(d)) <==>
      || d.name == "" || !MatchesMask(d.cnpj, CnpjMask) || d.address == "" || d.city == "" || d.state == ""
      || (d.phone.Some? && d.phone.value != "" && !MatchesMask(d.phone.value, PhoneMask))
      || (d.email.Some? && d.email.value != "" && !EmailShape(d.email.value))
  {
    var r := ErrorsOf(d);
    if d.email.Some? {
      EmailPatternIff(d.email.value);
    }
    if r != map[] {
      var f :| f in r;
      assert f in r.Keys;
    } else {
      assert r.Keys == {};
    }
  }

  /** Nothing is trimmed: a name, address, city or state of white space
      only passes. */
  lemma BlankTextPasses(d: CompanyData)
    requires d.name == " " && d.address == " " && d.city == " " && d.state == " "
    ensures Name !in ErrorsOf(d) && Address !in ErrorsOf(d) && City !in ErrorsOf(d) && State !in ErrorsOf(d)
  {
  }

  /** What a submit does: the validated data goes to the simulated save,
      which ends on the company list; otherwise the errors are shown. */
  datatype Outcome = ShowErrors(errors: map<Field, string>) | Navigate(target: string)

  /** `handleSubmit(onSubmit)`: `onSubmit` runs only on valid data. */
  function Submit(d: CompanyData): (o: Outcome)
    ensures o.Navigate? <==> !ShowsBanner(ErrorsOf(d))
    ensures o.Navigate? ==> o.target == ListRoute
    ensures o.ShowErrors? ==> o.errors == ErrorsOf(d) && ShowsBanner(o.errors)
  {
    var e := ErrorsOf(d);
    if e == map[] then Navigate(ListRoute)
    else
      assert exists f :: f in e.Keys;
      ShowErrors(e)
  }
}
