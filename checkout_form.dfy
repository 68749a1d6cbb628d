/**
 * components/checkout/checkout-form.tsx: the zod schema that gates the
 * checkout form, and the order input that `onSubmit` builds from it.
 */
module CheckoutForm {
  import opened Types
  import OrderActions

  /** The form's values, one per registered field. */
  datatype CheckoutFormValues = CheckoutFormValues(
    recipient: string,
    phone: string,
    postalCode: string,
    address1: string,
    address2: Option<string>,
    orderNote: Option<string>)

  /** One failed check of the schema; each carries its own message in the form. */
  datatype Issue =
    | RecipientEmpty   // recipient: min(1)
    | PhoneEmpty       // phone: min(1)
    | PhoneFormat      // phone: /^[0-9-]+$/
    | PostalEmpty      // postalCode: min(1)
    | PostalFormat     // postalCode: /^[0-9]{5}$/
    | Address1Empty    // address1: min(1)

  function When(failed: bool, issue: Issue): set<Issue> {
    if failed then {issue} else {}
  }

  /**
   * Every check of the schema that fails; zod runs all the checks of a
   * field, so an empty phone fails both its length and its pattern.
   */
  function SchemaIssues(f: CheckoutFormValues): (issues: set<Issue>)
    ensures RecipientEmpty in issues <==> f.recipient == []
    ensures PhoneEmpty in issues <==> f.phone == []
    ensures PhoneFormat in issues <==> !IsPhone(f.phone)
    ensures PostalEmpty in issues <==> f.postalCode == []
    ensures PostalFormat in issues <==> !IsPostalCode(f.postalCode)
    ensures Address1Empty in issues <==> f.address1 == []
  {
    When(|f.recipient| < 1, RecipientEmpty)
      + When(|f.phone| < 1, PhoneEmpty) + When(!IsPhone(f.phone), PhoneFormat)
      + When(|f.postalCode| < 1, PostalEmpty) + When(!IsPostalCode(f.postalCode), PostalFormat)
      + When(|f.address1| < 1, Address1Empty)
  }

  /** The schema lets the form be submitted. */
  predicate SchemaAccepts(f: CheckoutFormValues) {
    SchemaIssues(f) == {}
  }

  /** `onSubmit`: the field-by-field copy into `CreateOrderInput`. */
  function ToOrderInput(f: CheckoutFormValues): (input: CreateOrderInput)
    ensures FormOf(input) == f
  {
    CreateOrderInput(ShippingAddress(f.recipient, f.phone, f.postalCode, f.address1, f.address2), f.orderNote)
  }

  /** The form values an order input was copied from. */
  function FormOf(input: CreateOrderInput): (f: CheckoutFormValues)
  {
    var a := input.shippingAddress;
    CheckoutFormValues(a.recipient, a.phone, a.postalCode, a.address1, a.address2, input.orderNote)
  }

  /** The copy is a bijection: every order input is the copy of exactly one form. */
  lemma {:induction false} CopyIsBijective(input: CreateOrderInput)
    ensures ToOrderInput(FormOf(input)) == input
  {
  }

  /**
   * The client schema and the server's address checks agree: the schema
   * accepts a form exactly when the server finds no shipping problem in the
   * order input built from it.
   */
  lemma {:induction false} SchemaAgreesWithServer(f: CheckoutFormValues)
    ensures SchemaAccepts(f) <==> OrderActions.ShippingProblem(ToOrderInput(f).shippingAddress).None?
  {
    var issues := SchemaIssues(f);
    if issues == {} {
      assert RecipientEmpty !in issues && PhoneFormat !in issues;
      assert PostalFormat !in issues && Address1Empty !in issues;
    } else {
      var i :| i in issues;
      assert i.RecipientEmpty? || i.PhoneEmpty? || i.PhoneFormat? || i.PostalEmpty? || i.PostalFormat? || i.Address1Empty?;
    }
  }

  /**
   * The server reports the address as incomplete exactly when the schema
   * finds an empty field; a form with only a pattern issue gets the
   * server's phone or postal-code failure instead.
   */
  lemma {:induction false} EmptyFieldIssuesMatchServer(f: CheckoutFormValues)
    ensures var issues := SchemaIssues(f);
      OrderActions.ShippingProblem(ToOrderInput(f).shippingAddress) == Some(MissingShippingInfo) <==>
        RecipientEmpty in issues || PhoneEmpty in issues || PostalEmpty in issues || Address1Empty in issues
    ensures var issues := SchemaIssues(f);
      OrderActions.ShippingProblem(ToOrderInput(f).shippingAddress) == Some(InvalidPhone) <==>
        PhoneFormat in issues && !(RecipientEmpty in issues || PhoneEmpty in issues || PostalEmpty in issues || Address1Empty in issues)
  {
  }
}
