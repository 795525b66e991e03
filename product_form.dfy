/**
 * The add-product form: the field rules of its schema, the default values, the
 * image field set by the uploader, and submission, which reaches
 * `createProduct` only with values that pass every rule.
 */
module ProductForm {
  import opened Wrappers

  /** The form's values; `price` is None when it is not a number (the coerced `undefined`). */
  datatype FormValues = FormValues(
    name: string,
    description: string,
    price: Option<real>,
    category: string,
    color: string,
    image: string)

  /** The product handed to `createProduct`. */
  datatype NewProduct = NewProduct(
    name: string,
    description: string,
    price: real,
    category: string,
    color: string,
    image: string)

  datatype FieldError =
    | NameTooShort
    | DescriptionTooShort
    | PriceNotANumber
    | PriceNotPositive
    | CategoryMissing
    | ColorMissing
    | ImageMissing

  /** The message shown under the field. */
  function Message(e: FieldError): string
  {
    match e
    case NameTooShort => "Name must be at least 2 characters"
    case DescriptionTooShort => "Description must be at least 10 characters"
    case PriceNotANumber => "Expected number, received nan"
    case PriceNotPositive => "Price must be a positive number"
    case CategoryMissing => "Please select a category"
    case ColorMissing => "Please select a color"
    case ImageMissing => "Please upload an image"
  }

  /** Each message names exactly one rule, so a shown message tells which rule failed. */
  lemma MessageIdentifiesError(e1: FieldError, e2: FieldError)
    ensures Message(e1) == Message(e2) <==> e1 == e2
  {
  }

  predicate NameOk(name: string) { |name| >= 2 }
  predicate DescriptionOk(description: string) { |description| >= 10 }
  predicate PriceOk(price: Option<real>) { price.Some? && price.value > 0.0 }
  predicate SelectedOk(value: string) { |value| >= 1 }

  /** The schema as a whole: every field rule holds. */
  predicate Valid(v: FormValues)
  {
    && NameOk(v.name)
    && DescriptionOk(v.description)
    && PriceOk(v.price)
    && SelectedOk(v.category)
    && SelectedOk(v.color)
    && SelectedOk(v.image)
  }

  /** No error appears twice. */
  predicate Distinct(errors: seq<FieldError>)
  {
    forall i, j :: 0 <= i < j < |errors| ==> errors[i] != errors[j]
  }

  /** Whether the rule behind error `e` fails for `v`. */
  predicate Fails(v: FormValues, e: FieldError)
  {
    match e
    case NameTooShort => !NameOk(v.name)
    case DescriptionTooShort => !DescriptionOk(v.description)
    case PriceNotANumber => v.price.None?
    case PriceNotPositive => v.price.Some? && v.price.value <= 0.0
    case CategoryMissing => !SelectedOk(v.category)
    case ColorMissing => !SelectedOk(v.color)
    case ImageMissing => !SelectedOk(v.image)
  }

  /** The position in the schema of the field an error belongs to. */
  function Field(e: FieldError): nat
  {
    match e
    case NameTooShort => 0
    case DescriptionTooShort => 1
    case PriceNotANumber => 2
    case PriceNotPositive => 2
    case CategoryMissing => 3
    case ColorMissing => 4
    case ImageMissing => 5
  }

  /** Errors listed field by field, in the schema's order, at most one per field. */
  predicate InFieldOrder(errors: seq<FieldError>)
  {
    forall i, j :: 0 <= i < j < |errors| ==> Field(errors[i]) < Field(errors[j])
  }

  /**
   * The schema's fields in order, each with the error it can report for `v`;
   * the price field reports "not a number" or "not positive" depending on
   * whether a number was given.
   */
  function SchemaOrder(v: FormValues): (es: seq<FieldError>)
    ensures |es| == 6
    ensures forall i :: 0 <= i < 6 ==> Field(es[i]) == i
    ensures forall e :: e in es <==> (e.PriceNotANumber? ==> v.price.None?) && (e.PriceNotPositive? ==> v.price.Some?)
    ensures InFieldOrder(es) && Distinct(es)
  {
    [NameTooShort, DescriptionTooShort, if v.price.None? then PriceNotANumber else PriceNotPositive,
     CategoryMissing, ColorMissing, ImageMissing]
  }

  /** A head that is not in a repeat-free tail keeps the list repeat-free. */
  lemma PrependDistinct(x: FieldError, rest: seq<FieldError>)
    requires x !in rest && Distinct(rest)
    ensures Distinct([x] + rest)
  {
  }

  /** A head whose field comes before every field of an ordered tail keeps the list ordered. */
  lemma PrependInFieldOrder(x: FieldError, rest: seq<FieldError>)
    requires forall e :: e in rest ==> Field(x) < Field(e)
    requires InFieldOrder(rest)
    ensures InFieldOrder([x] + rest)
  {
  }

  /** The errors among `es` whose rules fail, in the order of `es`. */
  function Failing(v: FormValues, es: seq<FieldError>): (r: seq<FieldError>)
    ensures forall e :: e in r <==> e in es && Fails(v, e)
    ensures Distinct(es) ==> Distinct(r)
    ensures InFieldOrder(es) ==> InFieldOrder(r)
    ensures |r| <= |es|
  {
    if es == [] then []
    else
      var rest := Failing(v, es[1..]);
      if Fails(v, es[0]) then
        assert Distinct(es) ==> Distinct([es[0]] + rest) by {
          if Distinct(es) {
            assert es[0] !in es[1..] && Distinct(es[1..]);
            PrependDistinct(es[0], rest);
          }
        }
        assert InFieldOrder(es) ==> InFieldOrder([es[0]] + rest) by {
          if InFieldOrder(es) {
            assert InFieldOrder(es[1..]);
            assert forall e :: e in es[1..] ==> Field(es[0]) < Field(e);
            PrependInFieldOrder(es[0], rest);
          }
        }
        [es[0]] + rest
      else
        assert Distinct(es) ==> Distinct(es[1..]);
        assert InFieldOrder(es) ==> InFieldOrder(es[1..]);
        rest
  }

  /** Parsing against the schema: one error per failing field, none repeated, in the schema's field order. */
  function Errors(v: FormValues): (r: seq<FieldError>)
    ensures NameTooShort in r <==> |v.name| < 2
    ensures DescriptionTooShort in r <==> |v.description| < 10
    ensures PriceNotANumber in r <==> v.price.None?
    ensures PriceNotPositive in r <==> v.price.Some? && v.price.value <= 0.0
    ensures CategoryMissing in r <==> v.category == ""
    ensures ColorMissing in r <==> v.color == ""
    ensures ImageMissing in r <==> v.image == ""
    ensures r == [] <==> Valid(v)
    ensures Distinct(r) && InFieldOrder(r)
    ensures |r| <= 6
  {
    var es := SchemaOrder(v);
    var r := Failing(v, es);
    assert r == [] <==> Valid(v) by {
      assert es[0] in es && es[1] in es && es[2] in es && es[3] in es && es[4] in es && es[5] in es;
      if r != [] {
        assert r[0] in r && Fails(v, r[0]);
      }
    }
    r
  }

  /** `defaultValues`: empty strings and no price; every field fails. */
  function DefaultValues(): (v: FormValues)
    ensures !Valid(v)
    ensures |Errors(v)| == 6
  {
    FormValues("", "", None, "", "", "")
  }

  /** `handleImageUploaded`: the image field takes the uploaded URL; nothing else changes. */
  function HandleImageUploaded(v: FormValues, url: string): (r: FormValues)
    ensures r.image == url
    ensures r.(image := v.image) == v
    ensures url == "" ==> !Valid(r)
    ensures Valid(r) <==> Valid(v.(image := "x")) && url != ""
  {
    v.(image := url)
  }

  datatype SubmitOutcome = Blocked(errors: seq<FieldError>) | Created(product: NewProduct)

  /** `form.handleSubmit(onSubmit)`: `onSubmit`, and so `createProduct`, runs only for valid values. */
  function HandleSubmit(v: FormValues): (r: SubmitOutcome)
    ensures r.Created? <==> Valid(v)
    ensures r.Blocked? ==> r.errors == Errors(v) && r.errors != []
    ensures r.Created? ==> r.product.price > 0.0 && |r.product.name| >= 2 && |r.product.description| >= 10
                           && r.product.name == v.name && r.product.description == v.description
                           && Some(r.product.price) == v.price && r.product.category == v.category
                           && r.product.color == v.color && r.product.image == v.image
  {
    var errors := Errors(v);
    if errors == [] then
      Created(NewProduct(v.name, v.description, v.price.value, v.category, v.color, v.image))
    else
      Blocked(errors)
  }
}
