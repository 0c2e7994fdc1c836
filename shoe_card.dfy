/**
 * The variant decision of the shoe card component: which of three highlight
 * variants a card shows, and the style record it takes from the static
 * `VARIANT_STYLES` table, including the guard that fails on a missing record.
 */
module ShoeCard {
  import opened JsValues

  /** The three highlight variants a card can take. */
  datatype Variant = OnSale | NewRelease | Default

  /** The property name under which a variant's style is stored in the table. */
  function Tag(v: Variant): (s: string)
    ensures s in VariantStylesTable
  {
    match v
    case OnSale => "on-sale"
    case NewRelease => "new-release"
    case Default => "default"
  }

  /**
   * A background colour: either a CSS keyword or an entry of the site's colour
   * palette (`COLORS.primary`, `COLORS.secondary`), whose value lives outside
   * this model.
   */
  datatype Background = Keyword(css: string) | Palette(entry: string)

  /** One record of the table: the badge text, its CSS display and its background. */
  datatype Style = Style(text: string, display: string, backgroundColor: Background)

  /** The own properties of `VARIANT_STYLES`. */
  const VariantStylesTable: map<string, Style> := map[
    "default" := Style("", "none", Keyword("transparent")),
    "on-sale" := Style("Sale", "revert", Palette("primary")),
    "new-release" := Style("Just Released!", "revert", Palette("secondary"))
  ]

  /**
   * The names every object literal inherits from `Object.prototype`
   * (sections 20.1.3 and B.2.2 of ECMAScript 2023). Reading one of them from
   * `VARIANT_STYLES` yields a function or, for `__proto__`, an object.
   */
  const ObjectPrototypeMembers: set<string> := {
    "constructor", "hasOwnProperty", "isPrototypeOf", "propertyIsEnumerable",
    "toLocaleString", "toString", "valueOf", "__proto__",
    "__defineGetter__", "__defineSetter__", "__lookupGetter__", "__lookupSetter__"
  }

  /** What reading a property of `VARIANT_STYLES` gives back. */
  datatype Property = OwnStyle(style: Style) | InheritedMember(name: string) | Missing

  /**
   * The JavaScript value a property read stands for: a style record is an
   * object, an inherited member a function (or, for `__proto__`, the prototype
   * object), and a missing property `undefined`.
   */
  function PropertyValue(p: Property): (v: JsValue)
    ensures v.Undefined? <==> p.Missing?
    ensures p.OwnStyle? ==> v.PlainObject?
    ensures p.InheritedMember? ==> (v.Callable? <==> p.name != "__proto__")
  {
    match p
    case OwnStyle(_) => PlainObject
    case InheritedMember(name) => if name == "__proto__" then PlainObject else Callable
    case Missing => Undefined
  }

  /** The test `!variantStyles` negated: `undefined` is the only falsy outcome of a read. */
  predicate IsTruthy(p: Property)
    ensures IsTruthy(p) <==> !p.Missing?
  {
    ToBoolean(PropertyValue(p))
  }

  /** `VARIANT_STYLES[key]`: an own record first, then the prototype chain, else `undefined`. */
  function GetProperty(key: string): (p: Property)
    ensures p.OwnStyle? <==> key in VariantStylesTable
    ensures p.OwnStyle? ==> p.style == VariantStylesTable[key]
    ensures p.InheritedMember? <==> key !in VariantStylesTable && key in ObjectPrototypeMembers
    ensures p.InheritedMember? ==> p.name == key
  {
    if key in VariantStylesTable then OwnStyle(VariantStylesTable[key])
    else if key in ObjectPrototypeMembers then InheritedMember(key)
    else Missing
  }

  /** The one error the component raises: "unknown show card variant". */
  datatype CardError = UnknownVariant

  datatype Result<T> = Ok(value: T) | Err(error: CardError)

  /**
   * The table lookup with its guard: a falsy property read fails with
   * `UnknownVariant`; there is no fallback to the default style.
   */
  function LookupVariantStyles(key: string): (r: Result<Property>)
    ensures r.Err? <==> key !in VariantStylesTable && key !in ObjectPrototypeMembers
    ensures key in VariantStylesTable ==> r == Ok(OwnStyle(VariantStylesTable[key]))
    ensures r.Ok? ==> IsTruthy(r.value)
  {
    var p := GetProperty(key);
    if !IsTruthy(p) then Err(UnknownVariant) else Ok(p)
  }

  /** The props a shoe card receives; each may hold any JavaScript value. */
  datatype ShoeProps = ShoeProps(
    slug: JsValue,
    name: JsValue,
    imageSrc: JsValue,
    price: JsValue,
    salePrice: JsValue,
    releaseDate: JsValue,
    numOfColors: JsValue)

  /**
   * The variant of a card. `isNewShoe` stands for the date test of the utility
   * module, evaluated at the moment of rendering. A sale price of any number
   * type wins over a recent release.
   */
  function SelectVariant(props: ShoeProps, isNewShoe: JsValue -> bool): (v: Variant)
    ensures v == OnSale <==> props.salePrice.Number?
    ensures v == NewRelease <==> !props.salePrice.Number? && isNewShoe(props.releaseDate)
    ensures v == Default <==> !props.salePrice.Number? && !isNewShoe(props.releaseDate)
    ensures Tag(v) in VariantStylesTable
  {
    if TypeOf(props.salePrice) == "number" then OnSale
    else if isNewShoe(props.releaseDate) then NewRelease
    else Default
  }

  /** The style record the table holds for a variant. */
  function StyleOf(v: Variant): (s: Style)
    ensures s.display == "none" <==> v == Default
    ensures v == Default ==> s.text == "" && s.backgroundColor == Keyword("transparent")
    ensures v != Default ==> s.display == "revert" && |s.text| > 0
    ensures v == OnSale ==> s.text == "Sale"
    ensures v == NewRelease ==> s.text == "Just Released!"
    ensures v == OnSale ==> s.backgroundColor == Palette("primary")
    ensures v == NewRelease ==> s.backgroundColor == Palette("secondary")
  {
    VariantStylesTable[Tag(v)]
  }

  /**
   * What the component holds in `variantStyles` once the guard has passed:
   * the variant is chosen, its record read from the table, and the throw for a
   * missing record never happens.
   */
  function CardVariantStyles(props: ShoeProps, isNewShoe: JsValue -> bool): (r: Result<Property>)
    ensures r.Ok?
    ensures r.value == OwnStyle(StyleOf(SelectVariant(props, isNewShoe)))
  {
    LookupVariantStyles(Tag(SelectVariant(props, isNewShoe)))
  }

  // ---------------------------------------------------------------------------
  // Properties of the rule and the table

  /** The table's own keys are exactly the three variants' tags. */
  lemma TableKeysAreTags()
    ensures forall key :: key in VariantStylesTable <==> exists v :: Tag(v) == key
  {
    forall key | key in VariantStylesTable
      ensures exists v :: Tag(v) == key
    {
      if key == "default" {
        assert Tag(Default) == key;
      } else if key == "on-sale" {
        assert Tag(OnSale) == key;
      } else {
        assert Tag(NewRelease) == key;
      }
    }
  }

  /** Different variants are stored under different names and show different styles. */
  lemma VariantsAreDistinguished(v: Variant, w: Variant)
    ensures Tag(v) == Tag(w) <==> v == w
    ensures StyleOf(v) == StyleOf(w) <==> v == w
  {
  }

  /** A number sale price decides the variant whatever the release-date test says. */
  lemma SaleBeatsNewRelease(props: ShoeProps, isNewShoe: JsValue -> bool, isNewShoe': JsValue -> bool)
    requires props.salePrice.Number?
    ensures SelectVariant(props, isNewShoe) == SelectVariant(props, isNewShoe') == OnSale
  {
  }

  /**
   * The variant depends on the kind of the sale price and on the release-date
   * test only; the price, colour count, slug, name and image are ignored.
   */
  lemma VariantDependsOnlyOnSaleAndRelease(p: ShoeProps, q: ShoeProps, isNewShoe: JsValue -> bool)
    requires p.salePrice.Number? == q.salePrice.Number?
    requires isNewShoe(p.releaseDate) == isNewShoe(q.releaseDate)
    ensures SelectVariant(p, isNewShoe) == SelectVariant(q, isNewShoe)
  {
  }

  /**
   * Under a release-date test that accepts one date and rejects another, every
   * variant, and so every record of the table, is shown by some card.
   */
  lemma EveryVariantReachable(v: Variant, isNewShoe: JsValue -> bool, recent: JsValue, stale: JsValue)
    requires isNewShoe(recent) && !isNewShoe(stale)
    ensures exists props :: SelectVariant(props, isNewShoe) == v
  {
    var (salePrice, releaseDate) := match v
      case OnSale => (Number(Finite(0.0)), recent)
      case NewRelease => (Null, recent)
      case Default => (Undefined, stale);
    var props := ShoeProps(String("s"), String("n"), String("i"), Number(Finite(10000.0)), salePrice, releaseDate, Number(Finite(1.0)));
    assert SelectVariant(props, isNewShoe) == v;
  }

  /**
   * A key that is neither a tag nor inherited from `Object.prototype` fails
   * with `UnknownVariant`; an inherited name such as `toString` reads as a
   * truthy function and passes the guard.
   */
  lemma UnknownKeysFail(key: string)
    requires forall v :: Tag(v) != key
    ensures key !in ObjectPrototypeMembers ==> LookupVariantStyles(key) == Err(UnknownVariant)
    ensures key in ObjectPrototypeMembers ==> LookupVariantStyles(key) == Ok(InheritedMember(key))
  {
    assert key != Tag(Default) && key != Tag(OnSale) && key != Tag(NewRelease);
  }
}
