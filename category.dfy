/** The string-backed active enum of the `active_enum_string` test: `Category`
    implements the trait by hand, `DeriveCategory` declares the same mapping
    through the derive macro. */
module CategoryEnums {

  import opened Options
  import opened DbErrors
  import opened ColumnTypes
  import opened ActiveEnums

  datatype Category = Big | Small

  /** The hand-written `to_value`: a one-letter code, different per variant. */
  function CategoryToValue(x: Category): (r: string)
    ensures r == "B" || r == "S"
    ensures (r == "B") == x.Big?
  {
    match x
    case Big => "B"
    case Small => "S"
  }

  /** The hand-written `try_from_value`: exactly "B" and "S" decode, each to
      the variant that encodes to it; anything else is reported as an
      unexpected value for `Category`. */
  function CategoryTryFromValue(v: string): (r: Result<Category>)
    ensures r.Ok? <==> (v == "B" || v == "S")
    ensures r.Ok? ==> CategoryToValue(r.value) == v
    ensures r.Err? ==> r.error == Type(UnexpectedValue("Category", v))
  {
    match v
    case "B" => Ok(Category.Big)
    case "S" => Ok(Category.Small)
    case _ => Err(Type(UnexpectedValue("Category", v)))
  }

  /** `impl ActiveEnum for Category`, with `iter()` in declaration order. */
  const CategoryEnum: ActiveEnum<Category, string> :=
    ActiveEnum("category", [Category.Big, Category.Small], CategoryToValue,
               HandWritten(CategoryTryFromValue), String(Some(1)))

  datatype DeriveCategory = Big | Small

  /** The `string_value` attributes of `DeriveCategory`. */
  function DeriveCategoryValue(x: DeriveCategory): string {
    match x
    case Big => "B"
    case Small => "S"
  }

  /** A `String` is displayed as itself. */
  function ShowString(v: string): string {
    v
  }

  /** `#[derive(EnumIter, DeriveActiveEnum)]` on `DeriveCategory`, with
      `enum_name = "category"` and `db_type = "String(Some(1))"`. */
  const DeriveCategoryEnum: ActiveEnum<DeriveCategory, string> :=
    ActiveEnum("category", [DeriveCategory.Big, DeriveCategory.Small], DeriveCategoryValue,
               Derived("DeriveCategory", ShowString), String(Some(1)))

  /** `iter()` yields `Big` then `Small`, each once. */
  lemma CategoryEnumerates()
    ensures CategoryEnum.Enumerates()
  {
    forall x: Category ensures x in CategoryEnum.variants {
      assert CategoryEnum.variants[if x.Big? then 0 else 1] == x;
    }
  }

  /** `values()` of the hand-written impl, in `iter()` order. */
  lemma CategoryValues()
    ensures CategoryEnum.Values() == ["B", "S"]
  {
    assert CategoryEnum.Values()[0] == "B";
  }

  /** The hand-written implementation keeps every law of the trait: `"B"` and
      `"S"` decode to `Big` and `Small`, nothing else decodes, and anything
      else is reported as an unexpected value for `Category`. */
  lemma CategoryLawful()
    ensures CategoryEnum.Enumerates()
    ensures CategoryEnum.Lawful("Category", ShowString)
  {
    var e := CategoryEnum;
    CategoryEnumerates();
    CategoryValues();
    forall v, x | e.TryFromValue(v) == Ok(x) ensures x in e.variants && e.toValue(x) == v {
      assert v == "B" || v == "S";
    }
  }

  /** The derived implementation keeps the same laws, reporting unknown values
      under its own type name. */
  lemma DeriveCategoryLawful()
    ensures DeriveCategoryEnum.Enumerates()
    ensures DeriveCategoryEnum.Lawful("DeriveCategory", ShowString)
  {
    var e := DeriveCategoryEnum;
    forall x: DeriveCategory ensures x in e.variants {
      assert e.variants[if x.Big? then 0 else 1] == x;
    }
    DerivedLawful(e);
  }

  /** What the test asserts of the hand-written `Category`: its encodings,
      the decoding of "B" and "S", and its column type. */
  lemma CategoryTests()
    ensures CategoryEnum.toValue(Category.Big) == "B" && CategoryEnum.toValue(Category.Small) == "S"
    ensures CategoryEnum.TryFromValue("B") == Ok(Category.Big)
    ensures CategoryEnum.TryFromValue("S") == Ok(Category.Small)
    ensures CategoryEnum.dbType == String(Some(1))
  {
  }

  /** The message for "A" written out, for a type name `ident`. */
  lemma MessageForA(ident: string)
    ensures UnexpectedValue(ident, "A") == "unexpected value for " + ident + " enum: " + "A"
  {
  }

  /** The message `Category` gives for "A", as one string. */
  lemma CategoryMessageForA()
    ensures UnexpectedValue("Category", "A") == "unexpected value for Category enum: A"
  {
    MessageForA("Category");
    assert "unexpected value for " + "Category" + " enum: " + "A" == "unexpected value for Category enum: A";
  }

  /** The message `DeriveCategory` gives for "A", as one string. */
  lemma DeriveCategoryMessageForA()
    ensures UnexpectedValue("DeriveCategory", "A") == "unexpected value for DeriveCategory enum: A"
  {
    MessageForA("DeriveCategory");
    assert "unexpected value for " + "DeriveCategory" + " enum: " + "A" == "unexpected value for DeriveCategory enum: A";
  }

  /** `Category` rejects "A" with the message the test spells out. */
  lemma CategoryRejectsA()
    ensures CategoryEnum.TryFromValue("A") == Err(Type("unexpected value for Category enum: A"))
  {
    assert CategoryEnum.TryFromValue("A") == Err(Type(UnexpectedValue("Category", "A")));
    CategoryMessageForA();
  }

  /** The same for the derived `DeriveCategory`. */
  lemma DeriveCategoryTests()
    ensures DeriveCategoryEnum.toValue(DeriveCategory.Big) == "B"
    ensures DeriveCategoryEnum.toValue(DeriveCategory.Small) == "S"
    ensures DeriveCategoryEnum.TryFromValue("B") == Ok(DeriveCategory.Big)
    ensures DeriveCategoryEnum.TryFromValue("S") == Ok(DeriveCategory.Small)
    ensures DeriveCategoryEnum.dbType == String(Some(1))
  {
  }

  /** `DeriveCategory` rejects "A" with a message naming its own type. */
  lemma DeriveCategoryRejectsA()
    ensures DeriveCategoryEnum.TryFromValue("A") == Err(Type("unexpected value for DeriveCategory enum: A"))
  {
    assert DeriveCategoryEnum.TryFromValue("A") == Err(Type(UnexpectedValue("DeriveCategory", "A")));
    DeriveCategoryMessageForA();
  }

  /** The hand-written and the derived implementation agree on `name()` and
      on `values()`, which is `["B", "S"]`. */
  lemma CategoryAgreesWithDerive()
    ensures CategoryEnum.name == DeriveCategoryEnum.name == "category"
    ensures CategoryEnum.Values() == DeriveCategoryEnum.Values() == ["B", "S"]
  {
    SameEncodingSameValues(CategoryEnum, DeriveCategoryEnum);
    CategoryValues();
  }

  /** Beyond the concrete inputs of the test: the hand-written and the derived
      implementation accept exactly the same strings, decode them to the
      same-named variant, and differ on the rest only in the type name. */
  lemma CategoryMatchesDerive(v: string)
    ensures CategoryEnum.TryFromValue(v).Ok? <==> DeriveCategoryEnum.TryFromValue(v).Ok?
    ensures CategoryEnum.TryFromValue(v) == Ok(Category.Big) <==> DeriveCategoryEnum.TryFromValue(v) == Ok(DeriveCategory.Big)
    ensures CategoryEnum.TryFromValue(v) == Ok(Category.Small) <==> DeriveCategoryEnum.TryFromValue(v) == Ok(DeriveCategory.Small)
    ensures CategoryEnum.TryFromValue(v).Err? ==>
              CategoryEnum.TryFromValue(v).error == Type(UnexpectedValue("Category", v))
              && DeriveCategoryEnum.TryFromValue(v).error == Type(UnexpectedValue("DeriveCategory", v))
  {
    CategoryLawful();
    DeriveCategoryLawful();
  }
}
