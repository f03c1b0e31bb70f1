/** The two built-in catalogs: the five products of TechnicalTest and the
    five funds of BTGPactual.Fondos, each entry built through its validating
    constructor. */
module Catalogs {
  import opened Common
  import opened Text
  import P = Products
  import F = Funds

  /** One catalog line: the arguments given to the constructor. */
  datatype Entry<C> = Entry(id: int, name: string, minimumAmount: Money, category: C)

  const ProductEntries: seq<Entry<P.ProductCategory>> := [
    Entry(1, "FPV_BTG_PACTUAL_RECAUDADORA", Units(75_000), P.FPV),
    Entry(2, "FPV_BTG_PACTUAL_ECOPTROL", Units(125_000), P.FPV),
    Entry(3, "DEUDAPRIVADA", Units(50_000), P.FIC),
    Entry(4, "FDO-ACCIONES", Units(250_000), P.FIC),
    Entry(5, "FPV_BTG_PACTUAL_DINAMICA", Units(100_000), P.FPV)
  ]

  const FundEntries: seq<Entry<F.FundCategory>> := [
    Entry(1, "FPV_BTG_PACTUAL_RECAUDADORA", Units(75_000), F.FPV),
    Entry(2, "FPV_BTG_PACTUAL_ECOPTROL", Units(125_000), F.FPV),
    Entry(3, "DEUDAPRIVADA", Units(50_000), F.FIC),
    Entry(4, "FDO-ACCIONES", Units(250_000), F.FIC),
    Entry(5, "FPV_BTG_PACTUAL_DINAMICA", Units(100_000), F.FPV)
  ]

  /** A catalog line passes the constructor's checks. */
  predicate Buildable<C>(e: Entry<C>) {
    !IsBlank(e.name) && e.minimumAmount > 0
  }

  /** Every line of both catalogs passes the constructor's checks, so building
      either list cannot throw. */
  lemma EntriesAreBuildable()
    ensures forall i | 0 <= i < |ProductEntries| :: Buildable(ProductEntries[i])
    ensures forall i | 0 <= i < |FundEntries| :: Buildable(FundEntries[i])
  {
    forall i | 0 <= i < 5
      ensures Buildable(ProductEntries[i]) && Buildable(FundEntries[i])
    {
      assert !IsWhiteSpace(ProductEntries[i].name[0]);
      assert !IsWhiteSpace(FundEntries[i].name[0]);
    }
  }

  /** `ProductCatalog.GetDefaultProducts`: five valid products with the
      distinct ids 1 to 5, each built from its catalog line. */
  function GetDefaultProducts(): (r: seq<P.Product>)
    ensures |r| == 5
    ensures forall i | 0 <= i < 5 ::
      P.NewProduct(ProductEntries[i].id, ProductEntries[i].name, ProductEntries[i].minimumAmount, ProductEntries[i].category) == Ok(r[i])
    ensures forall i | 0 <= i < 5 :: r[i].id == i + 1 && r[i].Valid()
    ensures forall i, j | 0 <= i < j < 5 :: r[i].id != r[j].id
    ensures forall i | 0 <= i < 5 :: r[i].category == (if r[i].id == 3 || r[i].id == 4 then P.FIC else P.FPV)
  {
    EntriesAreBuildable();
    seq(5, i requires 0 <= i < 5 =>
      var e := ProductEntries[i];
      P.NewProduct(e.id, e.name, e.minimumAmount, e.category).value)
  }

  /** `FundCatalog.GetDefaultFunds`: five valid funds with the distinct ids
      1 to 5, each built from its catalog line. */
  function GetDefaultFunds(): (r: seq<F.Fund>)
    ensures |r| == 5
    ensures forall i | 0 <= i < 5 ::
      F.NewFund(FundEntries[i].id, FundEntries[i].name, FundEntries[i].minimumAmount, FundEntries[i].category) == Ok(r[i])
    ensures forall i | 0 <= i < 5 :: r[i].id == i + 1 && r[i].Valid()
    ensures forall i, j | 0 <= i < j < 5 :: r[i].id != r[j].id
    ensures forall i | 0 <= i < 5 :: r[i].category == (if r[i].id == 3 || r[i].id == 4 then F.FIC else F.FPV)
  {
    EntriesAreBuildable();
    seq(5, i requires 0 <= i < 5 =>
      var e := FundEntries[i];
      F.NewFund(e.id, e.name, e.minimumAmount, e.category).value)
  }

  /** The minimums of both catalogs, in order: 75,000, 125,000, 50,000,
      250,000 and 100,000. */
  lemma CatalogMinimums()
    ensures [GetDefaultProducts()[0].minimumAmount, GetDefaultProducts()[1].minimumAmount, GetDefaultProducts()[2].minimumAmount,
             GetDefaultProducts()[3].minimumAmount, GetDefaultProducts()[4].minimumAmount]
         == [Units(75_000), Units(125_000), Units(50_000), Units(250_000), Units(100_000)]
    ensures forall i | 0 <= i < 5 :: GetDefaultFunds()[i].minimumAmount == GetDefaultProducts()[i].minimumAmount
    ensures forall i | 0 <= i < 5 :: GetDefaultFunds()[i].name == GetDefaultProducts()[i].name
  {
  }
}
