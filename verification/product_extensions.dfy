/** The completeness label the product screen shows for a looked-up product. */
module ProductExtensions {
  import opened Wrappers
  import opened ProductFlow
  import Engine

  /** The four labels, spelled as the screen compares them. */
  const BothMissing := "noBrand&Descrition"
  const BrandMissing := "noBrand"
  const DescriptionMissing := "noDescription"
  const Complete := "success"

  /** `checkInfomationNils()`: which of brand and description are absent,
      with "both absent" checked before either single field. */
  function CheckInfomationNils(p: Product): (kind: string)
    ensures kind in {BothMissing, BrandMissing, DescriptionMissing, Complete}
    ensures kind == BothMissing <==> p.brand.None? && p.description.None?
    ensures kind == BrandMissing <==> p.brand.None? && p.description.Some?
    ensures kind == DescriptionMissing <==> p.brand.Some? && p.description.None?
    ensures kind == Complete <==> p.brand.Some? && p.description.Some?
  {
    if p.brand.None? && p.description.None? then BothMissing
    else if p.brand.None? then BrandMissing
    else if p.description.None? then DescriptionMissing
    else Complete
  }

  /** The label depends on the presence of brand and description only: not on
      their text and not on the other six fields. */
  lemma LabelDependsOnlyOnPresence(p: Product, q: Product)
    requires p.brand.Some? == q.brand.Some?
    requires p.description.Some? == q.description.Some?
    ensures CheckInfomationNils(p) == CheckInfomationNils(q)
  {
  }

  /** Happy path end to end: a scanned code whose lookup returns a response
      with both brand and description lands in `loaded` with that product,
      and the product is labelled complete. */
  lemma HappyPathComplete<X>(code: string, dto: ProductDto, lookup: string -> Result<ProductDto, X>)
    requires lookup(code) == Success(dto)
    requires dto.brand.Some? && dto.description.Some?
    ensures var s := Engine.Run(Reduce, Idle, [OnAppear, OnGotBarcode(code)]);
      Engine.Run(Reduce, s, FindProduct(s, lookup)) == Loaded(FromDto(dto))
    ensures CheckInfomationNils(FromDto(dto)) == Complete
  {
    ScanScenario(code, lookup);
  }
}
