/** The document title every page sets. */
module Meta {
  import opened Js

  /** The props a page passes; any of them may be left out. */
  datatype MetaProps = MetaProps(title: Option<string>, brand: Option<string>, showBrand: Option<bool>)

  /** The default brand of the component. */
  const DefaultBrand := "Pippa & Paper"

  /** `generateTitle()` with the defaults applied: `title` '', `brand` "Pippa & Paper" and
      `showBrand` true. An empty title gives the brand, a title with the brand shown gives
      "title - brand", and one without gives the title alone. */
  function GenerateTitle(p: MetaProps): (t: string)
    ensures var title := if p.title.Some? then p.title.value else "";
      var brand := if p.brand.Some? then p.brand.value else DefaultBrand;
      var showBrand := p.showBrand != Some(false);
      (title == "" ==> t == brand)
      && (title != "" && showBrand ==> t == title + " - " + brand)
      && (title != "" && !showBrand ==> t == title)
  {
    var title := if p.title.Some? then p.title.value else "";
    var brand := if p.brand.Some? then p.brand.value else DefaultBrand;
    var showBrand := if p.showBrand.Some? then p.showBrand.value else true;
    if title == "" then brand else if showBrand then title + " - " + brand else title
  }

  /** A page that passes only its title is titled "title - Pippa & Paper"; one that passes
      nothing is titled with the brand alone. */
  lemma DefaultTitles(title: string)
    requires title != ""
    ensures GenerateTitle(MetaProps(Some(title), None, None)) == title + " - Pippa & Paper"
    ensures GenerateTitle(MetaProps(None, None, None)) == "Pippa & Paper"
    ensures GenerateTitle(MetaProps(Some(title), None, Some(false))) == title
  {
  }

  /** The brand ends every title that shows it, so a title never loses the brand unless asked to. */
  lemma BrandShown(p: MetaProps)
    requires p.showBrand != Some(false)
    ensures var brand := if p.brand.Some? then p.brand.value else DefaultBrand;
      var t := GenerateTitle(p);
      |brand| <= |t| && t[|t| - |brand|..] == brand
  {
  }
}
