/** Field extraction from a parsed product page. */
module Extraction {
  import opened Common
  import opened Items

  /**
   * A parsed page, reduced to what the scraper looks at: the stripped text of
   * the first name heading, of the first price value, and of the first
   * availability-status link, each `None` when the page has no such node.
   * Stripping has already happened: each text is the node's text pieces, each
   * trimmed of surrounding whitespace, joined with nothing between them.
   */
  datatype Page = Page(nameText: Option<string>, priceText: Option<string>, availabilityText: Option<string>)

  /** The button label ("connect to an agent") shown while the item cannot be bought online. */
  const ContactAgentText: string := "상담원 연결"

  /** The record scraped from a page. */
  function Extract(page: Page): (info: ItemInfo)
    ensures info.title.None? <==> page.nameText.None?
    ensures info.price.None? <==> page.priceText.None?
    ensures page.nameText.Some? ==> info.title == page.nameText
    ensures page.priceText.Some? ==> info.price == page.priceText
    ensures info.isContactAgent <==> page.availabilityText.Some? && page.availabilityText.value == ContactAgentText
  {
    ItemInfo(page.nameText, page.priceText, page.availabilityText == Some(ContactAgentText))
  }

  /** Each field depends on its own anchor only: changing one anchor leaves the other two fields as they were. */
  lemma FieldsIndependent(page: Page, name: Option<string>, price: Option<string>, availability: Option<string>)
    ensures Extract(page.(nameText := name)).price == Extract(page).price
    ensures Extract(page.(nameText := name)).isContactAgent == Extract(page).isContactAgent
    ensures Extract(page.(priceText := price)).title == Extract(page).title
    ensures Extract(page.(priceText := price)).isContactAgent == Extract(page).isContactAgent
    ensures Extract(page.(availabilityText := availability)).title == Extract(page).title
    ensures Extract(page.(availabilityText := availability)).price == Extract(page).price
  {
  }

  /** The item is classified available exactly when the availability anchor is missing or reads anything but the label. */
  lemma AvailableIff(page: Page)
    ensures IsAvailable(Extract(page)) <==> page.availabilityText.None? || page.availabilityText.value != ContactAgentText
  {
  }

  /** A page without an availability anchor is classified available. */
  lemma MissingAnchorIsAvailable(name: Option<string>, price: Option<string>)
    ensures IsAvailable(Extract(Page(name, price, None)))
  {
  }

  /**
   * The comparison is exact. The texts below are ones stripping can still
   * produce: the label with its inner space missing (two text nodes
   * "상담원" and "연결" joined) or doubled, and the first word alone.
   */
  lemma ContactAgentExact(name: Option<string>, price: Option<string>)
    ensures Extract(Page(name, price, Some(ContactAgentText))).isContactAgent
    ensures !Extract(Page(name, price, Some("상담원연결"))).isContactAgent
    ensures !Extract(Page(name, price, Some("상담원  연결"))).isContactAgent
    ensures !Extract(Page(name, price, Some("상담원"))).isContactAgent
  {
    assert |"상담원연결"| != |ContactAgentText|;
    assert |"상담원  연결"| != |ContactAgentText|;
    assert |"상담원"| != |ContactAgentText|;
  }
}
