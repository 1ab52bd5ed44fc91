/** The scraped record of one product page (`ItemInfoResponse`) and its availability verdict. */
module Items {
  import opened Common

  /**
   * What one run learns about the watched product: the display name and the
   * price text as rendered (each absent when the page lacked it) and whether
   * the page only offered "contact an agent" instead of a purchase button.
   */
  datatype ItemInfo = ItemInfo(title: Option<string>, price: Option<string>, isContactAgent: bool)

  /** The item can be bought directly: the page did not show the contact-agent button. */
  predicate IsAvailable(info: ItemInfo) {
    info.isContactAgent == false
  }

  /** A value of the dictionary `to_dict` builds: an optional text or a boolean flag. */
  datatype Field = Text(text: Option<string>) | Flag(flag: bool)

  /** The three keys of the dictionary form. */
  const DictKeys: set<string> := {"title", "price", "is_contact_agent"}

  /**
   * Reads a dictionary of the shape `to_dict` produces back into a record;
   * `None` when a key is missing or holds a value of the wrong kind.
   */
  function FromDict(d: map<string, Field>): Option<ItemInfo> {
    if "title" in d && "price" in d && "is_contact_agent" in d
       && d["title"].Text? && d["price"].Text? && d["is_contact_agent"].Flag?
    then Some(ItemInfo(d["title"].text, d["price"].text, d["is_contact_agent"].flag))
    else None
  }

  /** The dictionary form of a record: exactly its three stored fields, unchanged. */
  function ToDict(info: ItemInfo): (d: map<string, Field>)
    ensures d.Keys == DictKeys
    ensures FromDict(d) == Some(info)
  {
    map["title" := Text(info.title), "price" := Text(info.price), "is_contact_agent" := Flag(info.isContactAgent)]
  }

  /** Every well-formed dictionary with exactly the three keys is the dictionary form of the record it reads as. */
  lemma FromDictThenToDict(d: map<string, Field>)
    requires d.Keys == DictKeys
    requires FromDict(d).Some?
    ensures ToDict(FromDict(d).value) == d
  {
    var e := ToDict(FromDict(d).value);
    assert e.Keys == d.Keys;
    forall k | k in d
      ensures e[k] == d[k]
    {
      assert k == "title" || k == "price" || k == "is_contact_agent";
    }
  }

  /** Availability is exactly the negation of the contact-agent flag, whatever the title and price. */
  lemma AvailableIffNotContactAgent(info: ItemInfo)
    ensures IsAvailable(info) <==> !info.isContactAgent
    ensures IsAvailable(info) == IsAvailable(ItemInfo(None, None, info.isContactAgent))
  {
  }
}
