/** The sports an event or an auction can be about. The auction and the event
    schemas each declare the same five-name enumeration; it is defined once here. */
module Categories {
  import opened Common

  datatype Category = Cricket | Football | Badminton | Volleyball | Other

  /** The enumeration's names, in their declared order. */
  const CategoryNames: seq<string> := ["cricket", "football", "badminton", "volleyball", "other"]

  /** Reads a category name; anything outside the enumeration is refused. */
  function ParseCategory(s: string): (r: Option<Category>)
    ensures r.Some? <==> s in CategoryNames
  {
    if s == "cricket" then Some(Cricket)
    else if s == "football" then Some(Football)
    else if s == "badminton" then Some(Badminton)
    else if s == "volleyball" then Some(Volleyball)
    else if s == "other" then Some(Other)
    else None
  }

  /** The stored name of a category: a member of the enumeration that reads back as the
      same category. */
  function CategoryName(c: Category): (s: string)
    ensures s in CategoryNames
    ensures ParseCategory(s) == Some(c)
  {
    match c
    case Cricket => "cricket"
    case Football => "football"
    case Badminton => "badminton"
    case Volleyball => "volleyball"
    case Other => "other"
  }

  /** Parsing and naming are inverse: every accepted name is the name of what it parses to. */
  lemma NameOfParsed(s: string)
    requires ParseCategory(s).Some?
    ensures CategoryName(ParseCategory(s).value) == s
  {
  }
}
