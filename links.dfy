/**
 * The rules of `src/components/LinksPage.tsx`: the table of links by category,
 * the search over all of them, the lookups for a category's links and title, the
 * category cards, and which callback the back button takes.
 */
module Links {
  import opened Wrappers
  import opened Text
  import opened Seqs

  /** A link; its icon and colours are presentation only. */
  datatype Link = Link(title: string, description: string, url: string)

  /** One entry of `linkCategories`. */
  datatype Category = Category(key: string, links: seq<Link>)

  const FinesLinks: seq<Link> := [
    Link("GOV.UK - Pay Penalty Charge", "Pay penalty charge notices online", "https://www.gov.uk/pay-penalty-charge-notice"),
    Link("Metropolitan Police - Pay PCN", "Pay Met Police penalty charges", "https://www.met.police.uk/paypcn/"),
    Link("DVLA - View Driving Record", "Check your driving licence information", "https://www.gov.uk/view-driving-licence")]

  const ChargesLinks: seq<Link> := [
    Link("Dartford Crossing", "Pay Dartford Crossing charge", "https://www.gov.uk/pay-dartford-crossing-charge"),
    Link("Congestion Charge", "Pay London Congestion Charge", "https://tfl.gov.uk/modes/driving/congestion-charge/congestion-charge-zone"),
    Link("ULEZ", "Pay ULEZ charge", "https://tfl.gov.uk/modes/driving/ultra-low-emission-zone")]

  const InsuranceLinks: seq<Link> := [
    Link("Compare The Market", "Compare car insurance quotes", "https://www.comparethemarket.com/car-insurance/"),
    Link("MoneySuperMarket", "Find cheap car insurance", "https://www.moneysupermarket.com/car-insurance/"),
    Link("Admiral", "Get a car insurance quote", "https://www.admiral.com/")]

  const MotLinks: seq<Link> := [
    Link("GOV.UK - MOT Testing", "Book MOT test and check history", "https://www.gov.uk/getting-an-mot"),
    Link("GOV.UK - Vehicle Tax", "Tax your vehicle online", "https://www.gov.uk/vehicle-tax"),
    Link("DVLA Vehicle Enquiry", "Check vehicle tax and MOT", "https://vehicleenquiry.service.gov.uk/")]

  /** `linkCategories`, in its insertion order, which is the order `Object.entries` visits. */
  const LinkCategories: seq<Category> := [
    Category("fines", FinesLinks),
    Category("charges", ChargesLinks),
    Category("insurance", InsuranceLinks),
    Category("mot", MotLinks)
  ]

  /** `linkCategories[key]`: the entry under that key, `undefined` for any other key. */
  function Lookup(key: string): Option<seq<Link>> {
    if key == "fines" then Some(FinesLinks)
    else if key == "charges" then Some(ChargesLinks)
    else if key == "insurance" then Some(InsuranceLinks)
    else if key == "mot" then Some(MotLinks)
    else None
  }

  /** The record and its entries agree: each entry's key looks up its links, and no other key has any. */
  lemma LookupKeys()
    ensures forall i :: 0 <= i < |LinkCategories| ==> Lookup(LinkCategories[i].key) == Some(LinkCategories[i].links)
    ensures forall key :: Lookup(key).None? <==> forall i :: 0 <= i < |LinkCategories| ==> LinkCategories[i].key != key
  {
    forall key ensures Lookup(key).None? <==> forall i :: 0 <= i < |LinkCategories| ==> LinkCategories[i].key != key {
      if key == "fines" { assert LinkCategories[0].key == key; }
      else if key == "charges" { assert LinkCategories[1].key == key; }
      else if key == "insurance" { assert LinkCategories[2].key == key; }
      else if key == "mot" { assert LinkCategories[3].key == key; }
    }
  }

  /**
   * `currentLinks`: no category (or the empty one) and an unknown category both
   * give no links; a known one gives its table entry.
   */
  function CurrentLinks(category: Option<string>): (r: seq<Link>)
    ensures category.None? || category.value == [] ==> r == []
    ensures category.Some? && Lookup(category.value).None? ==> r == []
    ensures category.Some? && Lookup(category.value).Some? && category.value != [] ==> r == Lookup(category.value).value
  {
    if category.None? || category.value == [] then []
    else match Lookup(category.value)
      case Some(links) => links
      case None => []
  }

  /** `titles[cat]` inside `getCategoryTitle`. */
  function TitleOf(cat: string): Option<string> {
    if cat == "fines" then Some("Fines & Penalties")
    else if cat == "charges" then Some("Road Charges")
    else if cat == "insurance" then Some("Car Insurance")
    else if cat == "mot" then Some("MOT & Vehicle Tax")
    else None
  }

  /** `titles[cat] || cat`: the known title, or the key itself when it has none. */
  function GetCategoryTitle(cat: string): (t: string)
    ensures TitleOf(cat).None? ==> t == cat
    ensures TitleOf(cat).Some? ==> t == TitleOf(cat).value && t != cat
  {
    var r := TitleOf(cat);
    if r.Some? && r.value != [] then r.value else cat
  }

  /** Every category of the link table has its own title, never the bare key. */
  lemma EveryCategoryTitled()
    ensures forall i :: 0 <= i < |LinkCategories| ==> TitleOf(LinkCategories[i].key).Some?
    ensures forall i :: 0 <= i < |LinkCategories| ==> GetCategoryTitle(LinkCategories[i].key) != LinkCategories[i].key
  {
  }

  // ---------------------------------------------------------------- search

  /** A link of `allLinks`: the link with the key of its category attached. */
  datatype TaggedLink = TaggedLink(link: Link, category: string)

  function Tag(c: Category): (r: seq<TaggedLink>)
    ensures |r| == |c.links|
    ensures forall i :: 0 <= i < |r| ==> r[i] == TaggedLink(c.links[i], c.key)
  {
    seq(|c.links|, i requires 0 <= i < |c.links| => TaggedLink(c.links[i], c.key))
  }

  /** `Object.entries(cats).flatMap(([cat, links]) => links.map(...))`. */
  function Flatten(cats: seq<Category>): seq<TaggedLink> {
    if cats == [] then [] else Tag(cats[0]) + Flatten(cats[1..])
  }

  /** Every tagged link is a link of its category, and every link of every category appears. */
  lemma {:induction false} FlattenMembers(cats: seq<Category>, t: TaggedLink)
    ensures t in Flatten(cats) <==>
      exists i, j :: 0 <= i < |cats| && 0 <= j < |cats[i].links| && t == TaggedLink(cats[i].links[j], cats[i].key)
  {
    if cats != [] {
      FlattenMembers(cats[1..], t);
      assert forall i :: 0 < i < |cats| ==> cats[i] == cats[1..][i - 1];
      if t in Tag(cats[0]) {
        var j :| 0 <= j < |Tag(cats[0])| && Tag(cats[0])[j] == t;
        assert 0 <= 0 < |cats| && 0 <= j < |cats[0].links| && t == TaggedLink(cats[0].links[j], cats[0].key);
      }
      if t in Flatten(cats[1..]) {
        var i, j :| 0 <= i < |cats[1..]| && 0 <= j < |cats[1..][i].links| && t == TaggedLink(cats[1..][i].links[j], cats[1..][i].key);
        assert 0 <= i + 1 < |cats| && 0 <= j < |cats[i + 1].links| && t == TaggedLink(cats[i + 1].links[j], cats[i + 1].key);
      }
    }
  }

  function AllLinks(): seq<TaggedLink> {
    Flatten(LinkCategories)
  }

  /** `link.title/description/category.toLowerCase().includes(q.toLowerCase())` for one of them. */
  predicate Matches(q: string, t: TaggedLink) {
    || Contains(Lower(t.link.title), Lower(q))
    || Contains(Lower(t.link.description), Lower(q))
    || Contains(Lower(t.category), Lower(q))
  }

  function MatchesQuery(q: string): TaggedLink -> bool {
    (t: TaggedLink) => Matches(q, t)
  }

  /**
   * `filteredResults`: nothing while the trimmed query is empty, otherwise the
   * links whose title, description or category contains the query.
   */
  function Search(q: string): (r: seq<TaggedLink>)
    ensures Trim(q) == [] ==> r == []
    ensures forall i :: 0 <= i < |r| ==> Matches(q, r[i]) && r[i] in AllLinks()
  {
    if Trim(q) == [] then [] else Filter(AllLinks(), MatchesQuery(q))
  }

  /** An empty or all-white-space query finds nothing. */
  lemma SearchBlank(q: string)
    requires forall i :: 0 <= i < |q| ==> IsSpace(q[i])
    ensures Search(q) == []
  {
    TrimFacts(q);
  }

  /**
   * With a query that is not blank, a link is found exactly when it matches; the
   * results keep the order of `allLinks`, categories first and then the links in each.
   */
  lemma SearchExact(q: string, t: TaggedLink)
    requires exists i :: 0 <= i < |q| && !IsSpace(q[i])
    ensures t in Search(q) <==> t in AllLinks() && Matches(q, t)
    ensures IsSubseq(Search(q), AllLinks())
  {
    TrimFacts(q);
    FilterIsSubseq(AllLinks(), MatchesQuery(q));
    if t in AllLinks() && Matches(q, t) {
      var i :| 0 <= i < |AllLinks()| && AllLinks()[i] == t;
      assert MatchesQuery(q)(AllLinks()[i]);
    }
  }

  /** The query is matched case-insensitively: lower-casing it first changes nothing. */
  lemma SearchCaseInsensitive(q: string)
    ensures Search(Lower(q)) == Search(q)
  {
    LowerIdempotent(q);
    LowerKeepsSpaces(q);
    TrimFacts(q);
    TrimFacts(Lower(q));
    assert forall t :: MatchesQuery(Lower(q))(t) == MatchesQuery(q)(t);
    FilterSamePredicate(AllLinks(), MatchesQuery(Lower(q)), MatchesQuery(q));
  }

  /** The number the header shows as the total: the sum of the category sizes. */
  function TotalLinks(cats: seq<Category>): (n: nat)
    ensures n == |Flatten(cats)|
  {
    if cats == [] then 0 else |cats[0].links| + TotalLinks(cats[1..])
  }

  /** `Object.values(linkCategories).flat()` is `allLinks` without the tags. */
  function FlatLinks(cats: seq<Category>): (r: seq<Link>)
    ensures |r| == |Flatten(cats)|
    ensures forall i :: 0 <= i < |r| ==> r[i] == Flatten(cats)[i].link
  {
    if cats == [] then []
    else
      var r := cats[0].links + FlatLinks(cats[1..]);
      assert forall i :: 0 <= i < |r| ==> r[i] == (Tag(cats[0]) + Flatten(cats[1..]))[i].link;
      r
  }

  /** The preview shown while the query is blank: the first six links. */
  function Preview(): (r: seq<Link>)
    ensures r <= FlatLinks(LinkCategories) && |r| == 6
  {
    Take(FlatLinks(LinkCategories), 6)
  }

  /** Twelve links in all, so the preview is followed by "And 6 more links". */
  lemma LinkCounts()
    ensures TotalLinks(LinkCategories) == |AllLinks()| == 12
    ensures |FlatLinks(LinkCategories)| - 6 == 6
  {
    assert |FinesLinks| == |ChargesLinks| == |InsuranceLinks| == |MotLinks| == 3;
    var c := LinkCategories;
    assert c[1..][1..][1..][1..] == [];
    assert TotalLinks(c[1..][1..][1..]) == 3;
    assert TotalLinks(c[1..][1..]) == 6;
    assert TotalLinks(c[1..]) == 9;
  }

  // ---------------------------------------------------------------- category cards

  /** A category card: the id it navigates with, its title and the link count it shows. */
  datatype CategoryOption = CategoryOption(id: string, title: string, count: nat)

  function CountOf(key: string): nat {
    |Lookup(key).GetOr([])|
  }

  /** Every card leads to a category holding as many links as the card announces. */
  predicate CardsAgree(options: seq<CategoryOption>) {
    forall i :: 0 <= i < |options| ==> |CurrentLinks(Some(options[i].id))| == options[i].count
  }

  /** `categoryOptions` as written: the fourth card's id is `mot-tax`, its count that of `mot`. */
  function CategoryOptionsAsWritten(): seq<CategoryOption> {
    [ CategoryOption("fines", "Fines", CountOf("fines")),
      CategoryOption("charges", "Charges", CountOf("charges")),
      CategoryOption("insurance", "Insurance", CountOf("insurance")),
      CategoryOption("mot-tax", "MOT & Tax", CountOf("mot")) ]
  }

  /** The "MOT & Tax" card announces three links and leads to a category with none. */
  lemma MotTaxCardLeadsNowhere()
    ensures CategoryOptionsAsWritten()[3].count == 3
    ensures CurrentLinks(Some(CategoryOptionsAsWritten()[3].id)) == []
    ensures !CardsAgree(CategoryOptionsAsWritten())
  {
    assert |MotLinks| == 3;
  }

  /** The cards' titles, in the order of the link table. */
  const CardTitles: seq<string> := ["Fines", "Charges", "Insurance", "MOT & Tax"]

  /**
   * `categoryOptions` with every card's id the key its count is taken from: the
   * first three cards are as written, the fourth has id `mot`.
   */
  function CategoryOptions(): (r: seq<CategoryOption>)
    ensures |r| == |LinkCategories|
    ensures forall i :: 0 <= i < |r| ==> r[i].id == LinkCategories[i].key && r[i].count == |LinkCategories[i].links|
  {
    LookupKeys();
    seq(|LinkCategories|, i requires 0 <= i < |LinkCategories| =>
      CategoryOption(LinkCategories[i].key, CardTitles[i], CountOf(LinkCategories[i].key)))
  }

  /** Every corrected card leads to as many links as it announces. */
  lemma CategoryOptionsAgree()
    ensures CardsAgree(CategoryOptions())
  {
    LookupKeys();
  }

  /** The correction touches only the fourth card's id. */
  lemma CategoryOptionsCorrectOnlyId()
    ensures |CategoryOptions()| == |CategoryOptionsAsWritten()|
    ensures CategoryOptions()[0] == CategoryOptionsAsWritten()[0]
    ensures CategoryOptions()[1] == CategoryOptionsAsWritten()[1]
    ensures CategoryOptions()[2] == CategoryOptionsAsWritten()[2]
    ensures CategoryOptions()[3] == CategoryOptionsAsWritten()[3].(id := "mot")
  {
    var r, w := CategoryOptions(), CategoryOptionsAsWritten();
    assert r[0].id == w[0].id && r[0].title == w[0].title && r[0].count == w[0].count;
    assert r[1].id == w[1].id && r[1].title == w[1].title && r[1].count == w[1].count;
    assert r[2].id == w[2].id && r[2].title == w[2].title && r[2].count == w[2].count;
    assert r[3].title == w[3].title && r[3].count == w[3].count;
  }

  // ---------------------------------------------------------------- back button

  /** What the back button does. */
  datatype BackAction = NavigateToLinks | CallOnBack | RedirectToLinks | Nothing

  /** `handleBack`, given the category and which optional callbacks were passed. */
  function HandleBack(category: Option<string>, cameFromLinksPage: bool, hasOnBack: bool, hasNavigateToLinks: bool): (a: BackAction)
    ensures category.None? || category.value == [] ==> a == (if hasOnBack then CallOnBack else Nothing)
    ensures category.Some? && category.value != [] ==>
      && (a == NavigateToLinks <==> hasNavigateToLinks && (cameFromLinksPage || !hasOnBack))
      && (a == CallOnBack <==> hasOnBack && !(cameFromLinksPage && hasNavigateToLinks))
      && (a == RedirectToLinks <==> !hasOnBack && !hasNavigateToLinks)
      && a != Nothing
  {
    if category.Some? && category.value != [] then
      if cameFromLinksPage && hasNavigateToLinks then NavigateToLinks
      else if hasOnBack then CallOnBack
      else if hasNavigateToLinks then NavigateToLinks
      else RedirectToLinks
    else if hasOnBack then CallOnBack
    else Nothing
  }

  /** With a category the button always does something; the redirect is the last resort. */
  lemma BackFromCategoryAlwaysActs(category: string, came: bool, hasOnBack: bool, hasNav: bool)
    requires category != []
    ensures HandleBack(Some(category), came, hasOnBack, hasNav) != Nothing
    ensures HandleBack(Some(category), came, hasOnBack, hasNav) == RedirectToLinks ==> !hasOnBack && !hasNav
  {
  }
}
