/**
 * Extraction of product listings from one result page
 * (`BingShopScraper.extract_product_info_from_page` after the fetch):
 * candidate cards from an ordered list of selectors, de-duplicated in
 * first-seen order, four fields per card each with its own fallback chain,
 * link absolutization and the title-or-link retention test.
 *
 * HTML parsing and selector matching are not modelled: a parsed page is a
 * Document that gives, per selector, the cards it matches in document order,
 * and a Card records what the field look-ups find inside it. Texts are those
 * of `get_text(strip=True)`.
 */
module Extraction {
  import opened Wrappers
  import opened Text
  import opened Urls
  import opened Http

  const NA := "N/A"

  /** The title container (classes br-title and br-freeGridFontChange). */
  datatype TitleBox = TitleBox(
    spanTitle: Option<string>,   // text of its first <span> with a title attribute
    text: string,                // its own text
    anchorHref: Option<string>)  // href of its nearest enclosing <a href>

  /** The price container (class pd-price). */
  datatype PriceBox = PriceBox(
    oneLine: Option<string>,     // text of its <div class="resp-one-line">
    text: string)

  /** The "from" label (<div class="br-pdFrom">). */
  datatype FromBox = FromBox(
    span: Option<string>,        // text of its first <span>
    text: string)

  /**
   * One candidate card: its markup (tag name, attributes and contents, which
   * is what bs4 compares and hashes tags by) and what the field look-ups find.
   * The look-ups that climb to an enclosing <a> can reach outside the card, so
   * two cards with the same markup may differ in the other fields.
   */
  datatype Card = Card(
    markup: string,
    ownHref: Option<string>,           // the card is itself an <a> with this href
    titleBox: Option<TitleBox>,
    priceBox: Option<PriceBox>,
    headingAnchorHref: Option<string>, // href of the <a href> enclosing the card's first <h3>
    firstAnchorHref: Option<string>,   // href of the first <a href> inside the card
    sellerName: Option<Option<string>>,// the br-sellerName div, and the text of its br-seller div
    merchantText: Option<string>,      // text of the first element with a merchant class
    fromBox: Option<FromBox>)

  /** One listing, with the four fields in the order the source writes them. */
  datatype Product = Product(title: string, price: string, link: string, store: string)

  /** A parsed page: for each selector, the cards it matches in document order. */
  datatype Document = Document(matches: map<string, seq<Card>>)

  /** The selectors for product cards, in priority order. */
  const CardSelectors: seq<string> := [
    "li.GridItem", "div.br-resultsItemObsRV", "div.sh-dlr__list-result",
    "div.sh-dgr__grprod", "div.br-card", "div.Card", "div.algocore",
    "div.product-item", "div[data-hveid]", "div[data-listing-id]"
  ]

  /** `soup.select(sel)`. */
  function Select(doc: Document, sel: string): seq<Card> {
    if sel in doc.matches then doc.matches[sel] else []
  }

  /** The matches of each selector of `sels`, selector by selector. */
  function SelectAll(doc: Document, sels: seq<string>): (groups: seq<seq<Card>>)
    ensures |groups| == |sels|
    ensures forall k :: 0 <= k < |sels| ==> groups[k] == Select(doc, sels[k])
  {
    seq(|sels|, k requires 0 <= k < |sels| => Select(doc, sels[k]))
  }

  /** The groups one after another, each in its own order. */
  function Concat(groups: seq<seq<Card>>): (r: seq<Card>)
    ensures forall c :: c in r <==> exists k :: 0 <= k < |groups| && c in groups[k]
  {
    if groups == [] then []
    else
      var init := groups[..|groups| - 1];
      var r := Concat(init) + groups[|groups| - 1];
      assert forall k :: 0 <= k < |init| ==> init[k] == groups[k];
      r
  }

  /** All candidate cards of a page, before de-duplication: the matches of every selector, in selector order. */
  function Candidates(doc: Document): (cards: seq<Card>)
    ensures forall c :: c in cards <==> exists k :: 0 <= k < |CardSelectors| && c in Select(doc, CardSelectors[k])
  {
    Concat(SelectAll(doc, CardSelectors))
  }

  /** No element occurs twice. */
  predicate NoDuplicates<T(==)>(s: seq<T>) {
    forall i, j :: 0 <= i < j < |s| ==> s[i] != s[j]
  }

  /** The markup of each card, in order: the keys `dict.fromkeys` sees. */
  function Markups(cards: seq<Card>): (ms: seq<string>)
    ensures |ms| == |cards|
    ensures forall i :: 0 <= i < |cards| ==> ms[i] == cards[i].markup
  {
    seq(|cards|, i requires 0 <= i < |cards| => cards[i].markup)
  }

  /** The markups of a longer list of cards extend those of a shorter one. */
  lemma MarkupsSnoc(cards: seq<Card>, c: Card)
    ensures Markups(cards + [c]) == Markups(cards) + [c.markup]
  {
  }

  /**
   * `list(dict.fromkeys(cards))`: for each markup, the first card that has
   * it, in order. Every kept card comes from the list, no markup is kept
   * twice, and every markup of the list is kept.
   */
  function Dedup(cards: seq<Card>): (r: seq<Card>)
    ensures NoDuplicates(Markups(r))
    ensures forall c :: c in r ==> c in cards
    ensures forall m :: m in Markups(r) <==> m in Markups(cards)
    ensures |r| <= |cards|
  {
    if cards == [] then []
    else
      var init := cards[..|cards| - 1];
      var last := cards[|cards| - 1];
      assert cards == init + [last];
      MarkupsSnoc(init, last);
      if last.markup in Markups(init) then Dedup(init)
      else
        MarkupsSnoc(Dedup(init), last);
        Dedup(init) + [last]
  }

  /** The index of the first occurrence of `x` in `s`. */
  function FirstIndex<T(==)>(s: seq<T>, x: T): (i: nat)
    requires x in s
    ensures i < |s| && s[i] == x && x !in s[..i]
  {
    if s[0] == x then 0
    else
      var i := 1 + FirstIndex(s[1..], x);
      assert s[..i] == [s[0]] + s[1..][..i - 1];
      i
  }

  /** Extending a sequence does not move the first occurrence of an element it already holds. */
  lemma FirstIndexOfPrefix<T>(s: seq<T>, prefix: seq<T>, x: T)
    requires |prefix| <= |s| && prefix == s[..|prefix|] && x in prefix
    ensures x in s && FirstIndex(s, x) == FirstIndex(prefix, x)
  {
    var i := FirstIndex(prefix, x);
    assert prefix[..i] == s[..i];
  }

  /** The `i`-th kept card is the first card of the list that has its markup. */
  lemma {:induction false} DedupKeepsFirst(cards: seq<Card>, i: nat)
    requires i < |Dedup(cards)|
    ensures var m := Dedup(cards)[i].markup;
      m in Markups(cards) && Dedup(cards)[i] == cards[FirstIndex(Markups(cards), m)]
    decreases |cards|
  {
    var init := cards[..|cards| - 1];
    var last := cards[|cards| - 1];
    var d := Dedup(init);
    assert cards == init + [last];
    MarkupsSnoc(init, last);
    var ms := Markups(cards);
    assert Markups(init) == ms[..|init|];
    if i < |d| {
      assert Dedup(cards)[i] == d[i];
      DedupKeepsFirst(init, i);
      FirstIndexOfPrefix(ms, Markups(init), d[i].markup);
    } else {
      assert Dedup(cards) == d + [last] && Dedup(cards)[i] == last;
    }
  }

  /** Kept cards are in the order in which their markups first occur in the list. */
  lemma {:induction false} DedupFirstSeenOrder(cards: seq<Card>, i: nat, j: nat)
    requires i < j < |Dedup(cards)|
    ensures var d := Dedup(cards); var ms := Markups(cards);
      && d[i].markup in ms && d[j].markup in ms
      && FirstIndex(ms, d[i].markup) < FirstIndex(ms, d[j].markup)
    decreases |cards|
  {
    var init := cards[..|cards| - 1];
    var last := cards[|cards| - 1];
    var d := Dedup(init);
    assert cards == init + [last];
    MarkupsSnoc(init, last);
    var ms := Markups(cards);
    assert Markups(init) == ms[..|init|];
    if last.markup in Markups(init) || j < |d| {
      assert Dedup(cards)[i] == d[i] && Dedup(cards)[j] == d[j];
      DedupFirstSeenOrder(init, i, j);
      FirstIndexOfPrefix(ms, Markups(init), d[i].markup);
      FirstIndexOfPrefix(ms, Markups(init), d[j].markup);
    } else {
      assert Dedup(cards) == d + [last];
      assert Dedup(cards)[i] == d[i] && Dedup(cards)[j] == last;
      MarkupsSnoc(d, last);
      assert d[i].markup == Markups(d)[i];
      FirstIndexOfPrefix(ms, Markups(init), d[i].markup);
    }
  }

  /** The title: the titled span's text, else the container's text, else "N/A". */
  function Title(c: Card): (t: string)
    ensures c.titleBox.None? ==> t == NA
    ensures c.titleBox.Some? && c.titleBox.value.spanTitle.Some? ==> t == c.titleBox.value.spanTitle.value
    ensures c.titleBox.Some? && c.titleBox.value.spanTitle.None? ==> t == c.titleBox.value.text
  {
    match c.titleBox
    case None => NA
    case Some(b) => if b.spanTitle.Some? then b.spanTitle.value else b.text
  }

  /** The price: the one-line price text, else the container's text, else "N/A". */
  function Price(c: Card): (t: string)
    ensures c.priceBox.None? ==> t == NA
    ensures c.priceBox.Some? && c.priceBox.value.oneLine.Some? ==> t == c.priceBox.value.oneLine.value
    ensures c.priceBox.Some? && c.priceBox.value.oneLine.None? ==> t == c.priceBox.value.text
  {
    match c.priceBox
    case None => NA
    case Some(b) => if b.oneLine.Some? then b.oneLine.value else b.text
  }

  /**
   * The raw link: the card's own href if it is an anchor; otherwise the anchor
   * enclosing the title container, then the one enclosing the first heading,
   * then the first anchor inside the card; "N/A" when there is none.
   */
  function RawLink(c: Card): (link: string)
    ensures c.ownHref.Some? ==> link == c.ownHref.value
    ensures (c.ownHref.None? && c.titleBox.Some? && c.titleBox.value.anchorHref.Some?) ==>
      link == c.titleBox.value.anchorHref.value
    ensures (c.ownHref.None? && (c.titleBox.None? || c.titleBox.value.anchorHref.None?) &&
             c.headingAnchorHref.Some?) ==> link == c.headingAnchorHref.value
    ensures (c.ownHref.None? && (c.titleBox.None? || c.titleBox.value.anchorHref.None?) &&
             c.headingAnchorHref.None? && c.firstAnchorHref.Some?) ==> link == c.firstAnchorHref.value
    ensures (c.ownHref.None? && c.firstAnchorHref.None? && c.headingAnchorHref.None? &&
             (c.titleBox.None? || c.titleBox.value.anchorHref.None?)) ==> link == NA
  {
    if c.ownHref.Some? then c.ownHref.value
    else
      var enclosing :=
        if c.titleBox.Some? && c.titleBox.value.anchorHref.Some? then c.titleBox.value.anchorHref
        else if c.headingAnchorHref.Some? then c.headingAnchorHref
        else None;
      var tag := if enclosing.None? then c.firstAnchorHref else enclosing;
      if tag.Some? then tag.value else NA
  }

  /** The text of the seller div, or "N/A". */
  function SellerStore(c: Card): string {
    if c.sellerName.Some? && c.sellerName.value.Some? then c.sellerName.value.value else NA
  }

  /** A leading "from " in any case is removed and the remainder stripped; other texts stay as they are. */
  function StripFromPrefix(t: string): (r: string)
    ensures |r| <= |t|
    ensures r != t ==> StartsWith(Lower(t), "from ")
  {
    if StartsWith(Lower(t), "from ") then Strip(t[5..]) else t
  }

  /** The store named by the "from" label: its span's text, else its own text, without the "from " prefix. */
  function FromLabelStore(b: FromBox): string {
    StripFromPrefix(if b.span.Some? then b.span.value else b.text)
  }

  /**
   * The store: the seller div; only if that left "N/A", the merchant element;
   * only if the store is still "N/A", the "from" label.
   */
  function Store(c: Card): (r: string)
    ensures SellerStore(c) != NA ==> r == SellerStore(c)
    ensures SellerStore(c) == NA && c.merchantText.Some? && c.merchantText.value != NA ==> r == c.merchantText.value
    ensures SellerStore(c) == NA && (c.merchantText.None? || c.merchantText.value == NA) ==>
      r == if c.fromBox.Some? then FromLabelStore(c.fromBox.value) else NA
  {
    var seller := SellerStore(c);
    var merchant := if seller == NA && c.merchantText.Some? then c.merchantText.value else seller;
    if merchant == NA && c.fromBox.Some? then FromLabelStore(c.fromBox.value) else merchant
  }

  /** The listing a card yields: its fields, with the link made absolute. */
  function CardToProduct(c: Card): Product {
    Product(Title(c), Price(c), Absolutize(RawLink(c)), Store(c))
  }

  /** A listing is retained when its title or its link is neither "N/A" nor blank. */
  predicate Keep(p: Product) {
    (p.title != NA && Strip(p.title) != "") || (p.link != NA && Strip(p.link) != "")
  }

  /** The listings of the kept cards, in card order. */
  function KeptProducts(cards: seq<Card>): (ps: seq<Product>)
    ensures |ps| <= |cards|
    ensures forall p :: p in ps ==> Keep(p) && exists c :: c in cards && CardToProduct(c) == p
    ensures forall c :: c in cards && Keep(CardToProduct(c)) ==> CardToProduct(c) in ps
  {
    if cards == [] then []
    else
      var init := cards[..|cards| - 1];
      var last := cards[|cards| - 1];
      assert cards == init + [last];
      var p := CardToProduct(last);
      if Keep(p) then KeptProducts(init) + [p] else KeptProducts(init)
  }

  /** One card yields its listing when that listing is kept, and nothing otherwise. */
  lemma KeptProductsSingle(c: Card)
    ensures KeptProducts([c]) == if Keep(CardToProduct(c)) then [CardToProduct(c)] else []
  {
    assert [c][..0] == [];
  }

  /**
   * The listings of two runs of cards are those of the first run followed by
   * those of the second: order is kept and each card contributes at most once.
   */
  lemma {:induction false} KeptProductsAppend(a: seq<Card>, b: seq<Card>)
    ensures KeptProducts(a + b) == KeptProducts(a) + KeptProducts(b)
    decreases |b|
  {
    if b == [] {
      assert a + b == a;
    } else {
      var init := b[..|b| - 1];
      assert (a + b)[..|a + b| - 1] == a + init;
      assert (a + b)[|a + b| - 1] == b[|b| - 1];
      KeptProductsAppend(a, init);
    }
  }

  /**
   * The listings of one fetched page. Nothing is extracted when there is no
   * response, when the response is falsy (status 400-599), when its body is
   * empty or when its status is 404, or when no selector matches a card.
   */
  function PageProducts(resp: Option<Response>, parse: string -> Document): (ps: seq<Product>)
    ensures resp.None? || !IsTruthy(resp.value) || resp.value.text == "" ==> ps == []
  {
    if resp.None? || !IsTruthy(resp.value) then []
    else if resp.value.text == "" then []
    else if resp.value.status == 404 then []
    else
      var cards := Dedup(Candidates(parse(resp.value.text)));
      if cards == [] then [] else KeptProducts(cards)
  }

  /**
   * Every listing a page yields passes the retention test, and its link has
   * been through `Absolutize`: it is absolute, or empty when the card's href
   * is empty (an empty href is not joined, and such a card is still kept
   * when its title is meaningful).
   */
  lemma PageListingsKeptAndAbsolutized(resp: Option<Response>, parse: string -> Document)
    ensures forall p :: p in PageProducts(resp, parse) ==> Keep(p) && Absolutize(p.link) == p.link
    ensures forall p :: p in PageProducts(resp, parse) ==> p.link == "" || HttpPrefixed(p.link) || HasScheme(p.link)
  {
    var ps := PageProducts(resp, parse);
    forall p | p in ps
      ensures Keep(p) && Absolutize(p.link) == p.link
      ensures p.link == "" || HttpPrefixed(p.link) || HasScheme(p.link)
    {
      var cards := Dedup(Candidates(parse(resp.value.text)));
      var c :| c in cards && CardToProduct(c) == p;
      AbsolutizeIdempotent(RawLink(c));
    }
  }

  /** Every error status, 404 among them, yields no listings: the 404 test is never reached. */
  lemma ErrorStatusYieldsNothing(status: int, text: string, parse: string -> Document)
    requires 400 <= status < 600
    ensures PageProducts(Some(Response(status, text)), parse) == []
  {
  }

  /**
   * A card is retained exactly when its title is meaningful or its raw link is
   * not the empty string: the default link "N/A" is absolutized too, so only a
   * card whose href is empty and whose title is missing or blank is dropped.
   */
  lemma KeepIff(c: Card)
    ensures Keep(CardToProduct(c)) <==> (Title(c) != NA && Strip(Title(c)) != "") || RawLink(c) != ""
  {
    var raw := RawLink(c);
    if raw != "" {
      AbsolutizedLinkIsNotBlank(raw);
    } else {
      assert Absolutize(raw) == "";
      assert IsBlank("");
    }
  }

  /** A non-empty link stays non-blank once absolutized, since it then starts with a scheme letter. */
  lemma AbsolutizedLinkIsNotBlank(raw: string)
    requires raw != ""
    ensures Absolutize(raw) != NA && Strip(Absolutize(raw)) != ""
  {
    var link := Absolutize(raw);
    if StartsWith(link, "http://") {
      assert link[0] == link[..7][0] == 'h';
    } else if StartsWith(link, "https://") {
      assert link[0] == link[..8][0] == 'h';
    } else {
      assert HasScheme(link);
      var i :| 0 < i < |link| && link[i] == ':' && IsSchemeName(link[..i]);
      assert link[..i][0] == link[0];
    }
    assert !IsSpace(link[0]);
    assert !IsBlank(link);
  }

  /** Even a card with no title, no anchor and no href at all is retained, with the absolutized default link. */
  lemma LinklessCardIsKept(c: Card)
    requires c.ownHref.None? && c.firstAnchorHref.None?
    requires c.titleBox.None? && c.headingAnchorHref.None?
    ensures Keep(CardToProduct(c))
    ensures CardToProduct(c).link == "https://www.bing.com/N/A"
  {
    DefaultLinkIsAbsolutized();
    KeepIff(c);
  }

  /**
   * A card in which no look-up finds anything keeps every field at its default
   * "N/A", except the link, which is absolutized like any other.
   */
  lemma BareCardDefaults(c: Card)
    requires c.ownHref.None? && c.firstAnchorHref.None? && c.headingAnchorHref.None?
    requires c.titleBox.None? && c.priceBox.None?
    requires c.sellerName.None? && c.merchantText.None? && c.fromBox.None?
    ensures CardToProduct(c) == Product(NA, NA, "https://www.bing.com/N/A", NA)
  {
    DefaultLinkIsAbsolutized();
  }

  /** A "from " prefix in any letter case is removed and the rest stripped. */
  lemma FromPrefixAnyCase(prefix: string, rest: string)
    requires Lower(prefix) == "from "
    ensures StripFromPrefix(prefix + rest) == Strip(rest)
  {
    var t := prefix + rest;
    LowerSlice(t, 0, 5);
    assert t[..5] == prefix;
    assert t[5..] == rest;
  }

  /** Collect the matches of every selector, in selector order. */
  method CollectCandidates(doc: Document) returns (cards: seq<Card>)
    ensures cards == Candidates(doc)
  {
    ghost var groups := SelectAll(doc, CardSelectors);
    cards := [];
    var k := 0;
    while k < |CardSelectors|
      invariant 0 <= k <= |CardSelectors|
      invariant cards == Concat(groups[..k])
    {
      var found := Select(doc, CardSelectors[k]);
      if found != [] {
        cards := cards + found;
      }
      assert groups[..k + 1][..k] == groups[..k];
      k := k + 1;
    }
    assert groups[..k] == groups;
  }

  /** Keep the first card of every markup (`list(dict.fromkeys(cards))`). */
  method UniqueCards(cards: seq<Card>) returns (unique: seq<Card>)
    ensures unique == Dedup(cards)
    ensures NoDuplicates(Markups(unique))
    ensures forall c :: c in unique ==> c in cards
    ensures forall c :: c in cards ==> c.markup in Markups(unique)
  {
    unique := [];
    var seen: set<string> := {};
    for i := 0 to |cards|
      invariant unique == Dedup(cards[..i])
      invariant forall m :: m in seen <==> m in Markups(cards[..i])
    {
      assert cards[..i + 1] == cards[..i] + [cards[i]];
      MarkupsSnoc(cards[..i], cards[i]);
      if cards[i].markup !in seen {
        unique := unique + [cards[i]];
        seen := seen + {cards[i].markup};
      }
    }
    assert cards[..|cards|] == cards;
    assert forall c :: c in cards ==> c.markup in Markups(cards);
  }

  /** Build a listing per card and keep those that pass the retention test. */
  method BuildProducts(cards: seq<Card>) returns (products: seq<Product>)
    ensures products == KeptProducts(cards)
    ensures forall p :: p in products ==> Keep(p)
  {
    products := [];
    for i := 0 to |cards|
      invariant products == KeptProducts(cards[..i])
    {
      assert cards[..i + 1][..i] == cards[..i];
      var card := cards[i];
      var data := Product(NA, NA, NA, NA);
      data := data.(title := Title(card));
      data := data.(price := Price(card));
      data := data.(link := RawLink(card));
      data := data.(store := Store(card));
      if data.link != "" && !HttpPrefixed(data.link) {
        data := data.(link := JoinToBase(Strip(data.link)));
      }
      assert data == CardToProduct(card);
      if Keep(data) {
        products := products + [data];
      }
    }
    assert cards[..|cards|] == cards;
  }

  /** The extraction pipeline on a fetched response, as `extract_product_info_from_page` runs it. */
  method ExtractFromResponse(resp: Option<Response>, parse: string -> Document) returns (products: seq<Product>)
    ensures products == PageProducts(resp, parse)
  {
    products := [];
    if resp.None? || !IsTruthy(resp.value) {
      return;
    }
    if resp.value.text == "" {
      return;
    }
    if resp.value.status == 404 {
      return;
    }
    var doc := parse(resp.value.text);
    var candidates := CollectCandidates(doc);
    var unique := UniqueCards(candidates);
    if unique == [] {
      return;
    }
    products := BuildProducts(unique);
  }
}
