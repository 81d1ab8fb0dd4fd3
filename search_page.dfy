/** `SearchPage.get_products_under_price`: walks the result pages and their product cards and
    collects up to `limit` distinct product links whose price is at most the maximum.
    The browser is outside the model: the result pages are a finite list, each with what the
    locators find on it, and `priceOk(t)` says whether `float(t) <= max_price` (None when
    `float(t)` raises). */
module SearchPage {
  import opened Wrappers
  import opened Text
  import opened Values

  /** What one PRODUCT_PRICE locator finds in a card: nothing, a first element's text, or an exception. */
  datatype Probe = NoMatch | Match(text: string) | ProbeRaised

  /** A product card: one probe per price locator, in locator order, and the `href` of its first
      link (None when there is no link, no attribute, or the lookup raised). */
  datatype Card = Card(prices: seq<Probe>, href: Option<string>)

  /** What the next-page lookup finds: nothing (the lookup raised), or a button and the page it leads to. */
  datatype NextButton = Missing | Present(enabled: bool, visible: bool, target: nat)

  /** A result page: its URL, the failure message when the products grid is not found, its cards
      and its next button. */
  datatype ResultPage = ResultPage(url: string, gridFailure: Option<string>, cards: seq<Card>, next: NextButton)

  /** `s.replace(c, '')` */
  function Remove(s: string, c: char): (r: string)
    ensures c !in r
    ensures forall x :: x in r ==> x in s
  {
    if s == [] then [] else (if s[0] == c then [] else [s[0]]) + Remove(s[1..], c)
  }

  /** The raw price text with thousands separators and currency signs removed, then stripped. */
  function CleanPrice(text: string): string {
    Strip(Remove(Remove(Remove(text, ','), '₪'), '$'))
  }

  predicate IsPriceChar(c: char) { IsDigit(c) || c == '.' }

  /** `''.join(c for c in t if c.isdigit() or c == '.')` */
  function PriceDigits(t: string): string {
    if t == [] then [] else (if IsPriceChar(t[0]) then [t[0]] else []) + PriceDigits(t[1..])
  }

  /** The filtered price holds only digits and '.', and every one of its characters comes from the input. */
  lemma {:induction false} PriceDigitsAlphabet(t: string)
    ensures forall i :: 0 <= i < |PriceDigits(t)| ==> IsPriceChar(PriceDigits(t)[i])
    ensures multiset(PriceDigits(t)) <= multiset(t)
  {
    if t != [] {
      var rest := PriceDigits(t[1..]);
      PriceDigitsAlphabet(t[1..]);
      assert t == [t[0]] + t[1..];
      assert multiset(t) == multiset([t[0]]) + multiset(t[1..]);
      if IsPriceChar(t[0]) {
        assert PriceDigits(t) == [t[0]] + rest;
        forall i | 0 <= i < |PriceDigits(t)| ensures IsPriceChar(PriceDigits(t)[i]) {
          if i > 0 { assert PriceDigits(t)[i] == rest[i - 1]; }
        }
        assert multiset(PriceDigits(t)) == multiset([t[0]]) + multiset(rest);
      } else {
        assert PriceDigits(t) == rest;
      }
    }
  }

  /** A text made only of digits and '.' passes the filter unchanged. */
  lemma {:induction false} PriceDigitsKeepsPriceText(t: string)
    requires forall i :: 0 <= i < |t| ==> IsPriceChar(t[i])
    ensures PriceDigits(t) == t
  {
    if t != [] {
      assert forall i :: 0 <= i < |t[1..]| ==> IsPriceChar(t[1..][i]) by {
        forall i | 0 <= i < |t[1..]| ensures IsPriceChar(t[1..][i]) { assert t[1..][i] == t[i + 1]; }
      }
      PriceDigitsKeepsPriceText(t[1..]);
      assert t == [t[0]] + t[1..];
    }
  }

  /** Filtering a second time changes nothing. */
  lemma PriceDigitsIdempotent(t: string)
    ensures PriceDigits(PriceDigits(t)) == PriceDigits(t)
  {
    PriceDigitsAlphabet(t);
    PriceDigitsKeepsPriceText(PriceDigits(t));
  }

  /** The price text of a card: the first price locator that matches supplies it, cleaned;
      a locator that matches nothing or raises passes the turn to the next one. */
  function PriceText(probes: seq<Probe>): Option<string> {
    if probes == [] then None
    else
      match probes[0]
      case Match(text) => Some(CleanPrice(text))
      case _ => PriceText(probes[1..])
  }

  /** The link a card contributes, if its price parses, is within the maximum, and it has a link. */
  function QualifyingHref(card: Card, priceOk: string -> Option<bool>): Option<string> {
    match PriceText(card.prices)
    case None => None
    case Some(t) =>
      if t == "" || priceOk(PriceDigits(t)) != Some(true) then None
      else if card.href.Some? && card.href.value != "" then card.href
      else None
  }

  /** One pass of the card loop. */
  function CardStep(links: seq<string>, card: Card, limit: int, priceOk: string -> Option<bool>): seq<string> {
    if |links| >= limit then links
    else
      match QualifyingHref(card, priceOk)
      case Some(h) => if h in links then links else links + [h]
      case None => links
  }

  /** The card loop over a whole page. */
  function ScanCards(cards: seq<Card>, links: seq<string>, limit: int, priceOk: string -> Option<bool>): seq<string> {
    if cards == [] then links
    else CardStep(ScanCards(cards[..|cards| - 1], links, limit, priceOk), cards[|cards| - 1], limit, priceOk)
  }

  predicate NoDuplicates(s: seq<string>) {
    forall i, j :: 0 <= i < j < |s| ==> s[i] != s[j]
  }

  /** The card loop only appends (so earlier links keep their order), never exceeds the limit,
      adds no duplicate, and adds only qualifying links of the scanned cards. While it stays below
      the limit, it adds every qualifying link of the scanned cards. */
  lemma {:induction false} ScanCardsProperties(cards: seq<Card>, links: seq<string>, limit: int,
                                               priceOk: string -> Option<bool>)
    ensures links <= ScanCards(cards, links, limit, priceOk)
    ensures |links| <= limit ==> |ScanCards(cards, links, limit, priceOk)| <= limit
    ensures |links| >= limit ==> ScanCards(cards, links, limit, priceOk) == links
    ensures NoDuplicates(links) ==> NoDuplicates(ScanCards(cards, links, limit, priceOk))
    ensures forall h :: h in ScanCards(cards, links, limit, priceOk) ==>
              h in links || exists c :: c in cards && QualifyingHref(c, priceOk) == Some(h)
    ensures |ScanCards(cards, links, limit, priceOk)| < limit ==>
              forall c :: c in cards && QualifyingHref(c, priceOk).Some? ==>
                QualifyingHref(c, priceOk).value in ScanCards(cards, links, limit, priceOk)
  {
    if cards != [] {
      var init := cards[..|cards| - 1];
      var last := cards[|cards| - 1];
      ScanCardsProperties(init, links, limit, priceOk);
      var before := ScanCards(init, links, limit, priceOk);
      assert ScanCards(cards, links, limit, priceOk) == CardStep(before, last, limit, priceOk);
      forall c | c in init ensures c in cards { }
      assert cards == init + [last];
    }
  }

  /** The card loop saturates: once the limit is reached the remaining cards change nothing. */
  lemma {:induction false} ScanCardsSaturated(cards: seq<Card>, i: nat, links: seq<string>, limit: int,
                                              priceOk: string -> Option<bool>)
    requires i <= |cards| && |ScanCards(cards[..i], links, limit, priceOk)| >= limit
    ensures ScanCards(cards, links, limit, priceOk) == ScanCards(cards[..i], links, limit, priceOk)
    decreases |cards| - i
  {
    if i < |cards| {
      assert cards[..i + 1][..i] == cards[..i];
      ScanCardsSaturated(cards, i + 1, links, limit, priceOk);
    } else {
      assert cards[..i] == cards;
    }
  }

  /** The qualifying links of `cards`, in card order, repeats included. */
  function Hrefs(cards: seq<Card>, priceOk: string -> Option<bool>): seq<string> {
    if cards == [] then []
    else
      Hrefs(cards[..|cards| - 1], priceOk) +
      match QualifyingHref(cards[|cards| - 1], priceOk)
      case Some(h) => [h]
      case None => []
  }

  /** `links` followed by each element of `hs` that is not yet present, in the order of `hs`. */
  function Dedup(links: seq<string>, hs: seq<string>): seq<string> {
    if hs == [] then links
    else
      var d := Dedup(links, hs[..|hs| - 1]);
      if hs[|hs| - 1] in d then d else d + [hs[|hs| - 1]]
  }

  /** The first `n` elements of `s` (all of them when there are fewer). */
  function Cap(s: seq<string>, n: int): seq<string> {
    if |s| <= n then s else if n <= 0 then [] else s[..n]
  }

  /** Deduplicating against `a` and then `b` is deduplicating against `a + b`. */
  lemma {:induction false} DedupConcat(links: seq<string>, a: seq<string>, b: seq<string>)
    ensures Dedup(Dedup(links, a), b) == Dedup(links, a + b)
  {
    if b == [] {
      assert a + b == a;
    } else {
      var b' := b[..|b| - 1];
      DedupConcat(links, a, b');
      assert (a + b)[..|a + b| - 1] == a + b';
      assert (a + b)[|a + b| - 1] == b[|b| - 1];
    }
  }

  /** The card loop keeps, after the links it started with, the first new qualifying links in
      card order, and stops at exactly `limit` of them: the links it picks at the limit are
      the earliest ones. */
  lemma {:induction false} ScanCardsInOrder(cards: seq<Card>, links: seq<string>, limit: int,
                                            priceOk: string -> Option<bool>)
    requires |links| <= limit
    ensures ScanCards(cards, links, limit, priceOk) == Cap(Dedup(links, Hrefs(cards, priceOk)), limit)
  {
    if cards == [] {
    } else {
      var init := cards[..|cards| - 1];
      var last := cards[|cards| - 1];
      ScanCardsInOrder(init, links, limit, priceOk);
      var hs := Hrefs(init, priceOk);
      var d := Dedup(links, hs);
      var before := ScanCards(init, links, limit, priceOk);
      assert before == Cap(d, limit);
      match QualifyingHref(last, priceOk)
      case None =>
        assert Hrefs(cards, priceOk) == hs + [];
        assert hs + [] == hs;
      case Some(h) =>
        assert Hrefs(cards, priceOk) == hs + [h];
        assert (hs + [h])[..|hs + [h]| - 1] == hs;
        if |before| >= limit {
          assert |d| >= limit;
          assert (d + [h])[..limit] == d[..limit];
        }
    }
  }

  function Urls(pages: seq<ResultPage>): set<string> {
    set p | p in pages :: p.url
  }

  /** The page loop from page `cur`, with the URLs visited so far and the links collected so far. */
  function Collect(pages: seq<ResultPage>, cur: nat, visited: set<string>, links: seq<string>, limit: int,
                   priceOk: string -> Option<bool>): Result<seq<string>, Exception>
    requires cur < |pages| && visited <= Urls(pages)
    decreases |Urls(pages) - visited|
  {
    if |links| >= limit then Ok(links)
    else
      var page := pages[cur];
      if page.gridFailure.Some? then Err(Error(page.gridFailure.value))
      else
        var links := ScanCards(page.cards, links, limit, priceOk);
        if |links| >= limit then Ok(links)
        else
          match page.next
          case Missing => Ok(links)
          case Present(enabled, visible, target) =>
            if page.url in visited then Ok(links)
            else if enabled && visible && target < |pages| then
              assert page.url in Urls(pages);
              assert Urls(pages) - (visited + {page.url}) < Urls(pages) - visited;
              Collect(pages, target, visited + {page.url}, links, limit, priceOk)
            else Ok(links)
  }

  /** The pages whose cards the page loop scans from page `cur`, in the order it scans them. */
  function ScannedPages(pages: seq<ResultPage>, cur: nat, visited: set<string>, links: seq<string>, limit: int,
                        priceOk: string -> Option<bool>): (r: seq<nat>)
    requires cur < |pages| && visited <= Urls(pages)
    ensures forall i :: 0 <= i < |r| ==> r[i] < |pages|
    decreases |Urls(pages) - visited|
  {
    if |links| >= limit || pages[cur].gridFailure.Some? then []
    else
      var page := pages[cur];
      var links := ScanCards(page.cards, links, limit, priceOk);
      if |links| < limit && page.next.Present? && page.url !in visited && page.next.enabled &&
         page.next.visible && page.next.target < |pages| then
        assert page.url in Urls(pages);
        assert Urls(pages) - (visited + {page.url}) < Urls(pages) - visited;
        [cur] + ScannedPages(pages, page.next.target, visited + {page.url}, links, limit, priceOk)
      else [cur]
  }

  /** The qualifying links of the pages `order`, page after page, each in card order. */
  function WalkHrefs(pages: seq<ResultPage>, order: seq<nat>, priceOk: string -> Option<bool>): seq<string> {
    if order == [] then []
    else
      (if order[0] < |pages| then Hrefs(pages[order[0]].cards, priceOk) else []) +
      WalkHrefs(pages, order[1..], priceOk)
  }

  /** `h` is the qualifying link of a card on one of the pages `scanned`. */
  predicate QualifiesOn(pages: seq<ResultPage>, scanned: seq<nat>, h: string, priceOk: string -> Option<bool>) {
    exists p, c :: p in scanned && 0 <= p < |pages| && c in pages[p].cards && QualifyingHref(c, priceOk) == Some(h)
  }

  /** Every qualifying link of a card on one of the pages `scanned` is in `links`. */
  predicate HoldsAllOn(pages: seq<ResultPage>, scanned: seq<nat>, links: seq<string>, priceOk: string -> Option<bool>) {
    forall p, c :: p in scanned && 0 <= p < |pages| && c in pages[p].cards && QualifyingHref(c, priceOk).Some? ==>
                     QualifyingHref(c, priceOk).value in links
  }

  /** One page scanned below the limit: its new links qualify on it, and all its qualifying links are kept. */
  lemma ScanOnePage(pages: seq<ResultPage>, cur: nat, links: seq<string>, limit: int, priceOk: string -> Option<bool>)
    requires cur < |pages|
    ensures var next := ScanCards(pages[cur].cards, links, limit, priceOk);
            (forall h :: h in next ==> h in links || QualifiesOn(pages, [cur], h, priceOk)) &&
            (|next| < limit ==> HoldsAllOn(pages, [cur], next, priceOk))
  {
    var cards := pages[cur].cards;
    var next := ScanCards(cards, links, limit, priceOk);
    ScanCardsProperties(cards, links, limit, priceOk);
    forall h | h in next && h !in links ensures QualifiesOn(pages, [cur], h, priceOk) {
      var c :| c in cards && QualifyingHref(c, priceOk) == Some(h);
      assert cur in [cur] && c in pages[cur].cards;
    }
  }

  /** The current page together with the pages of the rest of the walk: a link qualifying on
      either qualifies on both, and links holding all of each hold all of both. */
  lemma ScannedUnion(pages: seq<ResultPage>, cur: nat, rest: seq<nat>, next: seq<string>, r: seq<string>,
                     priceOk: string -> Option<bool>)
    ensures forall h :: QualifiesOn(pages, [cur], h, priceOk) ==> QualifiesOn(pages, [cur] + rest, h, priceOk)
    ensures forall h :: QualifiesOn(pages, rest, h, priceOk) ==> QualifiesOn(pages, [cur] + rest, h, priceOk)
    ensures next <= r && HoldsAllOn(pages, [cur], next, priceOk) && HoldsAllOn(pages, rest, r, priceOk) ==>
              HoldsAllOn(pages, [cur] + rest, r, priceOk)
  {
    forall h | QualifiesOn(pages, [cur], h, priceOk) ensures QualifiesOn(pages, [cur] + rest, h, priceOk) {
      var p, c :| p in [cur] && 0 <= p < |pages| && c in pages[p].cards && QualifyingHref(c, priceOk) == Some(h);
      assert p in [cur] + rest;
    }
    forall h | QualifiesOn(pages, rest, h, priceOk) ensures QualifiesOn(pages, [cur] + rest, h, priceOk) {
      var p, c :| p in rest && 0 <= p < |pages| && c in pages[p].cards && QualifyingHref(c, priceOk) == Some(h);
      assert p in [cur] + rest;
    }
    if next <= r && HoldsAllOn(pages, [cur], next, priceOk) && HoldsAllOn(pages, rest, r, priceOk) {
      forall p, c | p in [cur] + rest && 0 <= p < |pages| && c in pages[p].cards && QualifyingHref(c, priceOk).Some?
        ensures QualifyingHref(c, priceOk).value in r
      {
        if p == cur {
          assert p in [cur];
          assert QualifyingHref(c, priceOk).value in next;
        } else {
          assert p in rest;
        }
      }
    }
  }

  /** What the page loop returns: at most `limit` links (none for a limit of 0 or less), no
      duplicates, with the links found earlier first, and each new link a qualifying link of a
      page the walk scanned. When it ends below the limit, every qualifying link of every page it
      scanned is among them. */
  lemma {:induction false} CollectProperties(pages: seq<ResultPage>, cur: nat, visited: set<string>,
                                             links: seq<string>, limit: int, priceOk: string -> Option<bool>)
    requires cur < |pages| && visited <= Urls(pages)
    requires |links| <= if limit < 0 then 0 else limit
    requires NoDuplicates(links)
    ensures var r := Collect(pages, cur, visited, links, limit, priceOk);
            var scanned := ScannedPages(pages, cur, visited, links, limit, priceOk);
            r.Ok? ==> links <= r.value && |r.value| <= (if limit < 0 then 0 else limit) && NoDuplicates(r.value) &&
                      (forall h :: h in r.value ==> h in links || QualifiesOn(pages, scanned, h, priceOk)) &&
                      (|r.value| < limit ==> HoldsAllOn(pages, scanned, r.value, priceOk))
    decreases |Urls(pages) - visited|
  {
    if |links| < limit && pages[cur].gridFailure.None? {
      var page := pages[cur];
      var next := ScanCards(page.cards, links, limit, priceOk);
      ScanCardsProperties(page.cards, links, limit, priceOk);
      ScanOnePage(pages, cur, links, limit, priceOk);
      if |next| < limit && page.next.Present? && page.url !in visited && page.next.enabled &&
         page.next.visible && page.next.target < |pages| {
        assert page.url in Urls(pages);
        assert Urls(pages) - (visited + {page.url}) < Urls(pages) - visited;
        var visited' := visited + {page.url};
        var target := page.next.target;
        CollectProperties(pages, target, visited', next, limit, priceOk);
        var r := Collect(pages, target, visited', next, limit, priceOk);
        if r.Ok? {
          ScannedUnion(pages, cur, ScannedPages(pages, target, visited', next, limit, priceOk), next, r.value, priceOk);
        }
      }
    }
  }

  /** The page loop keeps, after the links it started with, the first new qualifying links in
      the order it walks the pages and, on each page, in card order; it stops at exactly
      `limit` of them, so the links it picks at the limit are the earliest ones on the walk. */
  lemma {:induction false} CollectInOrder(pages: seq<ResultPage>, cur: nat, visited: set<string>,
                                          links: seq<string>, limit: int, priceOk: string -> Option<bool>)
    requires cur < |pages| && visited <= Urls(pages)
    requires |links| <= limit
    ensures var r := Collect(pages, cur, visited, links, limit, priceOk);
            r.Ok? ==>
              r.value == Cap(Dedup(links, WalkHrefs(pages, ScannedPages(pages, cur, visited, links, limit, priceOk),
                                                    priceOk)), limit)
    decreases |Urls(pages) - visited|
  {
    if |links| < limit && pages[cur].gridFailure.None? {
      var page := pages[cur];
      var hs := Hrefs(page.cards, priceOk);
      var next := ScanCards(page.cards, links, limit, priceOk);
      ScanCardsInOrder(page.cards, links, limit, priceOk);
      if |next| < limit && page.next.Present? && page.url !in visited && page.next.enabled &&
         page.next.visible && page.next.target < |pages| {
        assert page.url in Urls(pages);
        assert Urls(pages) - (visited + {page.url}) < Urls(pages) - visited;
        var visited' := visited + {page.url};
        var target := page.next.target;
        var rest := ScannedPages(pages, target, visited', next, limit, priceOk);
        CollectInOrder(pages, target, visited', next, limit, priceOk);
        assert next == Dedup(links, hs);
        DedupConcat(links, hs, WalkHrefs(pages, rest, priceOk));
        assert ([cur] + rest)[0] == cur && ([cur] + rest)[1..] == rest;
      } else {
        assert WalkHrefs(pages, [cur], priceOk) == hs + [];
        assert hs + [] == hs;
      }
    }
  }

  /** Below the limit, on a page with a grid, a missing, disabled or hidden next button ends the
      walk with the links of that page's card loop. */
  lemma NextButtonStops(pages: seq<ResultPage>, cur: nat, visited: set<string>, links: seq<string>, limit: int,
                        priceOk: string -> Option<bool>)
    requires cur < |pages| && visited <= Urls(pages)
    requires |links| < limit && pages[cur].gridFailure.None?
    requires pages[cur].next.Missing? || !pages[cur].next.enabled || !pages[cur].next.visible
    ensures Collect(pages, cur, visited, links, limit, priceOk) == Ok(ScanCards(pages[cur].cards, links, limit, priceOk))
  {
  }

  /** A limit of 0 or less returns no links at once, without looking at the page. */
  lemma NonPositiveLimit(pages: seq<ResultPage>, cur: nat, limit: int, priceOk: string -> Option<bool>)
    requires cur < |pages| && limit <= 0
    ensures Collect(pages, cur, {}, [], limit, priceOk) == Ok([])
  {
  }

  /** Pagination stops at a page whose URL was seen before: its cards are scanned, and nothing after. */
  lemma RevisitStops(pages: seq<ResultPage>, cur: nat, visited: set<string>, links: seq<string>, limit: int,
                     priceOk: string -> Option<bool>)
    requires cur < |pages| && visited <= Urls(pages) && pages[cur].url in visited
    requires |links| < limit && pages[cur].gridFailure.None?
    ensures Collect(pages, cur, visited, links, limit, priceOk) == Ok(ScanCards(pages[cur].cards, links, limit, priceOk))
  {
  }

  /** `get_products_under_price`, starting on page `start`. */
  method GetProductsUnderPrice(pages: seq<ResultPage>, start: nat, limit: int, priceOk: string -> Option<bool>)
    returns (r: Result<seq<string>, Exception>)
    requires start < |pages|
    ensures r == Collect(pages, start, {}, [], limit, priceOk)
  {
    var links: seq<string> := [];
    var visited: set<string> := {};
    var cur: nat := start;
    while |links| < limit
      invariant cur < |pages| && visited <= Urls(pages)
      invariant Collect(pages, cur, visited, links, limit, priceOk) == Collect(pages, start, {}, [], limit, priceOk)
      decreases |Urls(pages) - visited|
    {
      var page := pages[cur];
      if page.gridFailure.Some? {
        return Err(Error(page.gridFailure.value));
      }
      ghost var links0 := links;
      var cards := page.cards;
      var i := 0;
      while i < |cards|
        invariant 0 <= i <= |cards|
        invariant links == ScanCards(cards[..i], links0, limit, priceOk)
      {
        if |links| >= limit {
          break;
        }
        var card := cards[i];
        var href := QualifyingHref(card, priceOk);
        if href.Some? && href.value !in links {
          links := links + [href.value];
        }
        assert cards[..i + 1][..i] == cards[..i];
        i := i + 1;
      }
      if i < |cards| {
        ScanCardsSaturated(cards, i, links0, limit, priceOk);
      } else {
        assert cards[..i] == cards;
      }
      if |links| >= limit {
        break;
      }
      match page.next
      case Missing =>
        break;
      case Present(enabled, visible, target) =>
        if page.url in visited {
          break;
        }
        assert page.url in Urls(pages);
        assert Urls(pages) - (visited + {page.url}) < Urls(pages) - visited;
        visited := visited + {page.url};
        if enabled && visible && target < |pages| {
          cur := target;
        } else {
          break;
        }
    }
    return Ok(links);
  }
}
