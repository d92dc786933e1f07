/**
 * `ScrapeData` of scraper.go: one visit of a page, whose callbacks record the
 * title and description and harvest de-duplicated text fragments from the
 * content-bearing elements into `allText`, which is then summarised.
 *
 * The HTML library's selector matching is replaced by its outcome: the texts
 * of the matched elements, in the order the callbacks see them.
 */
module Scraper {
  import opened Wrappers
  import opened GoStrings
  import opened JsonPattern

  /** The record `ScrapeData` fills in (its JSON encoding is not modelled). */
  datatype ScrapedData = ScrapedData(url: string, title: string, description: string, summary: string)

  /**
   * What one visit of the page delivers to the callbacks: the text of every
   * `title` element, the `content` attribute of every `meta[name=description]`
   * element, and the text of every element matched by the content selectors.
   */
  datatype Page = Page(titles: seq<string>, descriptions: seq<string>, fragments: seq<string>)

  /** The outcome of `c.Visit(url)`. */
  datatype Visit = Visited(page: Page) | VisitFailed(err: Error)

  /** The tests on a trimmed fragment other than "not seen before". */
  predicate Admissible(t: string) {
    t != "" && !MatchesJsonLike(t) && !Contains(t, "iframe")
  }

  /** The harvesting state: the `uniqueText` set and the contents of the `allText` builder. */
  datatype Harvest = Harvest(seen: set<string>, text: string)

  /** Every remembered fragment passed the filter and occurs in the text. */
  ghost predicate HarvestInv(h: Harvest) {
    forall t :: t in h.seen ==> Admissible(t) && Contains(h.text, t)
  }

  /** The effect of one element on the harvest. */
  function CollectStep(h: Harvest, raw: string): Harvest {
    var t := TrimSpace(raw);
    if t !in h.seen && Admissible(t) then
      Harvest(h.seen + {t}, if Contains(h.text, t) then h.text else h.text + t)
    else
      h
  }

  /** The effect of a sequence of elements, in visit order. */
  function CollectRun(h: Harvest, raws: seq<string>): Harvest
    decreases |raws|
  {
    if raws == [] then h else CollectRun(CollectStep(h, raws[0]), raws[1..])
  }

  /** The fragments appended to the text, in order. */
  function Pieces(h: Harvest, raws: seq<string>): seq<string>
    decreases |raws|
  {
    if raws == [] then []
    else
      var t := TrimSpace(raws[0]);
      var appended := t !in h.seen && Admissible(t) && !Contains(h.text, t);
      (if appended then [t] else []) + Pieces(CollectStep(h, raws[0]), raws[1..])
  }

  /** The concatenation of `ps`, with no separator. */
  function Concat(ps: seq<string>): string {
    if ps == [] then "" else ps[0] + Concat(ps[1..])
  }

  /** The text `allText` holds after a fresh harvest of `raws`. */
  function BodyText(raws: seq<string>): string {
    CollectRun(Harvest({}, ""), raws).text
  }

  /** The last element of `s`, or `default` when `s` is empty. */
  function LastOr(s: seq<string>, default: string): string {
    if s == [] then default else s[|s| - 1]
  }

  lemma CollectStepInv(h: Harvest, raw: string)
    requires HarvestInv(h)
    ensures HarvestInv(CollectStep(h, raw))
  {
    var t := TrimSpace(raw);
    if t !in h.seen && Admissible(t) {
      var h' := CollectStep(h, raw);
      if !Contains(h.text, t) {
        forall u | u in h.seen ensures Contains(h.text + t, u) {
          ContainsExtend(h.text, t, u);
        }
        ContainsAppended(h.text, t);
      }
    }
  }

  /** The harvest invariant holds all along the fold. */
  lemma {:induction false} CollectRunInv(h: Harvest, raws: seq<string>)
    requires HarvestInv(h)
    ensures HarvestInv(CollectRun(h, raws))
    decreases |raws|
  {
    if raws != [] {
      CollectStepInv(h, raws[0]);
      CollectRunInv(CollectStep(h, raws[0]), raws[1..]);
    }
  }

  /** The set only grows and the old text is always a prefix of the new one. */
  lemma {:induction false} CollectRunGrows(h: Harvest, raws: seq<string>)
    ensures h.seen <= CollectRun(h, raws).seen
    ensures h.text <= CollectRun(h, raws).text
    decreases |raws|
  {
    if raws != [] {
      CollectRunGrows(CollectStep(h, raws[0]), raws[1..]);
    }
  }

  /**
   * A fragment is remembered after the fold exactly when it was remembered
   * before, or it is the trimmed text of some visited element and passes the filter.
   */
  lemma {:induction false} CollectRunSeen(h: Harvest, raws: seq<string>, t: string)
    ensures t in CollectRun(h, raws).seen
        <==> t in h.seen || (Admissible(t) && exists i :: 0 <= i < |raws| && TrimSpace(raws[i]) == t)
    decreases |raws|
  {
    if raws != [] {
      var h' := CollectStep(h, raws[0]);
      CollectRunSeen(h', raws[1..], t);
      if exists i :: 0 <= i < |raws| - 1 && TrimSpace(raws[1..][i]) == t {
        var i :| 0 <= i < |raws| - 1 && TrimSpace(raws[1..][i]) == t;
        assert TrimSpace(raws[i + 1]) == t;
      }
      if exists i :: 0 <= i < |raws| && TrimSpace(raws[i]) == t {
        var i :| 0 <= i < |raws| && TrimSpace(raws[i]) == t;
        if i > 0 {
          assert TrimSpace(raws[1..][i - 1]) == t;
        }
      }
    }
  }

  /** The text grows by exactly the appended pieces. */
  lemma {:induction false} CollectRunText(h: Harvest, raws: seq<string>)
    ensures CollectRun(h, raws).text == h.text + Concat(Pieces(h, raws))
    decreases |raws|
  {
    if raws != [] {
      var h' := CollectStep(h, raws[0]);
      CollectRunText(h', raws[1..]);
      var t := TrimSpace(raws[0]);
      var ps := Pieces(h', raws[1..]);
      if t !in h.seen && Admissible(t) && !Contains(h.text, t) {
        assert Pieces(h, raws) == [t] + ps;
        assert Concat([t] + ps) == t + Concat(ps);
        assert h'.text == h.text + t;
      } else {
        assert Pieces(h, raws) == ps;
        assert h'.text == h.text;
      }
    }
  }

  /**
   * Each appended piece passed the filter on its own and was new to the set
   * (the concatenation as a whole is not re-checked).
   */
  lemma {:induction false} PiecesAdmissible(h: Harvest, raws: seq<string>, p: string)
    requires p in Pieces(h, raws)
    ensures Admissible(p) && p !in h.seen
    decreases |raws|
  {
    var h' := CollectStep(h, raws[0]);
    var t := TrimSpace(raws[0]);
    var ps := Pieces(h', raws[1..]);
    if t !in h.seen && Admissible(t) && !Contains(h.text, t) {
      assert Pieces(h, raws) == [t] + ps;
      if p != t {
        PiecesAdmissible(h', raws[1..], p);
      }
    } else {
      assert Pieces(h, raws) == ps;
      PiecesAdmissible(h', raws[1..], p);
    }
  }

  /** No fragment is appended twice: the pieces are pairwise distinct. */
  lemma {:induction false} PiecesDistinct(h: Harvest, raws: seq<string>)
    ensures forall i, j :: 0 <= i < j < |Pieces(h, raws)| ==> Pieces(h, raws)[i] != Pieces(h, raws)[j]
    decreases |raws|
  {
    if raws != [] {
      var h' := CollectStep(h, raws[0]);
      PiecesDistinct(h', raws[1..]);
      var t := TrimSpace(raws[0]);
      var ps := Pieces(h', raws[1..]);
      if t !in h.seen && Admissible(t) && !Contains(h.text, t) {
        assert t in h'.seen;
        assert Pieces(h, raws) == [t] + ps;
        if t in ps {
          PiecesAdmissible(h', raws[1..], t);
        }
      } else {
        assert Pieces(h, raws) == ps;
      }
    }
  }

  /** An element whose trimmed text is new, admissible and not inside the text is appended. */
  lemma CollectStepAppends(h: Harvest, raw: string)
    requires TrimSpace(raw) !in h.seen && Admissible(TrimSpace(raw)) && !Contains(h.text, TrimSpace(raw))
    ensures CollectStep(h, raw) == Harvest(h.seen + {TrimSpace(raw)}, h.text + TrimSpace(raw))
  {
  }

  /** An element whose trimmed text is already remembered, or fails the filter, changes nothing. */
  lemma CollectStepStable(h: Harvest, raw: string)
    requires TrimSpace(raw) in h.seen || !Admissible(TrimSpace(raw))
    ensures CollectStep(h, raw) == h
  {
  }

  /** After a fold, every element of it is remembered or rejected by the filter. */
  lemma {:induction false} CollectRunSettles(h: Harvest, raws: seq<string>)
    ensures forall i :: 0 <= i < |raws| ==>
      TrimSpace(raws[i]) in CollectRun(h, raws).seen || !Admissible(TrimSpace(raws[i]))
  {
    forall i | 0 <= i < |raws|
      ensures TrimSpace(raws[i]) in CollectRun(h, raws).seen || !Admissible(TrimSpace(raws[i]))
    {
      CollectRunSeen(h, raws, TrimSpace(raws[i]));
    }
  }

  /** Folding elements that are all settled changes nothing. */
  lemma {:induction false} CollectRunSettled(h: Harvest, raws: seq<string>)
    requires forall i :: 0 <= i < |raws| ==> TrimSpace(raws[i]) in h.seen || !Admissible(TrimSpace(raws[i]))
    ensures CollectRun(h, raws) == h
    decreases |raws|
  {
    if raws != [] {
      CollectStepStable(h, raws[0]);
      CollectRunSettled(h, raws[1..]);
    }
  }

  /** Seeing the same elements a second time has no effect. */
  lemma CollectRunRepeat(h: Harvest, raws: seq<string>)
    ensures CollectRun(CollectRun(h, raws), raws) == CollectRun(h, raws)
  {
    CollectRunSettles(h, raws);
    CollectRunSettled(CollectRun(h, raws), raws);
  }

  /**
   * Two admissible texts, the second not inside the first, are both kept, in
   * order and without a separator; an element repeating the first adds nothing.
   */
  lemma TwoFragments(a: string, b: string)
    requires TrimSpace(a) == a && TrimSpace(b) == b
    requires Admissible(a) && Admissible(b) && !Contains(a, b)
    ensures BodyText([a, b, a]) == a + b
    ensures CollectRun(Harvest({}, ""), [a, b, a]).seen == {a, b}
  {
    var h0, h1, h2 := Harvest({}, ""), Harvest({a}, a), Harvest({a, b}, a + b);
    FirstFragment(a);
    assert a != b by {
      if a == b {
        ContainsAppended([], a);
      }
    }
    SecondFragment(a, b);
    CollectStepStable(h2, a);
    var r0, r1, r2 := [a, b, a], [b, a], [a];
    assert r0[0] == a && r0[1..] == r1 && r1[0] == b && r1[1..] == r2 && r2[0] == a && r2[1..] == [];
    assert CollectRun(h2, r2) == h2 by {
      assert CollectRun(h2, r2) == CollectRun(CollectStep(h2, a), []);
    }
    assert CollectRun(h1, r1) == h2 by {
      assert CollectRun(h1, r1) == CollectRun(CollectStep(h1, b), r2);
    }
    assert CollectRun(h0, r0) == CollectRun(CollectStep(h0, a), r1);
  }

  /** The first callback of `TwoFragments`: an admissible text starts the harvest. */
  lemma FirstFragment(a: string)
    requires TrimSpace(a) == a && Admissible(a)
    ensures CollectStep(Harvest({}, ""), a) == Harvest({a}, a)
  {
    assert !Contains("", a);
    CollectStepAppends(Harvest({}, ""), a);
  }

  /** The second callback of `TwoFragments`: a new text not inside the first is appended. */
  lemma SecondFragment(a: string, b: string)
    requires TrimSpace(b) == b && Admissible(b) && a != b && !Contains(a, b)
    ensures CollectStep(Harvest({a}, a), b) == Harvest({a, b}, a + b)
  {
    CollectStepAppends(Harvest({a}, a), b);
    assert {a} + {b} == {a, b};
  }

  /** The state of one `ScrapeData` call: the record and the harvest. */
  class Scrape {
    var data: ScrapedData
    var uniqueText: set<string>
    var allText: string

    function Harvested(): Harvest
      reads this
    {
      Harvest(uniqueText, allText)
    }

    ghost predicate Valid()
      reads this
    {
      HarvestInv(Harvested())
    }

    /** `data := ScrapedData{URL: url}` with a fresh set and an empty builder. */
    constructor (url: string)
      ensures Valid()
      ensures data == ScrapedData(url, "", "", "")
      ensures uniqueText == {} && allText == ""
    {
      data := ScrapedData(url, "", "", "");
      uniqueText := {};
      allText := "";
    }

    /** The `title` callback: the element's text overwrites the title. */
    method OnTitle(text: string)
      modifies this`data
      ensures data == old(data).(title := text)
    {
      data := data.(title := text);
    }

    /** The `meta[name=description]` callback: the `content` attribute overwrites the description. */
    method OnDescription(content: string)
      modifies this`data
      ensures data == old(data).(description := content)
    {
      data := data.(description := content);
    }

    /** The per-element callback of the content selectors. */
    method OnContentElement(raw: string)
      requires Valid()
      modifies this`uniqueText, this`allText
      ensures Valid()
      ensures Harvested() == CollectStep(old(Harvested()), raw)
      ensures old(uniqueText) <= uniqueText && old(allText) <= allText
    {
      var text := TrimSpace(raw);
      if text !in uniqueText && text != "" && !MatchesJsonLike(text) && !Contains(text, "iframe") {
        uniqueText := uniqueText + {text};
        if !Contains(allText, text) {
          allText := allText + text;
        }
      }
      CollectStepInv(old(Harvested()), raw);
    }

    /** The content elements, visited in order. */
    method OnContentElements(raws: seq<string>)
      requires Valid()
      modifies this`uniqueText, this`allText
      ensures Valid()
      ensures Harvested() == CollectRun(old(Harvested()), raws)
    {
      for i := 0 to |raws|
        invariant Valid()
        invariant CollectRun(Harvested(), raws[i..]) == CollectRun(old(Harvested()), raws)
      {
        assert raws[i..][1..] == raws[i + 1..];
        OnContentElement(raws[i]);
      }
    }
  }

  /**
   * `ScrapeData(url)`: visit the page, then summarise the harvested text.
   * `summarize` stands for the summariser the text is handed to.
   */
  method ScrapeData(url: string, visit: Visit, summarize: string -> Result<string, Error>)
    returns (r: Result<ScrapedData, Error>)
    ensures visit.VisitFailed? ==> r == Failure(visit.err)
    ensures visit.Visited? && summarize(BodyText(visit.page.fragments)).Failure? ==>
      r == Failure(summarize(BodyText(visit.page.fragments)).error)
    ensures visit.Visited? && summarize(BodyText(visit.page.fragments)).Success? ==>
      r.Success? && r.value.url == url
      && r.value.title == LastOr(visit.page.titles, "")
      && r.value.description == LastOr(visit.page.descriptions, "")
      && r.value.summary == summarize(BodyText(visit.page.fragments)).value
  {
    var s := new Scrape(url);
    if visit.VisitFailed? {
      return Failure(visit.err);
    }
    var page := visit.page;
    for i := 0 to |page.titles|
      invariant s.Valid() && s.Harvested() == Harvest({}, "")
      invariant s.data == ScrapedData(url, LastOr(page.titles[..i], ""), "", "")
    {
      assert page.titles[..i + 1][..i] == page.titles[..i];
      s.OnTitle(page.titles[i]);
    }
    assert page.titles[..|page.titles|] == page.titles;
    for i := 0 to |page.descriptions|
      invariant s.Valid() && s.Harvested() == Harvest({}, "")
      invariant s.data == ScrapedData(url, LastOr(page.titles, ""), LastOr(page.descriptions[..i], ""), "")
    {
      assert page.descriptions[..i + 1][..i] == page.descriptions[..i];
      s.OnDescription(page.descriptions[i]);
    }
    assert page.descriptions[..|page.descriptions|] == page.descriptions;
    s.OnContentElements(page.fragments);
    match summarize(s.allText)
    case Failure(e) =>
      r := Failure(e);
    case Success(summary) =>
      r := Success(s.data.(summary := summary));
  }
}
