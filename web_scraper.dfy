/** tools/web_scraper.py: `scrape_urls` fetches each URL in turn, stores the
    extracted text under the URL (None when anything failed), truncates the
    text so that the combined stored length never exceeds `max_length`, and
    stops as soon as that budget is used up. Fetching and extraction
    (`requests.get`, `trafilatura.extract`) are an oracle: the i-th response
    is what handling the i-th URL produced. */
module WebScraper {
  import opened Wrappers
  import opened Strings

  /** The default `max_length`. */
  const DefaultMaxLength: nat := 20000

  /** What handling one URL produced: an exception from the request or the
      extraction, or an HTTP status with the extractor's result. */
  datatype Response =
    | Raised
    | Status(code: int, extracted: Option<string>)

  /** One `results[url] = ...` assignment made by the loop. */
  datatype Entry = Entry(url: string, text: Option<string>)

  /** The usable text of a response: present only for status 200 with a
      non-empty extraction (`if text:` rejects both None and ""). */
  function Fetched(r: Response): (t: Option<string>)
    ensures t.Some? <==> r.Status? && r.code == 200 && r.extracted.Some? && r.extracted.value != ""
    ensures t.Some? ==> t == r.extracted
  {
    match r
    case Raised => None
    case Status(code, extracted) =>
      if code == 200 && extracted.Some? && extracted.value != "" then extracted else None
  }

  /** The text actually stored when `total` characters are already used:
      `text[:max_length - total_length]` when the whole text would not fit. */
  function Kept(text: string, maxLength: nat, total: nat): (kept: string)
    requires total <= maxLength
    ensures total + |kept| <= maxLength
    ensures StartsWith(text, kept)
    // only a text that meets the budget exactly is cut short
    ensures |kept| < |text| ==> total + |kept| == maxLength
  {
    if total + |text| > maxLength then text[..maxLength - total] else text
  }

  /** The stored length of an entry: `len(text)`, nothing for None. */
  function Len(t: Option<string>): nat
  {
    if t.Some? then |t.value| else 0
  }

  /** Combined length of the texts stored by a run of the loop. */
  function Used(e: seq<Entry>): nat
  {
    if e == [] then 0 else Len(e[0].text) + Used(e[1..])
  }

  /** What the loop assigns to `results[url]` for a response when `total`
      characters are already used: None on any failure, else the kept text. */
  function Store(r: Response, maxLength: nat, total: nat): (stored: Option<string>)
    requires total <= maxLength
    ensures total + Len(stored) <= maxLength
    ensures stored.None? <==> Fetched(r).None?
    ensures stored.Some? ==> StartsWith(Fetched(r).value, stored.value)
  {
    match Fetched(r)
    case None => None
    case Some(text) => Some(Kept(text, maxLength, total))
  }

  /** `if total_length >= max_length: break`, checked only after a text
      was stored. */
  predicate Stops(stored: Option<string>, maxLength: nat, total: nat)
  {
    stored.Some? && total + Len(stored) >= maxLength
  }

  /** The assignments the loop makes, in order, when `total` characters of
      the budget are already used. */
  function Entries(urls: seq<string>, responses: seq<Response>, maxLength: nat, total: nat): (e: seq<Entry>)
    requires |responses| == |urls|
    requires total <= maxLength
    // the loop handles every URL at most once, and the first one always
    ensures |e| <= |urls|
    ensures e == [] <==> urls == []
    decreases |urls|
  {
    if urls == [] then []
    else
      var stored := Store(responses[0], maxLength, total);
      if Stops(stored, maxLength, total) then [Entry(urls[0], stored)]
      else [Entry(urls[0], stored)] + Entries(urls[1..], responses[1..], maxLength, total + Len(stored))
  }

  /** The dictionary built by those assignments: a later assignment to a
      repeated URL overwrites the earlier one. */
  function ToMap(e: seq<Entry>): (r: map<string, Option<string>>)
    // at most one key per assignment
    ensures |r| <= |e|
  {
    if e == [] then map[] else ToMap(e[..|e| - 1])[e[|e| - 1].url := e[|e| - 1].text]
  }

  lemma UsedCons(x: Entry, e: seq<Entry>)
    ensures Used([x] + e) == Len(x.text) + Used(e)
  {
    assert ([x] + e)[1..] == e;
  }

  /** Used distributes over concatenation. */
  lemma {:induction false} UsedAppend(a: seq<Entry>, b: seq<Entry>)
    ensures Used(a + b) == Used(a) + Used(b)
    decreases |a|
  {
    if a == [] {
      assert a + b == b;
    } else {
      assert (a + b)[1..] == a[1..] + b;
      UsedAppend(a[1..], b);
    }
  }

  /** The k-th entry: it is for the k-th URL and holds what Store gives for
      the k-th response, given the budget used by the entries before it (so
      a failed URL is stored as None and uses no budget, a successful one as
      a prefix of its extracted text); and unless it is the last entry, it
      did not meet the budget, so `break` was not taken there. */
  lemma {:induction false} EntryAt(urls: seq<string>, responses: seq<Response>, maxLength: nat, total: nat, k: nat)
    requires |responses| == |urls| && total <= maxLength
    requires k < |Entries(urls, responses, maxLength, total)|
    ensures var e := Entries(urls, responses, maxLength, total);
            var before := total + Used(e[..k]);
            && e[k].url == urls[k]
            && before <= maxLength
            && e[k].text == Store(responses[k], maxLength, before)
            && (k < |e| - 1 ==> !Stops(e[k].text, maxLength, before))
    decreases k
  {
    var e := Entries(urls, responses, maxLength, total);
    var stored := Store(responses[0], maxLength, total);
    if k == 0 {
      assert e[..0] == [];
    } else {
      assert !Stops(stored, maxLength, total);
      var total' := total + Len(stored);
      var rest := Entries(urls[1..], responses[1..], maxLength, total');
      var x := Entry(urls[0], stored);
      assert e == [x] + rest;
      EntryAt(urls[1..], responses[1..], maxLength, total', k - 1);
      assert e[k] == rest[k - 1] && urls[1..][k - 1] == urls[k] && responses[1..][k - 1] == responses[k];
      assert e[..k] == [x] + rest[..k - 1];
      UsedCons(x, rest[..k - 1]);
      assert total + Used(e[..k]) == total' + Used(rest[..k - 1]);
    }
  }

  /** The budget: the stored texts never exceed `max_length` in total. */
  lemma {:induction false} EntriesWithinBudget(urls: seq<string>, responses: seq<Response>, maxLength: nat, total: nat)
    requires |responses| == |urls| && total <= maxLength
    ensures total + Used(Entries(urls, responses, maxLength, total)) <= maxLength
    decreases |urls|
  {
    if urls != [] {
      var e := Entries(urls, responses, maxLength, total);
      var x := e[0];
      if Stops(x.text, maxLength, total) {
        UsedCons(x, []);
        assert e == [x] + [];
      } else {
        var total' := total + Len(x.text);
        var rest := Entries(urls[1..], responses[1..], maxLength, total');
        assert e == [x] + rest;
        UsedCons(x, rest);
        EntriesWithinBudget(urls[1..], responses[1..], maxLength, total');
      }
    }
  }

  /** The loop ends before the last URL only because the budget was met:
      the last entry then holds a text and the total is exactly `max_length`. */
  lemma {:induction false} EntriesEarlyExit(urls: seq<string>, responses: seq<Response>, maxLength: nat, total: nat)
    requires |responses| == |urls| && total <= maxLength
    ensures var e := Entries(urls, responses, maxLength, total);
            |e| < |urls| ==> e != [] && e[|e| - 1].text.Some? && total + Used(e) == maxLength
    decreases |urls|
  {
    if urls != [] {
      var e := Entries(urls, responses, maxLength, total);
      var x := e[0];
      if Stops(x.text, maxLength, total) {
        UsedCons(x, []);
        assert e == [x] + [];
      } else {
        var total' := total + Len(x.text);
        var rest := Entries(urls[1..], responses[1..], maxLength, total');
        assert e == [x] + rest;
        UsedCons(x, rest);
        EntriesEarlyExit(urls[1..], responses[1..], maxLength, total');
      }
    }
  }

  /** A stored text that differs from the extracted one was cut short, and
      a cut-short text meets the budget exactly. */
  lemma StoreCut(r: Response, maxLength: nat, before: nat)
    requires before <= maxLength
    requires Store(r, maxLength, before) != Fetched(r)
    ensures Stops(Store(r, maxLength, before), maxLength, before)
    ensures before + Len(Store(r, maxLength, before)) == maxLength
  {
  }

  lemma UsedSnoc(e: seq<Entry>)
    requires e != []
    ensures Used(e) == Used(e[..|e| - 1]) + Len(e[|e| - 1].text)
  {
    var x := e[|e| - 1];
    assert e == e[..|e| - 1] + [x];
    UsedAppend(e[..|e| - 1], [x]);
    UsedCons(x, []);
    assert [x] + [] == [x];
  }

  /** Only the entry that meets the budget, which is then the last one, can
      be cut short, and it uses the budget up exactly. */
  lemma TruncatedIsLast(urls: seq<string>, responses: seq<Response>, maxLength: nat, k: nat)
    requires |responses| == |urls|
    requires var e := Entries(urls, responses, maxLength, 0);
             k < |e| && e[k].text != Fetched(responses[k])
    ensures var e := Entries(urls, responses, maxLength, 0);
            k == |e| - 1 && Used(e) == maxLength
  {
    var e := Entries(urls, responses, maxLength, 0);
    EntryAt(urls, responses, maxLength, 0, k);
    var before := Used(e[..k]);
    StoreCut(responses[k], maxLength, before);
    assert k == |e| - 1;
    UsedSnoc(e);
  }

  /** Every entry's URL is a key of the result dictionary. */
  lemma {:induction false} ToMapHasKey(e: seq<Entry>, i: nat)
    requires i < |e|
    ensures e[i].url in ToMap(e)
    decreases |e|
  {
    if i < |e| - 1 {
      var init := e[..|e| - 1];
      assert init[i] == e[i];
      ToMapHasKey(init, i);
    }
  }

  /** Every key of the result dictionary is the URL of some entry. */
  lemma {:induction false} ToMapKeys(e: seq<Entry>)
    ensures forall u :: u in ToMap(e) ==> exists i :: 0 <= i < |e| && e[i].url == u
    decreases |e|
  {
    if e != [] {
      var init := e[..|e| - 1];
      ToMapKeys(init);
      forall u | u in ToMap(e) ensures exists i :: 0 <= i < |e| && e[i].url == u {
        if u != e[|e| - 1].url {
          assert u in ToMap(init);
          var i :| 0 <= i < |init| && init[i].url == u;
          assert e[i].url == u;
        }
      }
    }
  }

  /** A URL's value is the text of its last assignment. */
  lemma {:induction false} ToMapLast(e: seq<Entry>, i: nat)
    requires i < |e|
    requires forall j :: i < j < |e| ==> e[j].url != e[i].url
    ensures e[i].url in ToMap(e) && ToMap(e)[e[i].url] == e[i].text
    decreases |e|
  {
    ToMapHasKey(e, i);
    if i < |e| - 1 {
      var init := e[..|e| - 1];
      assert init[i] == e[i];
      ToMapLast(init, i);
    }
  }

  /** One iteration of the loop, seen from the URL it is at. */
  lemma EntriesStep(urls: seq<string>, responses: seq<Response>, maxLength: nat, i: nat, total: nat)
    requires |responses| == |urls| && i < |urls| && total <= maxLength
    ensures var stored := Store(responses[i], maxLength, total);
            Entries(urls[i..], responses[i..], maxLength, total)
            == if Stops(stored, maxLength, total) then [Entry(urls[i], stored)]
               else [Entry(urls[i], stored)] + Entries(urls[i + 1..], responses[i + 1..], maxLength, total + Len(stored))
  {
    assert urls[i..][1..] == urls[i + 1..] && responses[i..][1..] == responses[i + 1..];
  }

  /** The loop invariant survives an iteration that does not break. */
  lemma LoopStep(urls: seq<string>, responses: seq<Response>, maxLength: nat, i: nat, total: nat,
                 done: seq<Entry>, stored: Option<string>, total': nat)
    requires |responses| == |urls| && i < |urls| && total <= maxLength
    requires done + Entries(urls[i..], responses[i..], maxLength, total) == Entries(urls, responses, maxLength, 0)
    requires stored == Store(responses[i], maxLength, total) && total' == total + Len(stored)
    requires !Stops(stored, maxLength, total)
    ensures total' <= maxLength
    ensures (done + [Entry(urls[i], stored)]) + Entries(urls[i + 1..], responses[i + 1..], maxLength, total')
            == Entries(urls, responses, maxLength, 0)
  {
    EntriesStep(urls, responses, maxLength, i, total);
    var x := Entry(urls[i], stored);
    var rest := Entries(urls[i + 1..], responses[i + 1..], maxLength, total');
    assert Entries(urls[i..], responses[i..], maxLength, total) == [x] + rest;
    assert (done + [x]) + rest == done + ([x] + rest);
  }

  /** The loop invariant at `break`: the entries so far are all of them. */
  lemma BreakStep(urls: seq<string>, responses: seq<Response>, maxLength: nat, i: nat, total: nat,
                  done: seq<Entry>, stored: Option<string>)
    requires |responses| == |urls| && i < |urls| && total <= maxLength
    requires done + Entries(urls[i..], responses[i..], maxLength, total) == Entries(urls, responses, maxLength, 0)
    requires stored == Store(responses[i], maxLength, total)
    requires Stops(stored, maxLength, total)
    ensures done + [Entry(urls[i], stored)] == Entries(urls, responses, maxLength, 0)
  {
    EntriesStep(urls, responses, maxLength, i, total);
  }

  lemma ToMapSnoc(e: seq<Entry>, x: Entry)
    ensures ToMap(e + [x]) == ToMap(e)[x.url := x.text]
  {
    assert (e + [x])[..|e|] == e;
  }

  /** The body of the `try` block for one URL: what to store under it and
      the new `total_length`. */
  method HandleResponse(response: Response, maxLength: nat, total: nat) returns (stored: Option<string>, total': nat)
    requires total <= maxLength
    ensures stored == Store(response, maxLength, total)
    ensures total' == total + Len(stored) && total' <= maxLength
  {
    stored, total' := None, total;
    match response {
      case Raised =>
      case Status(code, extracted) =>
        if code == 200 {
          if extracted.Some? && extracted.value != "" {
            var text := extracted.value;
            if total + |text| > maxLength {
              text := text[..maxLength - total];
            }
            stored := Some(text);
            total' := total + |text|;
          }
        }
    }
  }

  /** `scrape_urls(urls, max_length)`. */
  method ScrapeUrls(urls: seq<string>, responses: seq<Response>, maxLength: nat)
    returns (results: map<string, Option<string>>)
    requires |responses| == |urls|
    ensures results == ToMap(Entries(urls, responses, maxLength, 0))
    ensures forall u :: u in results ==> u in urls
  {
    results := map[];
    var total: nat := 0;
    ghost var done: seq<Entry> := [];
    var i := 0;
    while i < |urls|
      invariant 0 <= i <= |urls|
      invariant total <= maxLength
      invariant results == ToMap(done)
      invariant done + Entries(urls[i..], responses[i..], maxLength, total) == Entries(urls, responses, maxLength, 0)
      decreases |urls| - i
    {
      var url := urls[i];
      ghost var before := total;
      var stored;
      stored, total := HandleResponse(responses[i], maxLength, total);
      ghost var x := Entry(url, stored);
      assert results[url := stored] == ToMap(done + [x]) by { ToMapSnoc(done, x); }
      results := results[url := stored];
      if stored.Some? && total >= maxLength {
        assert done + [x] == Entries(urls, responses, maxLength, 0) by {
          BreakStep(urls, responses, maxLength, i, before, done, stored);
        }
        done := done + [x];
        break;
      }
      assert (done + [x]) + Entries(urls[i + 1..], responses[i + 1..], maxLength, total)
             == Entries(urls, responses, maxLength, 0) by {
        LoopStep(urls, responses, maxLength, i, before, done, stored, total);
      }
      done := done + [x];
      i := i + 1;
    }
    assert done == Entries(urls, responses, maxLength, 0) by {
      if i == |urls| {
        assert urls[i..] == [] && responses[i..] == [];
        assert done + [] == done;
      }
    }
    assert forall u :: u in results ==> u in urls by { ScrapeUrlsKeys(urls, responses, maxLength); }
  }

  /** What a caller of `scrape_urls` can rely on: every key is one of the
      input URLs handled before the loop stopped (so a URL after the
      stopping point is absent unless it repeats an earlier one), every URL
      handled has a key, the texts stored along the way never exceed the
      budget, and the loop stops early only once the budget is used up. */
  lemma ScrapeUrlsKeys(urls: seq<string>, responses: seq<Response>, maxLength: nat)
    requires |responses| == |urls|
    ensures var e := Entries(urls, responses, maxLength, 0);
            var results := ToMap(e);
            (forall u :: u in results ==> u in urls[..|e|])
            && (forall i :: 0 <= i < |e| ==> urls[i] in results)
            && Used(e) <= maxLength
            && (|e| < |urls| ==> Used(e) == maxLength)
  {
    var e := Entries(urls, responses, maxLength, 0);
    EntriesWithinBudget(urls, responses, maxLength, 0);
    EntriesEarlyExit(urls, responses, maxLength, 0);
    forall i | 0 <= i < |e| ensures urls[i] in ToMap(e) {
      EntryAt(urls, responses, maxLength, 0, i);
      ToMapHasKey(e, i);
    }
    forall u | u in ToMap(e) ensures u in urls[..|e|] {
      ToMapKeys(e);
      var i :| 0 <= i < |e| && e[i].url == u;
      EntryAt(urls, responses, maxLength, 0, i);
      assert urls[..|e|][i] == u;
    }
  }

  /** With the default budget of 20000 characters: a failed page stores
      None and uses nothing, a 15000-character text is kept whole, a
      10000-character text is cut to the 5000 characters left, and the loop
      stops there, so the fourth URL is never fetched. */
  method DefaultBudgetScenario(a: string, b: string, c: string)
    requires |a| == 15000 && |b| == 10000 && c != ""
  {
    var urls := ["u1", "u2", "u3", "u4"];
    var responses := [Status(404, None), Status(200, Some(a)), Status(200, Some(b)), Status(200, Some(c))];
    var results := ScrapeUrls(urls, responses, DefaultMaxLength);
    assert Entries(urls, responses, DefaultMaxLength, 0)
           == [Entry("u1", None), Entry("u2", Some(a)), Entry("u3", Some(b[..5000]))] by {
      assert urls[1..] == ["u2", "u3", "u4"] && responses[1..] == responses[1..];
      assert urls[1..][1..] == ["u3", "u4"];
    }
    ghost var e := [Entry("u1", None), Entry("u2", Some(a)), Entry("u3", Some(b[..5000]))];
    assert results == map["u1" := None, "u2" := Some(a), "u3" := Some(b[..5000])] by {
      assert e[..2][..1] == [e[0]] && [e[0]][..0] == [];
      assert ToMap([e[0]]) == map["u1" := None];
      assert ToMap(e[..2]) == map["u1" := None, "u2" := Some(a)];
    }
    assert "u4" !in results;
  }
}
