// `TavilyCompsProvider`: two web searches, the search text handed to the LLM,
// the fence-stripping JSON reader with its `{"comps": []}` fallback, and the
// loop that turns each extracted item into a `Comp`. The search client, the
// LLM and `json.loads` are oracles; the prompt wording is not modelled.
// Exceptions raised outside the provider's two `try` blocks, on a JSON `null`,
// are not caught: the provider then fails as a whole.

module TavilyProvider {
  import opened Domain
  import opened Text
  import opened Oracles
  import opened Queries

  const ContentLimit: nat := 500

  /** One entry of a search response's `results`, each key read with a default. */
  datatype SearchResult = SearchResult(
    url: Field<string>, title: Field<string>, content: Field<string>, snippet: Field<string>)

  /**
   * A search call: its response's `results`, or an exception. None stands for
   * an absent and for a `null` list alike: `extend(None)` raises inside the
   * `try`, so that query is skipped as if it had found nothing.
   */
  datatype SearchOutcome = Found(results: Option<seq<SearchResult>>) | SearchRaised

  /** What the LLM is asked about: the subject's type and location, and the search text. */
  datatype LlmQuery = LlmQuery(propertyType: string, location: string, searchText: string)

  /** The LLM call: the reply's message content (None for a null content), or an exception. */
  datatype LlmOutcome = Replied(content: Option<string>) | LlmRaised

  /**
   * One entry of the decoded reply's `comps` list. An `Option` field is read
   * with `item.get(key)` or, for the property type, through a `try` that
   * treats a `null` like an unknown type, so absent and `null` agree; the
   * address is read with a default, where they differ.
   */
  datatype Item = Item(
    address: Field<string>, city: Option<string>, state: Option<string>,
    propertyType: Option<string>, sourceUrl: Option<string>,
    yearBuilt: Option<int>, unitCount: Option<int>,
    squareFeet: Option<real>, salePrice: Option<real>,
    pricePerUnit: Option<real>, pricePerSqft: Option<real>, capRate: Option<real>,
    rentPerUnit: Option<real>, occupancyRate: Option<real>, expenseRatio: Option<real>)

  /** The decoded JSON object: its `comps` list. */
  datatype Payload = Payload(comps: Field<seq<Item>>)

  /** `None[:500]`: the TypeError of a `null` content or snippet. */
  const SliceOfNull: Error := NullValue("'NoneType' object is not subscriptable")

  /** `None.strip()`: the AttributeError of a `null` item address. */
  const StripOfNull: Error := NullValue("'NoneType' object has no attribute 'strip'")

  /** `for item in None`: the TypeError of a `null` comps list. */
  const IterateNull: Error := NullValue("'NoneType' object is not iterable")

  // ---------------------------------------------------------------------------
  // Queries and collected results
  // ---------------------------------------------------------------------------

  function Location(deal: Deal): string {
    deal.city + ", " + deal.state
  }

  /** The two search queries, built from the deal's property type and location. */
  function SearchQueries(deal: Deal): (qs: seq<string>)
    ensures |qs| == 2 && qs[0] != qs[1]
    ensures forall k :: 0 <= k < 2 ==> deal.propertyType.Value() + " " <= qs[k]
  {
    var pt := deal.propertyType.Value();
    var q0 := pt + " sold " + Location(deal) + " 2023 2024 comparable properties";
    var q1 := pt + " comps " + Location(deal) + " cap rate price per unit site:zillow.com OR site:loopnet.com";
    assert q0[|pt| + 1] == 's' && q1[|pt| + 1] == 'c';
    [q0, q1]
  }

  /** The results a search call contributes: none when it raised or had no `results`. */
  function ResultsOf(o: SearchOutcome): seq<SearchResult> {
    if o.Found? && o.results.Some? then o.results.value else []
  }

  /** The results of both queries, the first query's first. */
  function Collected(first: SearchOutcome, second: SearchOutcome): seq<SearchResult> {
    ResultsOf(first) + ResultsOf(second)
  }

  /** A failing query is skipped and the other query's results are still collected. */
  lemma CollectedSpec(first: SearchOutcome, second: SearchOutcome)
    ensures first.SearchRaised? ==> Collected(first, second) == ResultsOf(second)
    ensures second.SearchRaised? ==> Collected(first, second) == ResultsOf(first)
    ensures |Collected(first, second)| == |ResultsOf(first)| + |ResultsOf(second)|
    ensures Collected(first, second) == [] <==> ResultsOf(first) == [] && ResultsOf(second) == []
  {
  }

  // ---------------------------------------------------------------------------
  // Search text
  // ---------------------------------------------------------------------------

  function OrElse(x: Option<string>, default: string): string {
    if x.Some? then x.value else default
  }

  /** `r.get('content', r.get('snippet', ''))`, which raises when what it yields is `null`. */
  function ContentOf(r: SearchResult): (c: Result<string>)
    ensures r.content.Given? ==> c == Ok(r.content.value)
    ensures r.content.Omitted? && r.snippet.Given? ==> c == Ok(r.snippet.value)
    ensures r.content.Omitted? && r.snippet.Omitted? ==> c == Ok("")
    ensures c.Err? <==> r.content.Null? || (r.content.Omitted? && r.snippet.Null?)
    ensures c.Err? ==> c.error == SliceOfNull
  {
    match r.content
    case Given(s) => Ok(s)
    case Null => Err(SliceOfNull)
    case Omitted =>
      match r.snippet
      case Given(s) => Ok(s)
      case Null => Err(SliceOfNull)
      case Omitted => Ok("")
  }

  /** The header of a result's entry: its url and title, "None" for a `null`. */
  function Head(r: SearchResult): string {
    "URL: " + Shown(r.url, "") + "\nTitle: " + Shown(r.title, "") + "\nContent: "
  }

  /** One result's block of the search text, its content cut to 500 characters. */
  function Entry(r: SearchResult): (e: Result<string>)
    ensures e.Err? <==> ContentOf(r).Err?
    ensures e.Err? ==> e.error == SliceOfNull
    ensures e.Ok? ==>
      && Head(r) <= e.value && |e.value| <= |Head(r)| + ContentLimit
      && e.value[|Head(r)|..] <= ContentOf(r).value
      && (|ContentOf(r).value| >= ContentLimit ==> |e.value| == |Head(r)| + ContentLimit)
      && (|ContentOf(r).value| < ContentLimit ==> e.value == Head(r) + ContentOf(r).value)
  {
    match ContentOf(r)
    case Err(err) => Err(err)
    case Ok(c) =>
      var e := Head(r) + Take(c, ContentLimit);
      assert e[|Head(r)|..] == Take(c, ContentLimit);
      Ok(e)
  }

  function Entries(rs: seq<SearchResult>): (es: seq<Result<string>>)
    ensures |es| == |rs|
    ensures forall i :: 0 <= i < |rs| ==> es[i] == Entry(rs[i])
  {
    seq(|rs|, i requires 0 <= i < |rs| => Entry(rs[i]))
  }

  /** The user message's search text: the entries joined by blank lines, or the first entry's exception. */
  function SearchText(rs: seq<SearchResult>): Result<string> {
    match AllOk(Entries(rs))
    case Ok(es) => Ok(Join(es, "\n\n"))
    case Err(e) => Err(e)
  }

  /**
   * The search text is built exactly when every result has a content (or,
   * without one, a snippet) that is not `null`; otherwise building it raises.
   */
  lemma SearchTextSpec(rs: seq<SearchResult>)
    ensures SearchText(rs).Ok? <==> forall i :: 0 <= i < |rs| ==> ContentOf(rs[i]).Ok?
    ensures SearchText(rs).Err? ==> SearchText(rs).error == SliceOfNull
    ensures SearchText(rs).Ok? ==>
      exists es :: |es| == |rs| && SearchText(rs).value == Join(es, "\n\n")
        && forall i :: 0 <= i < |rs| ==> Entry(rs[i]) == Ok(es[i])
  {
    var all := AllOk(Entries(rs));
    if all.Err? {
      var k :| 0 <= k < |rs| && Entries(rs)[k].Err? && all.error == Entries(rs)[k].error;
    } else {
      assert forall i :: 0 <= i < |rs| ==> Entry(rs[i]) == Ok(all.value[i]);
    }
  }

  function QueryFor(deal: Deal, searchText: string): LlmQuery {
    LlmQuery(deal.propertyType.Value(), Location(deal), searchText)
  }

  // ---------------------------------------------------------------------------
  // `_extract_json`
  // ---------------------------------------------------------------------------

  /** The text starts with three backticks. */
  predicate StartsWithFence(s: string) {
    |s| >= 3 && s[0] == '`' && s[1] == '`' && s[2] == '`'
  }

  /** The text starts with `json`. */
  predicate StartsWithJson(s: string) {
    |s| >= 4 && s[0] == 'j' && s[1] == 's' && s[2] == 'o' && s[3] == 'n'
  }

  /** `re.sub(r"```(?:json)?\s*", "", text)`: every fence, an optional `json` tag and the whitespace after it removed. */
  function RemoveFences(s: string): (r: string)
    ensures |r| <= |s|
    decreases |s|
  {
    if StartsWithFence(s) then
      var rest := s[3..];
      var rest' := if StartsWithJson(rest) then rest[4..] else rest;
      RemoveFences(TrimStart(rest'))
    else if s == [] then []
    else [s[0]] + RemoveFences(s[1..])
  }

  /** `s.rstrip("`")`: the longest prefix not ending in a backtick, only backticks cut. */
  function TrimBackticks(s: string): (r: string)
    ensures r <= s
    ensures r != [] ==> r[|r| - 1] != '`'
    ensures forall k :: |r| <= k < |s| ==> s[k] == '`'
    decreases |s|
  {
    if s != [] && s[|s| - 1] == '`' then TrimBackticks(s[..|s| - 1]) else s
  }

  /** The text `_extract_json` hands to `json.loads`. */
  function CleanJson(text: string): string {
    Strip(TrimBackticks(Strip(RemoveFences(text))))
  }

  /** `_extract_json`: the decoded object, or `{"comps": []}` when decoding fails. */
  function ExtractJson(text: string, decode: string -> Option<Payload>): (p: Payload)
    ensures decode(CleanJson(text)).None? ==> p == Payload(Given([]))
    ensures decode(CleanJson(text)).Some? ==> p == decode(CleanJson(text)).value
  {
    match decode(CleanJson(text))
    case None => Payload(Given([]))
    case Some(p) => p
  }

  /** A text that does not start with a backtick keeps its first character. */
  lemma RemoveFencesStep(x: string)
    requires x != [] && x[0] != '`'
    ensures RemoveFences(x) == [x[0]] + RemoveFences(x[1..])
  {
  }

  /** A text that starts with a fence loses it, its `json` tag and the whitespace after them. */
  lemma RemoveFencesFence(x: string)
    requires StartsWithFence(x)
    ensures RemoveFences(x) ==
              RemoveFences(TrimStart(if StartsWithJson(x[3..]) then x[3..][4..] else x[3..]))
  {
  }

  lemma {:induction false} RemoveFencesNoBacktick(s: string, t: string)
    requires forall k :: 0 <= k < |s| ==> s[k] != '`'
    ensures RemoveFences(s + t) == s + RemoveFences(t)
    decreases |s|
  {
    if s != [] {
      ConsSlices(s, t, RemoveFences(t));
      RemoveFencesStep(s + t);
      RemoveFencesNoBacktick(s[1..], t);
    } else {
      assert s + t == t;
    }
  }

  lemma ConsSlices(s: string, t: string, u: string)
    requires s != []
    ensures (s + t)[0] == s[0] && (s + t)[1..] == s[1..] + t
    ensures [s[0]] + (s[1..] + u) == s + u
  {
  }

  /** Text without a backtick passes through the fence removal unchanged. */
  lemma RemoveFencesPlain(s: string, t: string)
    requires '`' !in s
    ensures RemoveFences(s + t) == s + RemoveFences(t)
  {
    RemoveFencesNoBacktick(s, t);
  }

  lemma TrimNewline(body: string)
    requires body != [] && !IsSpace(body[0])
    ensures TrimStart("\n" + body) == body
  {
    var x := "\n" + body;
    assert x[0] == '\n' && x[1..] == body;
  }

  lemma FenceSlices(body: string)
    ensures StartsWithFence("```json\n" + body)
    ensures StartsWithJson(("```json\n" + body)[3..])
    ensures ("```json\n" + body)[3..][4..] == "\n" + body
  {
  }

  /** A leading fence with its `json` tag and the whitespace after it goes. */
  lemma RemoveLeadingFence(body: string)
    requires body != [] && !IsSpace(body[0])
    ensures RemoveFences("```json\n" + body) == RemoveFences(body)
  {
    FenceSlices(body);
    RemoveFencesFence("```json\n" + body);
    TrimNewline(body);
  }

  lemma RemoveFencesOfFence()
    ensures RemoveFences("```") == ""
  {
    assert StartsWithFence("```");
    assert "```"[3..] == "";
  }

  /** The text between the fences ends with the newline before the closing fence. */
  lemma StripNewline(body: string)
    requires body != [] && !IsSpace(body[0]) && !IsSpace(body[|body| - 1])
    ensures Strip(body + "\n") == body
  {
    var s := body + "\n";
    assert s[|s| - 1] == '\n' && s[..|s| - 1] == body;
    assert TrimEnd(body) == body;
    assert TrimEnd(s) == body;
    assert TrimStart(s) == s;
  }

  /** A text that does not end in a backtick keeps its end under `rstrip("`")`. */
  lemma TrimBackticksNone(s: string)
    requires s != [] ==> s[|s| - 1] != '`'
    ensures TrimBackticks(s) == s
  {
  }

  /** Removing the fences of a `json` code block leaves the body and the newline before the closing fence. */
  lemma RemoveFencesOfBlock(body: string)
    requires body != [] && '`' !in body && !IsSpace(body[0])
    ensures RemoveFences("```json\n" + body + "\n```") == body + "\n"
  {
    var tail := body + "\n```";
    assert "```json\n" + body + "\n```" == "```json\n" + tail;
    var line := body + "\n";
    assert tail == line + "```";
    RemoveLeadingFence(tail);
    assert '`' !in line;
    RemoveFencesPlain(line, "```");
    RemoveFencesOfFence();
    assert line + "" == line;
  }

  /** A body fenced as a `json` code block comes out of the cleaning as the bare body. */
  lemma CleanFencedBlock(body: string)
    requires body != [] && '`' !in body
    requires !IsSpace(body[0]) && !IsSpace(body[|body| - 1])
    ensures CleanJson("```json\n" + body + "\n```") == body
  {
    RemoveFencesOfBlock(body);
    StripNewline(body);
    assert body[|body| - 1] in body;
    TrimBackticksNone(body);
    StripTrimmed(body);
  }

  /** A reply with no backtick in it is decoded from its stripped text. */
  lemma CleanPlainText(text: string)
    requires '`' !in text
    ensures CleanJson(text) == Strip(text)
  {
    RemoveFencesPlain(text, "");
    assert text + "" == text;
    assert RemoveFences("") == "";
    var r := Strip(text);
    StripWithin(text);
    if r != [] {
      assert r[|r| - 1] in r;
    }
    TrimBackticksNone(r);
    StripTrimmed(r);
  }

  // ---------------------------------------------------------------------------
  // The item loop
  // ---------------------------------------------------------------------------

  /** `PropertyType(item.get("property_type", <deal's type>))`, the deal's type where that raises. */
  function ItemType(deal: Deal, item: Item): (t: PropertyType)
    ensures item.propertyType.Some? && ParsePropertyType(item.propertyType.value).Some? ==>
              t == ParsePropertyType(item.propertyType.value).value
    ensures (item.propertyType.None? || ParsePropertyType(item.propertyType.value).None?) ==>
              t == deal.propertyType
  {
    ParsePropertyTypeValue(deal.propertyType);
    match ParsePropertyType(OrElse(item.propertyType, deal.propertyType.Value()))
    case Some(t) => t
    case None => deal.propertyType
  }

  /** A comp built from a search item: the deal's, from Tavily, fetched now, with a stripped non-empty address. */
  predicate FromTavily(deal: Deal, fetchedAt: Time, c: Comp) {
    && c.dealId == deal.id && c.source == Tavily && c.fetchedAt == fetchedAt
    && c.address != [] && !IsSpace(c.address[0]) && !IsSpace(c.address[|c.address| - 1])
  }

  /** `item.get("address", "")` before it is stripped; a `null` has no text. */
  function AddressText(item: Item): string {
    if item.address.Given? then item.address.value else ""
  }

  /**
   * What one item does in the loop: the comp built from it, None for a blank
   * address (`continue`), or the exception of stripping a `null` address.
   * `id` and `createdAt` are the entity's generated defaults.
   */
  function ItemToComp(deal: Deal, item: Item, id: Uuid, fetchedAt: Time, createdAt: Time): (r: Result<Option<Comp>>)
    ensures r.Err? <==> item.address.Null?
    ensures r.Err? ==> r.error == StripOfNull
    ensures r == Ok(None) <==> !item.address.Null? && IsBlank(AddressText(item))
    ensures r.Ok? && r.value.Some? ==>
      FromTavily(deal, fetchedAt, r.value.value) && r.value.value.address == Strip(AddressText(item))
  {
    if item.address.Null? then Err(StripOfNull)
    else
    var address := Strip(AddressText(item));
    if address == "" then Ok(None)
    else
      Ok(Some(Comp(id, deal.id, address, OrElse(item.city, deal.city), OrElse(item.state, deal.state),
                   ItemType(deal, item), Tavily, item.sourceUrl,
                   item.yearBuilt, item.unitCount, item.squareFeet, item.salePrice,
                   item.pricePerUnit, item.pricePerSqft, item.capRate, item.rentPerUnit,
                   item.occupancyRate, None, item.expenseRatio, None,
                   fetchedAt, createdAt)))
  }

  /** The item's figures are copied as given; the comp has no NOI or operating cost per unit. */
  lemma ItemToCompFields(deal: Deal, item: Item, id: Uuid, fetchedAt: Time, createdAt: Time)
    requires !item.address.Null? && !IsBlank(AddressText(item))
    ensures var c := ItemToComp(deal, item, id, fetchedAt, createdAt).value.value;
      && c.id == id && c.propertyType == ItemType(deal, item)
      && c.city == OrElse(item.city, deal.city) && c.state == OrElse(item.state, deal.state)
      && c.sourceUrl == item.sourceUrl && c.salePrice == item.salePrice
      && c.pricePerUnit == item.pricePerUnit && c.capRate == item.capRate
      && c.expenseRatio == item.expenseRatio && c.noi.None? && c.opexPerUnit.None?
  {
  }

  function BuiltItems(deal: Deal, items: seq<Item>, idOf: nat -> Uuid, fetchedAt: Time, createdAt: Time)
    : (r: seq<Result<Option<Comp>>>)
    ensures |r| == |items|
    ensures forall i :: 0 <= i < |items| ==> r[i] == ItemToComp(deal, items[i], idOf(i), fetchedAt, createdAt)
  {
    seq(|items|, i requires 0 <= i < |items| => ItemToComp(deal, items[i], idOf(i), fetchedAt, createdAt))
  }

  /** The loop's result: the comps of the items with a non-blank address, in item order, or the first exception. */
  function ItemComps(deal: Deal, items: seq<Item>, idOf: nat -> Uuid, fetchedAt: Time, createdAt: Time)
    : Result<seq<Comp>>
  {
    Gathered(BuiltItems(deal, items, idOf, fetchedAt, createdAt))
  }

  /** The loop fails exactly when some item's address is `null`, with the exception of stripping it. */
  lemma ItemCompsRaises(deal: Deal, items: seq<Item>, idOf: nat -> Uuid, fetchedAt: Time, createdAt: Time)
    ensures var r := ItemComps(deal, items, idOf, fetchedAt, createdAt);
      && (r.Ok? <==> forall i :: 0 <= i < |items| ==> !items[i].address.Null?)
      && (r.Err? ==> r.error == StripOfNull)
  {
    var b := BuiltItems(deal, items, idOf, fetchedAt, createdAt);
    GatheredMembers(b);
    assert forall i :: 0 <= i < |b| ==> (b[i].Ok? <==> !items[i].address.Null?);
    if Gathered(b).Err? {
      var k :| 0 <= k < |b| && b[k].Err? && Gathered(b).error == b[k].error;
    }
  }

  /**
   * When the loop completes there is at most one comp per item, and the comps
   * are exactly those built from items with an address.
   */
  lemma ItemCompsMembers(deal: Deal, items: seq<Item>, idOf: nat -> Uuid, fetchedAt: Time, createdAt: Time)
    ensures var r := ItemComps(deal, items, idOf, fetchedAt, createdAt);
      r.Ok? ==>
        && |r.value| <= |items|
        && forall x :: x in r.value <==>
             exists i :: 0 <= i < |items| && ItemToComp(deal, items[i], idOf(i), fetchedAt, createdAt) == Ok(Some(x))
  {
    GatheredMembers(BuiltItems(deal, items, idOf, fetchedAt, createdAt));
  }

  /**
   * Every comp comes from Tavily, belongs to the deal, carries the one fetch
   * time and a non-empty address with no whitespace at either end.
   */
  lemma ItemCompsSpec(deal: Deal, items: seq<Item>, idOf: nat -> Uuid, fetchedAt: Time, createdAt: Time)
    ensures var r := ItemComps(deal, items, idOf, fetchedAt, createdAt);
      r.Ok? ==> forall k :: 0 <= k < |r.value| ==> FromTavily(deal, fetchedAt, r.value[k])
  {
    var b := BuiltItems(deal, items, idOf, fetchedAt, createdAt);
    var all := AllOk(b);
    if all.Ok? {
      PresentAll(all.value, c => FromTavily(deal, fetchedAt, c));
    }
  }

  /** The item loop; it stops at an item that raises. */
  method MapItems(deal: Deal, items: seq<Item>, idOf: nat -> Uuid, fetchedAt: Time, createdAt: Time)
    returns (r: Result<seq<Comp>>)
    ensures r == ItemComps(deal, items, idOf, fetchedAt, createdAt)
  {
    ghost var b := BuiltItems(deal, items, idOf, fetchedAt, createdAt);
    var comps := [];
    for i := 0 to |items|
      invariant AllOk(b[..i]).Ok? && comps == Present(AllOk(b[..i]).value)
    {
      var c := ItemToComp(deal, items[i], idOf(i), fetchedAt, createdAt);
      AllOkSnoc(b, i);
      if c.Err? {
        AllOkFirstErr(b, i);
        return Err(c.error);
      }
      PresentSnocOne(AllOk(b[..i]).value, c.value);
      if c.value.Some? {
        comps := comps + [c.value.value];
      }
    }
    assert b[..|items|] == b;
    r := Ok(comps);
  }

  /** `response.choices[0].message.content or "{}"`. */
  function ReplyText(content: Option<string>): string {
    if content.Some? && content.value != "" then content.value else "{}"
  }

  /**
   * The comps an LLM outcome yields: none when it raised, else those of the
   * decoded items; a decoded object without `comps` has none, and a `null`
   * list raises.
   */
  function Extracted(deal: Deal, reply: LlmOutcome, decode: string -> Option<Payload>,
                     idOf: nat -> Uuid, fetchedAt: Time, createdAt: Time): Result<seq<Comp>> {
    if reply.LlmRaised? then Ok([])
    else
      match ExtractJson(ReplyText(reply.content), decode).comps
      case Omitted => Ok([])
      case Null => Err(IterateNull)
      case Given(items) => ItemComps(deal, items, idOf, fetchedAt, createdAt)
  }

  /** An LLM failure, or a reply that does not decode, yields no comps; a `null` list raises. */
  lemma ExtractedFailures(deal: Deal, reply: LlmOutcome, decode: string -> Option<Payload>,
                          idOf: nat -> Uuid, fetchedAt: Time, createdAt: Time)
    ensures reply.LlmRaised? ==> Extracted(deal, reply, decode, idOf, fetchedAt, createdAt) == Ok([])
    ensures reply.Replied? && decode(CleanJson(ReplyText(reply.content))).None? ==>
              Extracted(deal, reply, decode, idOf, fetchedAt, createdAt) == Ok([])
    ensures reply.Replied? && decode(CleanJson(ReplyText(reply.content))) == Some(Payload(Null)) ==>
              Extracted(deal, reply, decode, idOf, fetchedAt, createdAt) == Err(IterateNull)
  {
    if reply.Replied? {
      var decoded := decode(CleanJson(ReplyText(reply.content)));
      var p := ExtractJson(ReplyText(reply.content), decode);
      if decoded.None? {
        assert p.comps == Given([]);
        assert BuiltItems(deal, [], idOf, fetchedAt, createdAt) == [];
        assert ItemComps(deal, [], idOf, fetchedAt, createdAt) == Ok([]);
      }
    }
  }

  class TavilyCompsProvider {
    const search: Oracle<string, SearchOutcome>
    const llm: Oracle<LlmQuery, LlmOutcome>
    /** `json.loads`: the decoded object, or None for a `JSONDecodeError`. */
    const decode: string -> Option<Payload>

    constructor (search: Oracle<string, SearchOutcome>, llm: Oracle<LlmQuery, LlmOutcome>,
                 decode: string -> Option<Payload>)
      ensures this.search == search && this.llm == llm && this.decode == decode
    {
      this.search := search;
      this.llm := llm;
      this.decode := decode;
    }

    /** The query loop: both queries are sent, and the results of those that answered are collected. */
    method CollectResults(deal: Deal) returns (raw: seq<SearchResult>)
      modifies search
      ensures search.calls == old(search.calls) + SearchQueries(deal)
      ensures raw == Collected(search.answer(SearchQueries(deal)[0]), search.answer(SearchQueries(deal)[1]))
    {
      var queries := SearchQueries(deal);
      raw := [];
      for k := 0 to |queries|
        invariant search.calls == old(search.calls) + queries[..k]
        invariant k == 0 ==> raw == []
        invariant k == 1 ==> raw == ResultsOf(search.answer(queries[0]))
        invariant k == 2 ==> raw == Collected(search.answer(queries[0]), search.answer(queries[1]))
      {
        var outcome := search.Call(queries[k]);
        if outcome.Found? {
          raw := raw + (if outcome.results.Some? then outcome.results.value else []);
        }
        assert queries[..k + 1] == queries[..k] + [queries[k]];
      }
      assert queries[..2] == queries;
    }

    /**
     * `search_comps`: no LLM call when neither query found anything; building
     * the search text may raise, before the LLM is asked; otherwise one LLM
     * call on the search text, and the comps of its decoded reply.
     */
    method SearchComps(deal: Deal, idOf: nat -> Uuid, fetchedAt: Time, createdAt: Time)
      returns (r: Result<seq<Comp>>)
      modifies search, llm
      ensures search.calls == old(search.calls) + SearchQueries(deal)
      ensures var raw := Collected(search.answer(SearchQueries(deal)[0]), search.answer(SearchQueries(deal)[1]));
        && (raw == [] ==> r == Ok([]) && llm.calls == old(llm.calls))
        && (raw != [] && SearchText(raw).Err? ==> r == Err(SearchText(raw).error) && llm.calls == old(llm.calls))
        && (raw != [] && SearchText(raw).Ok? ==>
              && llm.calls == old(llm.calls) + [QueryFor(deal, SearchText(raw).value)]
              && r == Extracted(deal, llm.answer(QueryFor(deal, SearchText(raw).value)), decode, idOf, fetchedAt, createdAt))
    {
      var raw := CollectResults(deal);
      if raw == [] {
        return Ok([]);
      }
      var text := SearchText(raw);
      if text.Err? {
        return Err(text.error);
      }
      r := AskForComps(deal, text.value, idOf, fetchedAt, createdAt);
    }

    /** The LLM half of `search_comps`: one call on the search text, and the comps of its reply. */
    method AskForComps(deal: Deal, searchText: string, idOf: nat -> Uuid, fetchedAt: Time, createdAt: Time)
      returns (r: Result<seq<Comp>>)
      modifies llm
      ensures llm.calls == old(llm.calls) + [QueryFor(deal, searchText)]
      ensures r == Extracted(deal, llm.answer(QueryFor(deal, searchText)), decode, idOf, fetchedAt, createdAt)
    {
      var reply := llm.Call(QueryFor(deal, searchText));
      if reply.LlmRaised? {
        return Ok([]);
      }
      var data := ExtractJson(ReplyText(reply.content), decode);
      match data.comps {
        case Omitted => r := Ok([]);
        case Null => r := Err(IterateNull);
        case Given(items) => r := MapItems(deal, items, idOf, fetchedAt, createdAt);
      }
    }
  }
}
