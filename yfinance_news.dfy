/**
 * The `news` tool: turns the market-data provider's news items into `SearchResult`
 * records, all or nothing.
 *
 * The provider call is not modelled: the caller supplies its outcome. Each news item
 * is a JSON value; a dict item is an `Obj` whose keys are the item's fields.
 */
module YFinanceNews {
  import opened Wrappers
  import opened Json

  /** The validated record: four string fields and an integer publish time. */
  datatype SearchResult = SearchResult(
    uuid: string,
    title: string,
    publisher: string,
    link: string,
    providerPublishTime: int)

  /**
   * What `yfinance.Search(query=..., news_count=...)` yields: it raised, or it returned
   * an object whose `news` attribute is a list of items or is missing.
   */
  datatype SearchCall = Raised | Returned(news: Option<seq<Json>>)

  /** `item[key]`: fails when the item is not a dict or lacks the key. */
  function Subscript(item: Json, key: string): (r: Option<Json>)
    ensures r.Some? <==> item.Obj? && key in item.fields
    ensures r.Some? ==> r.value == item.fields[key]
  {
    if item.Obj? && key in item.fields then Some(item.fields[key]) else None
  }

  /** `item.get(key, default)`: fails only when the item is not a dict. */
  function GetOr(item: Json, key: string, default: Json): (r: Option<Json>)
    ensures r.Some? <==> item.Obj?
    ensures r.Some? && key in item.fields ==> r.value == item.fields[key]
    ensures r.Some? && key !in item.fields ==> r.value == default
  {
    if !item.Obj? then None
    else if key in item.fields then Some(item.fields[key])
    else Some(default)
  }

  /**
   * Validation of `SearchResult(...)`: accepts exactly strings for the four text fields
   * and an integer for the publish time, and copies them unchanged.
   */
  function Validate(uuid: Json, title: Json, publisher: Json, link: Json, time: Json): (r: Option<SearchResult>)
    ensures r.Some? <==> uuid.Str? && title.Str? && publisher.Str? && link.Str? && time.Num?
    ensures r.Some? ==> r.value == SearchResult(uuid.s, title.s, publisher.s, link.s, time.n)
  {
    if uuid.Str? && title.Str? && publisher.Str? && link.Str? && time.Num?
    then Some(SearchResult(uuid.s, title.s, publisher.s, link.s, time.n))
    else None
  }

  /** The item's field `key` is present and a string. */
  predicate HasString(fields: map<string, Json>, key: string)
  {
    key in fields && fields[key].Str?
  }

  /** The item's field `key` is absent or a string (an explicit `null` is neither). */
  predicate OptionalString(fields: map<string, Json>, key: string)
  {
    key !in fields || fields[key].Str?
  }

  /** The string value of an optional field, `""` when absent. */
  function StringOr(fields: map<string, Json>, key: string): string
    requires OptionalString(fields, key)
  {
    if key in fields then fields[key].s else ""
  }

  /** One iteration's `SearchResult(uuid=item["uuid"], ..., providerPublishTime=item.get(..., 0))`. */
  function ToSearchResult(item: Json): (r: Option<SearchResult>)
    // Accepted exactly when uuid and title are present strings, publisher and link are
    // absent or strings, and the publish time is absent or an integer.
    ensures r.Some? <==>
              item.Obj? && HasString(item.fields, "uuid") && HasString(item.fields, "title")
              && OptionalString(item.fields, "publisher") && OptionalString(item.fields, "link")
              && ("providerPublishTime" !in item.fields || item.fields["providerPublishTime"].Num?)
    // uuid and title are copied verbatim; missing fields take their defaults.
    ensures r.Some? ==>
              && r.value.uuid == item.fields["uuid"].s
              && r.value.title == item.fields["title"].s
              && r.value.publisher == StringOr(item.fields, "publisher")
              && r.value.link == StringOr(item.fields, "link")
              && r.value.providerPublishTime ==
                   (if "providerPublishTime" in item.fields then item.fields["providerPublishTime"].n else 0)
  {
    var uuid := Subscript(item, "uuid");
    var title := Subscript(item, "title");
    var publisher := GetOr(item, "publisher", Str(""));
    var link := GetOr(item, "link", Str(""));
    var time := GetOr(item, "providerPublishTime", Num(0));
    if uuid.None? || title.None? || publisher.None? || link.None? || time.None? then None
    else Validate(uuid.value, title.value, publisher.value, link.value, time.value)
  }

  /** An item whose fields are only uuid and title gets every default. */
  lemma BareItemGetsDefaults(uuid: string, title: string)
    ensures ToSearchResult(Obj(map["uuid" := Str(uuid), "title" := Str(title)]))
              == Some(SearchResult(uuid, title, "", "", 0))
  {
  }

  /** An explicit `null` publisher is not replaced by the default: the item is rejected. */
  lemma NullPublisherIsRejected(fields: map<string, Json>)
    requires "publisher" in fields && fields["publisher"] == Null
    ensures ToSearchResult(Obj(fields)).None?
  {
  }

  /** Every item of the list converts. */
  predicate AllConvert(items: seq<Json>)
  {
    forall i :: 0 <= i < |items| ==> ToSearchResult(items[i]).Some?
  }

  /**
   * `news(query, news_count)` given the provider's outcome. On success the output has
   * one record per item, in order, however many items there are; if the call raised,
   * the `news` attribute is missing, or any item fails, the output is empty.
   */
  method News(query: string, newsCount: int, call: SearchCall) returns (results: seq<SearchResult>)
    ensures call.Raised? || call.news.None? ==> results == []
    ensures call.Returned? && call.news.Some? && AllConvert(call.news.value) ==>
              |results| == |call.news.value|
              && forall i :: 0 <= i < |results| ==> ToSearchResult(call.news.value[i]) == Some(results[i])
    ensures call.Returned? && call.news.Some? && !AllConvert(call.news.value) ==> results == []
  {
    if call.Raised? {
      return [];
    }
    var items := if call.news.Some? then call.news.value else [];
    var newsResults: seq<SearchResult> := [];
    for i := 0 to |items|
      invariant |newsResults| == i
      invariant forall j :: 0 <= j < i ==> ToSearchResult(items[j]) == Some(newsResults[j])
    {
      var record := ToSearchResult(items[i]);
      if record.None? {
        return [];
      }
      newsResults := newsResults + [record.value];
    }
    return newsResults;
  }
}
