/**
 * The trending lookup that both orchestrators share
 * (NewsAgent/news_orchestrator.py and NewsAgent/news_orchestrator_main.py):
 * the summary file found by scanning back from today, and the selection of
 * one bucket, one region or both regions from it.
 */
module TrendingQuery {
  import opened Wrappers
  import opened Text
  import opened Json
  import opened DateScan

  /** The dictionary `get_trending_news` returns; `generation_time` is
      absent from a failure. */
  datatype TrendingAnswer = TrendingAnswer(success: bool, message: string, data: Doc, generationTime: Option<Value>)

  /** A dict is truthy when it has a key. */
  predicate Cached(cache: Option<Doc>)
  {
    cache.Some? && cache.value != map[]
  }

  /** The summary a backward scan over `days` days loads: the first day that
      has the file, unless a storage call raised before it. */
  function Scanned(probe: nat -> Probe, payload: nat -> Doc, days: nat): (r: Option<Doc>)
    ensures r.Some? <==> ScanOrAbort(probe, 0, days).Some?
    ensures r.Some? ==> r.value == payload(ScanOrAbort(probe, 0, days).value)
  {
    match ScanOrAbort(probe, 0, days)
    case Some(d) => Some(payload(d))
    case None => None
  }

  /** The types Python's `in` can search here: a dict, a string, a list. */
  predicate Iterable(v: Value)
  {
    v.JObj? || v.JStr? || v.JArr?
  }

  /** `key in v` when it does not raise: a key of a dict, a piece of a
      string, an item of a list. */
  predicate Member(v: Value, key: string)
  {
    match v
    case JObj(fields) => key in fields
    case JStr(s) => Contains(s, key)
    case JArr(items) => JStr(key) in items
    case _ => false
  }

  /** `category and category in trending_data[region]` with the region's value
      `v`: the type error of a value `in` cannot search, else the test. */
  function HasCategory(v: Value, category: Option<string>): (r: Result<bool>)
  {
    if !Truthy(category) then Returned(false)
    else if !Iterable(v) then Threw("argument of type '" + TypeName(v) + "' is not iterable")
    else Returned(Member(v, category.value))
  }

  /** `trending_data[region][category]` once the test passed: a dict gives the
      bucket, a string or a list cannot be indexed by a string. */
  function Bucket(v: Value, category: string): (r: Result<Value>)
    requires Member(v, category)
  {
    match v
    case JObj(fields) => Returned(fields[category])
    case JStr(_) => Threw("string indices must be integers, not 'str'")
    case JArr(_) => Threw("list indices must be integers or slices, not str")
  }

  /** get_trending_news after the load; a raise inside it is `Threw`. */
  function Select(td: Option<Doc>, region: Option<string>, category: Option<string>, noDataMessage: string): (r: Result<TrendingAnswer>)
    ensures td.None? || td.value == map[] ==> r == Returned(TrendingAnswer(false, noDataMessage, map[], None))
    ensures td.Some? && td.value != map[] && r.Returned? ==>
      r.value.success && r.value.generationTime == Some(Get(td.value, "generation_time", JNull))
    ensures td.Some? && td.value != map[] && !(Truthy(region) && region.value in td.value) ==>
      r.Returned? && r.value.data.Keys == {"India", "Global"} && r.value.message == "All trending news"
      && r.value.data["India"] == Get(td.value, "India", JObj(map[])) && r.value.data["Global"] == Get(td.value, "Global", JObj(map[]))
    ensures td.Some? && td.value != map[] && Truthy(region) && region.value in td.value ==>
      var reg, v := region.value, td.value[region.value];
      && (!Truthy(category) || (Iterable(v) && !Member(v, category.value)) ==>
            r.Returned? && r.value.data == map[reg := v] && r.value.message == "All trending news in " + reg)
      && (Truthy(category) && !Iterable(v) ==> r == Threw("argument of type '" + TypeName(v) + "' is not iterable"))
      && (Truthy(category) && Member(v, category.value) ==>
            var cat := category.value;
            && (v.JObj? ==> r.Returned? && r.value.data == map[reg := JObj(map[cat := v.fields[cat]])]
                            && r.value.message == "Trending " + cat + " news in " + reg)
            && (v.JStr? ==> r == Threw("string indices must be integers, not 'str'"))
            && (v.JArr? ==> r == Threw("list indices must be integers or slices, not str")))
  {
    if td.None? || td.value == map[] then Returned(TrendingAnswer(false, noDataMessage, map[], None))
    else
      var d := td.value;
      var time := Some(Get(d, "generation_time", JNull));
      if Truthy(region) && region.value in d then
        var v := d[region.value];
        match HasCategory(v, category)
        case Threw(e) => Threw(e)
        case Returned(found) =>
          if found then
            match Bucket(v, category.value)
            case Threw(e) => Threw(e)
            case Returned(b) =>
              Returned(TrendingAnswer(true, "Trending " + category.value + " news in " + region.value,
                                      map[region.value := JObj(map[category.value := b])], time))
          else
            Returned(TrendingAnswer(true, "All trending news in " + region.value, map[region.value := v], time))
      else
        Returned(TrendingAnswer(true, "All trending news",
          map["India" := Get(d, "India", JObj(map[])), "Global" := Get(d, "Global", JObj(map[]))], time))
  }

  /** The summary's top-level `generation_time` is a string, so a region named
      after it with a category that occurs in the timestamp raises instead of
      answering. */
  lemma TimestampRegionRaises(td: Doc, stamp: string, category: string, noDataMessage: string)
    requires "generation_time" in td && td["generation_time"] == JStr(stamp)
    requires category != "" && Contains(stamp, category)
    ensures Select(Some(td), Some("generation_time"), Some(category), noDataMessage)
            == Threw("string indices must be integers, not 'str'")
  {
  }

  /** Nothing returned is made up: every region in an answer is the stored
      region, a one-bucket part of it, or an empty default for a region the
      summary lacks. */
  lemma SelectionComesFromData(td: Doc, region: Option<string>, category: Option<string>, noDataMessage: string, k: string)
    requires td != map[]
    requires Select(Some(td), region, category, noDataMessage).Returned?
    requires k in Select(Some(td), region, category, noDataMessage).value.data
    ensures var v := Select(Some(td), region, category, noDataMessage).value.data[k];
      || (k in td && v == td[k])
      || (k in td && td[k].JObj? && v.JObj? && |v.fields.Keys| == 1
          && forall c :: c in v.fields ==> c in td[k].fields && v.fields[c] == td[k].fields[c])
      || (k !in td && k in {"India", "Global"} && v == JObj(map[]))
  {
    var r := Select(Some(td), region, category, noDataMessage).value;
    if Truthy(region) && region.value in td && Truthy(category) && Member(td[region.value], category.value) {
      assert k == region.value;
      var v := r.data[k];
      assert v.fields.Keys == {category.value};
    }
  }
}
