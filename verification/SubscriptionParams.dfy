/** What a client may ask for when it subscribes: known topics, each once, and filters on resources. */
module SubscriptionParams {
  import opened Prelude
  import Json
  import Text

  datatype Refusal = NoTopics | UnknownTopic(topic: string) | FiltersNotObject | BadFilter(key: string)

  // ---- Topics --------------------------------------------------------------------------------

  // Every topic at its first occurrence.
  function Distinct(topics: seq<string>): seq<string> {
    if topics == [] then []
    else
      var front, last := Distinct(topics[..|topics| - 1]), topics[|topics| - 1];
      if last in front then front else front + [last]
  }

  lemma {:induction false} DistinctHolds(topics: seq<string>, t: string)
    ensures t in Distinct(topics) <==> t in topics
  {
    if topics != [] {
      var front, last := topics[..|topics| - 1], topics[|topics| - 1];
      DistinctHolds(front, t);
      DistinctHolds(front, last);
      assert topics == front + [last];
    }
  }

  /** The accepted topics are the requested ones, none twice. */
  lemma {:induction false} DistinctIsExact(topics: seq<string>)
    ensures forall t :: t in Distinct(topics) <==> t in topics
    ensures forall i, j :: 0 <= i < j < |Distinct(topics)| ==> Distinct(topics)[i] != Distinct(topics)[j]
  {
    forall t ensures t in Distinct(topics) <==> t in topics {
      DistinctHolds(topics, t);
    }
    if topics != [] {
      DistinctIsExact(topics[..|topics| - 1]);
    }
  }

  predicate AllKnown(topics: seq<string>, known: set<string>) {
    forall i :: 0 <= i < |topics| ==> topics[i] in known
  }

  method NormalizeTopics(topics: seq<string>, known: set<string>) returns (r: Result<seq<string>, Refusal>)
    ensures topics == [] ==> r == Err(NoTopics)
    ensures topics != [] && AllKnown(topics, known) ==> r == Ok(Distinct(topics))
    ensures topics != [] && !AllKnown(topics, known) ==>
              exists i :: 0 <= i < |topics| && topics[i] !in known && AllKnown(topics[..i], known)
                          && r == Err(UnknownTopic(topics[i]))
  {
    if topics == [] {
      return Err(NoTopics);
    }
    var accepted: seq<string> := [];
    for i := 0 to |topics|
      invariant AllKnown(topics[..i], known) && accepted == Distinct(topics[..i])
    {
      if topics[i] !in known {
        return Err(UnknownTopic(topics[i]));
      }
      assert topics[..i + 1][..i] == topics[..i];
      DistinctHolds(topics[..i], topics[i]);
      if topics[i] !in accepted {
        accepted := accepted + [topics[i]];
      }
    }
    assert topics[..|topics|] == topics;
    return Ok(accepted);
  }

  // ---- Filters -------------------------------------------------------------------------------

  datatype Filters = Filters(ids: set<string>, kinds: set<string>)

  // The texts a filter field holds: one string, or an array of nothing but strings.
  function Texts(v: Json.Value): Option<seq<string>> {
    match v
    case Str(s) => Some([s])
    case Array(items) => StringsOf(items)
    case _ => None
  }

  function StringsOf(items: seq<Json.Value>): Option<seq<string>> {
    if items == [] then Some([])
    else
      match (StringsOf(items[..|items| - 1]), items[|items| - 1])
      case (Some(front), Str(s)) => Some(front + [s])
      case _ => None
  }

  lemma {:induction false} StringsOfPrefix(items: seq<Json.Value>, i: nat)
    requires i <= |items| && StringsOf(items[..i]).None?
    ensures StringsOf(items).None?
    decreases |items|
  {
    if i < |items| {
      assert items[..|items| - 1][..i] == items[..i];
      StringsOfPrefix(items[..|items| - 1], i);
    } else {
      assert items[..i] == items;
    }
  }

  predicate IsBlank(s: string) {
    Text.Trim(s) == ""
  }

  function NonBlank(texts: seq<string>): set<string> {
    set s | s in texts && !IsBlank(s)
  }

  // What a field adds to a filter set; an absent field adds nothing.
  function FieldSet(fields: map<string, Json.Value>, key: string): Option<set<string>> {
    if key !in fields then Some({})
    else
      match Texts(fields[key])
      case Some(texts) => Some(NonBlank(texts))
      case None => None
  }

  method ParseFilterSet(fields: map<string, Json.Value>, key: string, target: set<string>)
    returns (r: Result<set<string>, Refusal>)
    ensures r == match FieldSet(fields, key)
                 case Some(more) => Ok(target + more)
                 case None => Err(BadFilter(key))
  {
    assert target + {} == target;
    if key !in fields {
      return Ok(target);
    }
    match fields[key] {
      case Str(s) =>
        var more := if IsBlank(s) then {} else {s};
        assert NonBlank([s]) == more;
        return Ok(if IsBlank(s) then target else target + {s});
      case Array(items) =>
        r := ParseFilterItems(items, key, target);
      case _ =>
        return Err(BadFilter(key));
    }
  }

  method ParseFilterItems(items: seq<Json.Value>, key: string, target: set<string>)
    returns (r: Result<set<string>, Refusal>)
    ensures r == match StringsOf(items)
                 case Some(texts) => Ok(target + NonBlank(texts))
                 case None => Err(BadFilter(key))
  {
    var found := target;
    for i := 0 to |items|
      invariant StringsOf(items[..i]).Some? && found == target + NonBlank(StringsOf(items[..i]).value)
    {
      assert items[..i + 1][..i] == items[..i];
      match items[i] {
        case Str(s) =>
          if !IsBlank(s) {
            found := found + {s};
          }
        case _ =>
          StringsOfPrefix(items, i + 1);
          return Err(BadFilter(key));
      }
    }
    assert items[..|items|] == items;
    return Ok(found);
  }

  // All the fields that name resources, and those that name kinds.
  const ID_KEYS: seq<string> := ["resourceId", "resourceIds", "taskId", "taskIds"]
  const KIND_KEYS: seq<string> := ["resourceType", "resourceTypes"]

  // The union over the fields, or the first field that is malformed.
  function FieldSets(fields: map<string, Json.Value>, keys: seq<string>): Result<set<string>, Refusal> {
    if keys == [] then Ok({})
    else
      var last := keys[|keys| - 1];
      match FieldSets(fields, keys[..|keys| - 1])
      case Err(e) => Err(e)
      case Ok(found) =>
        match FieldSet(fields, last)
        case Some(more) => Ok(found + more)
        case None => Err(BadFilter(last))
  }

  function FiltersOf(raw: Option<Json.Value>): Result<Filters, Refusal> {
    match raw
    case None => Ok(Filters({}, {}))
    case Some(Object(fields)) =>
      (match (FieldSets(fields, ID_KEYS), FieldSets(fields, KIND_KEYS))
       case (Err(e), _) => Err(e)
       case (Ok(_), Err(e)) => Err(e)
       case (Ok(ids), Ok(kinds)) => Ok(Filters(ids, kinds)))
    case Some(_) => Err(FiltersNotObject)
  }

  method ParseFields(fields: map<string, Json.Value>, keys: seq<string>) returns (r: Result<set<string>, Refusal>)
    ensures r == FieldSets(fields, keys)
  {
    var found: set<string> := {};
    for i := 0 to |keys|
      invariant FieldSets(fields, keys[..i]) == Ok(found)
    {
      assert keys[..i + 1][..i] == keys[..i];
      var more := ParseFilterSet(fields, keys[i], found);
      if more.Err? {
        MalformedPrefix(fields, keys, i + 1);
        return more;
      }
      found := more.value;
    }
    assert keys[..|keys|] == keys;
    return Ok(found);
  }

  lemma {:induction false} MalformedPrefix(fields: map<string, Json.Value>, keys: seq<string>, i: nat)
    requires i <= |keys| && FieldSets(fields, keys[..i]).Err?
    ensures FieldSets(fields, keys) == FieldSets(fields, keys[..i])
    decreases |keys|
  {
    if i < |keys| {
      assert keys[..|keys| - 1][..i] == keys[..i];
      MalformedPrefix(fields, keys[..|keys| - 1], i);
    } else {
      assert keys[..i] == keys;
    }
  }

  method FiltersFromJson(raw: Option<Json.Value>) returns (r: Result<Filters, Refusal>)
    ensures r == FiltersOf(raw)
  {
    match raw {
      case None => return Ok(Filters({}, {}));
      case Some(Object(fields)) =>
        var ids := ParseFields(fields, ID_KEYS);
        if ids.Err? {
          return Err(ids.error);
        }
        var kinds := ParseFields(fields, KIND_KEYS);
        if kinds.Err? {
          return Err(kinds.error);
        }
        return Ok(Filters(ids.value, kinds.value));
      case Some(_) => return Err(FiltersNotObject);
    }
  }
}
