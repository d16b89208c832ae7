/** The requests the widget sends to the time-tracking service, as data: the
    HTTP verb, the endpoint below `https://app.absence.io/api/v2` and the JSON
    body. Signing the request and sending it are not part of this model. */
module Api {
  import opened Wrappers
  import opened Calendar
  import opened Timestamps

  /** The object keys that occur in the widget's request bodies. */
  datatype Key = Filter | UserId | Start | Gte | Type | Limit | Skip | End | TimezoneName | Timezone

  /** The key as it is written on the wire. */
  function KeyName(k: Key): string {
    match k
    case Filter => "filter"
    case UserId => "userId"
    case Start => "start"
    case Gte => "$gte"
    case Type => "type"
    case Limit => "limit"
    case Skip => "skip"
    case End => "end"
    case TimezoneName => "timezoneName"
    case Timezone => "timezone"
  }

  /** Distinct keys are written as distinct names, so a body's map of keys is
      also a map of names on the wire. */
  lemma {:induction false} KeyNameInjective(a: Key, b: Key)
    ensures KeyName(a) == KeyName(b) <==> a == b
  {
  }

  /** The JSON values the widget puts in request bodies. An object is a
      dictionary, so each key occurs at most once. */
  datatype Json = JNull | JInt(n: int) | JStr(s: string) | JObj(fields: map<Key, Json>)

  /** The value stored under `key` in a JSON object, `None` when absent or not an object. */
  function Lookup(j: Json, key: Key): Option<Json> {
    if j.JObj? && key in j.fields then Some(j.fields[key]) else None
  }

  /** The value at a path of keys through nested objects. */
  function At(j: Json, path: seq<Key>): Option<Json>
    decreases |path|
  {
    if |path| == 0 then Some(j)
    else match Lookup(j, path[0])
      case Some(child) => At(child, path[1..])
      case None => None
  }

  /** The verbs the widget uses; `requests.<verb>` is chosen by the lower-cased name. */
  datatype Method = POST | PUT

  datatype Request = Request(verb: Method, endpoint: string, body: Json)

  const BaseUrl: string := "https://app.absence.io/api/v2"
  const PageSize: int := 100

  /** The URL a request is sent to. */
  function Url(r: Request): string {
    BaseUrl + r.endpoint
  }

  /** `get_timespans_from(start)`: the first page of the user's work timespans
      whose `start` is on or after the given date. */
  function TimespansQuery(userId: string, from: Date): (r: Request)
    requires Valid(from)
    ensures r.verb == POST && Url(r) == "https://app.absence.io/api/v2/timespans"
    ensures r.body.JObj? && r.body.fields.Keys == {Filter, Type, Limit, Skip}
    ensures r.body.fields[Filter].JObj? && r.body.fields[Filter].fields.Keys == {UserId, Start}
    ensures r.body.fields[Filter].fields[Start].JObj? && r.body.fields[Filter].fields[Start].fields.Keys == {Gte}
    ensures At(r.body, [Filter, UserId]) == Some(JStr(userId))
    ensures At(r.body, [Filter, Start, Gte]) == Some(JStr(FormatDate(from)))
    ensures Lookup(r.body, Type) == Some(JStr("work"))
    ensures Lookup(r.body, Limit) == Some(JInt(PageSize)) && Lookup(r.body, Skip) == Some(JInt(0))
  {
    var since := JStr(FormatDate(from));
    var filter := JObj(map[UserId := JStr(userId), Start := JObj(map[Gte := since])]);
    var fields := map[Filter := filter, Type := JStr("work"), Limit := JInt(PageSize), Skip := JInt(0)];
    Request(POST, "/timespans", JObj(fields))
  }

  /** The date a query asks for sessions from, read back from its body; `None`
      when the body does not carry a well-formed `filter.start.$gte` date. */
  function SinceDate(r: Request): Option<Date> {
    match At(r.body, [Filter, Start, Gte])
    case Some(JStr(s)) => ParseDate(s)
    case _ => None
  }

  /** The date sent is what `absence_ftime(start)` yields for a date. */
  lemma {:induction false} QueryUsesFtime(userId: string, from: Date)
    requires Valid(from)
    ensures At(TimespansQuery(userId, from).body, [Filter, Start, Gte]) == Some(JStr(Ftime<Json>(DateValue(from)).s))
  {
  }

  /** The lower bound sent in the query is a date string that reads back as the
      requested day. */
  lemma {:induction false} QuerySinceReadsBack(userId: string, from: Date)
    requires Valid(from)
    ensures var since := At(TimespansQuery(userId, from).body, [Filter, Start, Gte]);
      && since.Some? && since.value.JStr? && |since.value.s| == 10
      && ParseDate(since.value.s) == Some(from)
    ensures SinceDate(TimespansQuery(userId, from)) == Some(from)
  {
    DateRoundTrip(from);
  }
}
