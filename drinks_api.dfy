/** The drinks event endpoint: a list of recent drinking events, kept in a
    key-value namespace when one is bound and in a process-wide array
    otherwise, with a filtered, newest-first GET and a validating POST.
    Event ids, the clock, the platform's geolocation object and the
    conversion `Number(string)` are inputs. */
module DrinksApi {
  import opened Options
  import opened Seqs
  import opened Strings
  import opened JsNumbers
  import opened Sorting

  datatype Gender = Male | Female | OtherGender

  datatype DrinkEvent = DrinkEvent(
    id: string,
    createdAt: int,
    country: Option<string>,
    city: Option<string>,
    lat: Option<Num>,
    lng: Option<Num>,
    drinkType: string,
    drinkName: Option<string>,
    message: Option<string>,
    gender: Option<Gender>)

  const MaxEvents: nat := 500
  const MaxReturned: nat := 200
  const MaxNameLength: nat := 80
  const MaxMessageLength: nat := 160

  // ---------------------------------------------------------------------------
  // Storage

  /** What reading the key "events" from the namespace can give: nothing
      (or an empty value), a read or parse failure, a JSON value that is not
      an array, or an array of events. */
  datatype KvRead = Missing | ReadFailed | NotAnArray | Stored(events: seq<DrinkEvent>)

  /** `loadEvents` when the namespace is bound: every failure gives the empty list. */
  function LoadFromKv(read: KvRead): (events: seq<DrinkEvent>)
    ensures read.Stored? ==> events == read.events
    ensures !read.Stored? ==> events == []
  {
    if read.Stored? then read.events else []
  }

  /** The list after appending one event and keeping the newest `MaxEvents`:
      the new event is last and the others are the newest earlier ones, in order. */
  function StoreAppend(events: seq<DrinkEvent>, e: DrinkEvent): (r: seq<DrinkEvent>)
    ensures 1 <= |r| <= MaxEvents
    ensures r[|r| - 1] == e
    ensures r[..|r| - 1] == KeepLast(events, MaxEvents - 1)
  {
    AppendKeepLast(events, e, MaxEvents);
    KeepLast(events + [e], MaxEvents)
  }

  /** `saveEvent` when the namespace is bound: the value written back. */
  function KvSave(read: KvRead, e: DrinkEvent): (written: seq<DrinkEvent>)
    ensures written == StoreAppend(LoadFromKv(read), e)
    ensures !read.Stored? ==> written == [e]
  {
    var events := LoadFromKv(read);
    if read.Stored? then KeepLast(events + [e], MaxEvents)
    else assert events + [e] == [e]; KeepLast([e], MaxEvents)
  }

  /** The in-memory fallback store. */
  class MemoryStore {
    var events: seq<DrinkEvent>

    constructor ()
      ensures events == []
    {
      events := [];
    }

    /** `saveEvent` without a namespace: push, then cut the oldest off. */
    method Save(e: DrinkEvent)
      modifies this
      ensures events == StoreAppend(old(events), e)
    {
      events := events + [e];
      if |events| > MaxEvents {
        events := events[|events| - MaxEvents..];
      }
    }

    /** `onRequestPost` without a namespace: a created event is saved, a
        refused request changes nothing. */
    method Post(contentType: Option<string>, body: PostBody, geo: Geo, id: string, now: int,
                toNumber: string -> Num) returns (r: PostResult)
      modifies this
      ensures r == HandlePost(contentType, body, geo, id, now, toNumber)
      ensures events == if r.Created? then StoreAppend(old(events), r.event) else old(events)
    {
      r := HandlePost(contentType, body, geo, id, now, toNumber);
      if r.Created? {
        Save(r.event);
      }
    }
  }

  // ---------------------------------------------------------------------------
  // Numbers

  /** The JavaScript values a geolocation field can hold, as far as the code
      distinguishes them. */
  datatype JsValue = JNumber(n: Num) | JString(s: string) | JOther

  /** `parseNumber`: numbers pass unchanged (NaN and the infinities included),
      strings pass when their conversion is finite, anything else is undefined. */
  function ParseNumber(v: JsValue, toNumber: string -> Num): (r: Option<Num>)
    ensures v.JNumber? ==> r == Some(v.n)
    ensures v.JString? ==> (r.Some? <==> IsFinite(toNumber(v.s)))
    ensures v.JString? && r.Some? ==> r.value == toNumber(v.s)
    ensures v.JOther? ==> r.None?
  {
    match v
    case JNumber(n) => Some(n)
    case JString(s) => if IsFinite(toNumber(s)) then Some(toNumber(s)) else None
    case JOther => None
  }

  /** `clamp(num, min, max)`, that is `Math.min(max, Math.max(min, num))`. */
  function Clamp(num: Num, lo: real, hi: real): (r: Num)
    ensures r.NaN? <==> num.NaN?
    ensures lo <= hi && !num.NaN? ==> r.Finite? && lo <= r.value <= hi
    ensures num.Finite? && lo <= num.value <= hi ==> r == num
    ensures lo <= hi && !num.NaN? && LessEq(num, Finite(lo)) ==> r == Finite(lo)
    ensures lo <= hi && !num.NaN? && LessEq(Finite(hi), num) ==> r == Finite(hi)
  {
    Min(Finite(hi), Max(Finite(lo), num))
  }

  // ---------------------------------------------------------------------------
  // GET

  /** `createdAt > since` for a non-NaN `since`. */
  predicate After(e: DrinkEvent, since: Num)
    requires !since.NaN?
  {
    match since
    case Finite(t) => e.createdAt as real > t
    case PosInf => false
    case NegInf => true
  }

  /** `events.filter(e => e.createdAt > since)`: every event after `since`,
      as often as it occurs. */
  function FilterAfter(events: seq<DrinkEvent>, since: Num): (r: seq<DrinkEvent>)
    requires !since.NaN?
    ensures multiset(r) <= multiset(events)
    ensures forall i :: 0 <= i < |r| ==> After(r[i], since)
    ensures forall e :: e in events && After(e, since) ==> e in r
    ensures forall e :: multiset(r)[e] == if After(e, since) then multiset(events)[e] else 0
  {
    Filter(events, e => !since.NaN? && After(e, since))
  }

  /** The filter keeps the stored order. */
  lemma FilterAfterAppend(a: seq<DrinkEvent>, b: seq<DrinkEvent>, since: Num)
    requires !since.NaN?
    ensures FilterAfter(a + b, since) == FilterAfter(a, since) + FilterAfter(b, since)
  {
    FilterAppend(a, b, e => !since.NaN? && After(e, since));
  }

  function CreatedAt(e: DrinkEvent): int
  {
    e.createdAt
  }

  /** The `since` query parameter applies when it is present and not empty
      and its conversion is not NaN. */
  function SinceFilter(since: Option<string>, toNumber: string -> Num): (t: Option<Num>)
    ensures t.Some? ==> !t.value.NaN?
    ensures t.Some? <==> since.Some? && since.value != "" && !toNumber(since.value).NaN?
  {
    if since.Some? && since.value != "" && !toNumber(since.value).NaN? then Some(toNumber(since.value))
    else None
  }

  /** The events a GET considers, before sorting. */
  function Candidates(events: seq<DrinkEvent>, since: Option<string>, toNumber: string -> Num): (c: seq<DrinkEvent>)
    ensures multiset(c) <= multiset(events)
    ensures SinceFilter(since, toNumber).Some? ==>
      forall i :: 0 <= i < |c| ==> After(c[i], SinceFilter(since, toNumber).value)
    ensures SinceFilter(since, toNumber).Some? ==>
      forall e :: e in events && After(e, SinceFilter(since, toNumber).value) ==> e in c
    ensures SinceFilter(since, toNumber).Some? ==>
      forall e :: multiset(c)[e] == if After(e, SinceFilter(since, toNumber).value) then multiset(events)[e] else 0
    ensures SinceFilter(since, toNumber).None? ==> c == events
  {
    var t := SinceFilter(since, toNumber);
    if t.Some? then FilterAfter(events, t.value) else events
  }

  /** The candidates keep the stored order, so the stable sort breaks ties
      between equal creation times by storage order. */
  lemma CandidatesAppend(a: seq<DrinkEvent>, b: seq<DrinkEvent>, since: Option<string>, toNumber: string -> Num)
    ensures Candidates(a + b, since, toNumber) == Candidates(a, since, toNumber) + Candidates(b, since, toNumber)
  {
    var t := SinceFilter(since, toNumber);
    if t.Some? {
      FilterAfterAppend(a, b, t.value);
    }
  }

  /** The events a GET returns: the candidates newest first, at most `MaxReturned`. */
  function HandleGet(events: seq<DrinkEvent>, since: Option<string>, toNumber: string -> Num): (r: seq<DrinkEvent>)
    ensures var c := Candidates(events, since, toNumber);
      && |r| == (if |c| <= MaxReturned then |c| else MaxReturned)
      && multiset(r) <= multiset(c)
    ensures SortedDesc(r, CreatedAt)
    ensures forall x :: x in multiset(Candidates(events, since, toNumber)) - multiset(r) ==>
      forall i :: 0 <= i < |r| ==> x.createdAt <= r[i].createdAt
  {
    TopN(Candidates(events, since, toNumber), CreatedAt, MaxReturned)
  }

  /** Events created at the same time are returned in storage order; when
      the limit cuts through such a group, the earliest stored of them are
      the ones kept. */
  lemma GetTiesInStoredOrder(events: seq<DrinkEvent>, since: Option<string>, toNumber: string -> Num, k: int)
    ensures var tied := WithKey(Candidates(events, since, toNumber), CreatedAt, k);
      var kept := WithKey(HandleGet(events, since, toNumber), CreatedAt, k);
      |kept| <= |tied| && kept == tied[..|kept|]
  {
    TopNTies(Candidates(events, since, toNumber), CreatedAt, MaxReturned, k);
  }

  /** A GET returns only stored events, at most `MaxReturned` of them; with
      a `since` filter all of them are newer than it, and without one as
      many as are stored up to the limit. */
  lemma GetFiltersSince(events: seq<DrinkEvent>, since: Option<string>, toNumber: string -> Num)
    ensures var r := HandleGet(events, since, toNumber);
      && |r| <= MaxReturned
      && multiset(r) <= multiset(events)
      && (SinceFilter(since, toNumber).Some? ==>
            forall i :: 0 <= i < |r| ==> After(r[i], SinceFilter(since, toNumber).value))
      && (SinceFilter(since, toNumber).None? ==>
            |r| == if |events| <= MaxReturned then |events| else MaxReturned)
  {
    var r := HandleGet(events, since, toNumber);
    var c := Candidates(events, since, toNumber);
    forall i | 0 <= i < |r| ensures r[i] in c {
      assert r[i] in multiset(r);
    }
  }

  // ---------------------------------------------------------------------------
  // POST

  const ErrContentType: string := "Expected application/json"
  const ErrInvalidJson: string := "Invalid JSON body"
  const ErrTypeRequired: string := "drinkType is required"

  /** A POST is refused only when a Content-Type header is present and does
      not contain "application/json"; a missing header passes. */
  predicate RejectsContentType(contentType: Option<string>)
    ensures RejectsContentType(contentType) <==>
      contentType.Some? && forall i :: !OccursAt(contentType.value, "application/json", i)
  {
    if contentType.None? then false
    else
      ContainsMeans(contentType.value, "application/json");
      !Contains(contentType.value, "application/json")
  }

  /** The request body: invalid JSON, or an object whose string fields may be absent. */
  datatype PostBody =
    | InvalidJson
    | Body(drinkType: Option<string>, drinkName: Option<string>, message: Option<string>, gender: Option<string>)

  /** The platform's geolocation fields; with no geolocation object all are undefined. */
  datatype Geo = Geo(country: JsValue, city: JsValue, latitude: JsValue, longitude: JsValue)

  const NoGeo: Geo := Geo(JOther, JOther, JOther, JOther)

  const AllowedTypes: seq<string> :=
    ["beer", "wine", "whisky", "sake", "cocktail", "spirits", "brandy", "gin", "rum", "vodka", "baijiu", "other"]

  datatype PostResult = BadRequest(error: string) | Created(event: DrinkEvent)

  function Status(r: PostResult): int
  {
    if r.BadRequest? then 400 else 201
  }

  /** `(body.drinkType || '').trim().toLowerCase()`. */
  function RequestedType(t: Option<string>): string
  {
    ToLower(Trim(if t.Some? then t.value else ""))
  }

  /** Unknown drink types become "other". */
  function NormalizeType(t: string): (r: string)
    ensures r in AllowedTypes
    ensures t in AllowedTypes ==> r == t
    ensures t !in AllowedTypes ==> r == "other"
  {
    if t in AllowedTypes then t else "other"
  }

  /** `s?.slice(0, n)`: a prefix of at most `n` characters. */
  function Truncate(s: Option<string>, n: nat): (r: Option<string>)
    ensures r.Some? <==> s.Some?
    ensures r.Some? ==> |r.value| <= n && |r.value| <= |s.value| && r.value == s.value[..|r.value|]
    ensures r.Some? && |s.value| <= n ==> r.value == s.value
  {
    if s.Some? then Some(Take(s.value, n)) else None
  }

  /** Only "male", "female" and "other" are kept. */
  function ParseGender(g: Option<string>): (r: Option<Gender>)
    ensures r == Some(Male) <==> g == Some("male")
    ensures r == Some(Female) <==> g == Some("female")
    ensures r == Some(OtherGender) <==> g == Some("other")
  {
    if g == Some("male") then Some(Male)
    else if g == Some("female") then Some(Female)
    else if g == Some("other") then Some(OtherGender)
    else None
  }

  /** `typeof v === 'string' ? v : undefined`. */
  function StringField(v: JsValue): (r: Option<string>)
    ensures r.Some? <==> v.JString?
    ensures r.Some? ==> r.value == v.s
  {
    if v.JString? then Some(v.s) else None
  }

  /** A parsed coordinate clamped to `[-bound, bound]`. */
  function Coordinate(v: JsValue, bound: real, toNumber: string -> Num): (r: Option<Num>)
    requires bound >= 0.0
    ensures r.Some? <==> ParseNumber(v, toNumber).Some?
    ensures r.Some? && !r.value.NaN? ==> r.value.Finite? && -bound <= r.value.value <= bound
    ensures r.Some? && r.value.NaN? ==> v == JNumber(NaN)
  {
    var n := ParseNumber(v, toNumber);
    if n.Some? then Some(Clamp(n.value, -bound, bound)) else None
  }

  /** `onRequestPost` up to the save. */
  function HandlePost(contentType: Option<string>, body: PostBody, geo: Geo, id: string, now: int,
                      toNumber: string -> Num): (r: PostResult)
    ensures RejectsContentType(contentType) ==> r == BadRequest(ErrContentType)
    ensures !RejectsContentType(contentType) && body.InvalidJson? ==> r == BadRequest(ErrInvalidJson)
    ensures !RejectsContentType(contentType) && body.Body? ==>
      (r.BadRequest? <==> RequestedType(body.drinkType) == "")
    ensures r.BadRequest? ==> r.error in {ErrContentType, ErrInvalidJson, ErrTypeRequired}
    ensures r.Created? ==> !RejectsContentType(contentType) && body.Body?
    ensures r.Created? ==>
      var e := r.event;
      && e.id == id && e.createdAt == now
      && e.drinkType in AllowedTypes
      && e.drinkType == NormalizeType(RequestedType(body.drinkType))
      && e.drinkName == Truncate(body.drinkName, MaxNameLength)
      && e.message == Truncate(body.message, MaxMessageLength)
      && e.gender == ParseGender(body.gender)
      && e.country == StringField(geo.country) && e.city == StringField(geo.city)
      && e.lat == Coordinate(geo.latitude, 90.0, toNumber)
      && e.lng == Coordinate(geo.longitude, 180.0, toNumber)
  {
    if RejectsContentType(contentType) then BadRequest(ErrContentType)
    else if body.InvalidJson? then BadRequest(ErrInvalidJson)
    else
      var requested := RequestedType(body.drinkType);
      if requested == "" then BadRequest(ErrTypeRequired)
      else
        Created(DrinkEvent(
          id, now,
          StringField(geo.country), StringField(geo.city),
          Coordinate(geo.latitude, 90.0, toNumber), Coordinate(geo.longitude, 180.0, toNumber),
          NormalizeType(requested),
          Truncate(body.drinkName, MaxNameLength),
          Truncate(body.message, MaxMessageLength),
          ParseGender(body.gender)))
  }

  /** With a namespace bound, what a POST writes: nothing on a 400, the
      appended list on a 201. */
  function KvPost(read: KvRead, r: PostResult): (written: Option<seq<DrinkEvent>>)
    ensures r.BadRequest? ==> written.None?
    ensures r.Created? ==> written == Some(StoreAppend(LoadFromKv(read), r.event))
  {
    if r.Created? then Some(KvSave(read, r.event)) else None
  }

  /** Every event a POST stores carries an allowed drink type, and its
      coordinates, when present and not NaN, are within the globe's ranges. */
  lemma PostedEventWellFormed(contentType: Option<string>, body: PostBody, geo: Geo, id: string, now: int,
                              toNumber: string -> Num)
    requires HandlePost(contentType, body, geo, id, now, toNumber).Created?
    ensures var e := HandlePost(contentType, body, geo, id, now, toNumber).event;
      && e.drinkType in AllowedTypes && e.drinkType != ""
      && (e.drinkName.Some? ==> |e.drinkName.value| <= MaxNameLength)
      && (e.message.Some? ==> |e.message.value| <= MaxMessageLength)
      && (e.lat.Some? && !e.lat.value.NaN? ==> -90.0 <= e.lat.value.value <= 90.0)
      && (e.lng.Some? && !e.lng.value.NaN? ==> -180.0 <= e.lng.value.value <= 180.0)
  {
  }
}
