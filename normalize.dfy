/** Normalisation of the contacts API's responses: picking the contact array out of
    the response envelope, mapping each raw record to a canonical contact through
    `||` fallback chains, deriving the total count, and reading the stats counters
    through their key aliases. Property reads on `null`/`undefined` and `.map` on a
    value that is not an array throw a TypeError in the page; here they give `Err`. */
module Normalize {
  import opened Json
  import opened Text
  import opened Wrappers

  /** A contact as the page holds it. The page copies raw server values into these
      fields without converting them, so each field is a `Value`. */
  datatype Contact = Contact(
    id: Value,
    name: Value,
    email: Value,
    phone: Value,
    avatar: Value,
    source: Value,
    temperature: Value,
    stage: Value,
    group: Value,
    lastContact: Value,
    tags: Value,
    createdAt: Value)

  /** The placeholder name of a record that has no name, first name or e-mail. */
  const UnknownName := "غير معروف"

  /** The composed name `${firstName} ${lastName || ""}`, trimmed. */
  function ComposedName(c: Value): (r: string)
    requires !Nullish(c)
  {
    Trim(Show(Prop(c, "firstName")) + " " + Show(Or(Prop(c, "lastName"), Str(""))))
  }

  /** `c.name || (c.firstName ? composed : c.email || "غير معروف")`. */
  function ContactName(c: Value): (r: Value)
    requires !Nullish(c)
  {
    Or(Prop(c, "name"),
       if Truthy(Prop(c, "firstName")) then Str(ComposedName(c)) else Or(Prop(c, "email"), Str(UnknownName)))
  }

  /** The canonical contact of raw record `c` at position `index` of the array. */
  function ToContact(c: Value, index: nat): (r: Contact)
    requires !Nullish(c)
  {
    Contact(
      id := Or(Or(Prop(c, "_id"), Prop(c, "id")), Num(index + 1)),
      name := ContactName(c),
      email := Or(Prop(c, "email"), Str("")),
      phone := Or(Prop(c, "phone"), Str("")),
      avatar := Or(Prop(c, "avatar"), Null),
      source := Or(Prop(c, "source"), Str("Email")),
      temperature := Or(Or(Prop(c, "temperature"), Prop(c, "temp")), Str("cold")),
      stage := Or(Prop(c, "stage"), Str("contact")),
      group := Or(Prop(c, "group"), Null),
      lastContact := Or(Or(Or(Prop(c, "lastContact"), Prop(c, "updatedAt")), Prop(c, "createdAt")), Str("")),
      tags := Or(Prop(c, "tags"), Arr([])),
      createdAt := Or(Prop(c, "createdAt"), Str("")))
  }

  /** The field is the server's value when truthy, otherwise exactly the default. */
  predicate Defaulted(field: Value, raw: Value, default: Value) {
    if Truthy(raw) then field == raw else field == default
  }

  /** Every fallback chain of the record mapping: the id is `_id`, else `id`, else
      the 1-based position; the temperature is `temperature`, else `temp`, else
      "cold"; the last contact is `lastContact`, else `updatedAt`, else `createdAt`,
      else ""; each other field has its own default. */
  lemma ToContactFallbacks(c: Value, index: nat)
    requires !Nullish(c)
    ensures var r := ToContact(c, index);
      && Defaulted(r.id, Or(Prop(c, "_id"), Prop(c, "id")), Num(index + 1))
      && (Truthy(Prop(c, "_id")) ==> r.id == Prop(c, "_id"))
      && (!Truthy(Prop(c, "_id")) && Truthy(Prop(c, "id")) ==> r.id == Prop(c, "id"))
      && Defaulted(r.email, Prop(c, "email"), Str(""))
      && Defaulted(r.phone, Prop(c, "phone"), Str(""))
      && Defaulted(r.avatar, Prop(c, "avatar"), Null)
      && Defaulted(r.source, Prop(c, "source"), Str("Email"))
      && Defaulted(r.temperature, Or(Prop(c, "temperature"), Prop(c, "temp")), Str("cold"))
      && (!Truthy(Prop(c, "temperature")) && Truthy(Prop(c, "temp")) ==> r.temperature == Prop(c, "temp"))
      && Defaulted(r.stage, Prop(c, "stage"), Str("contact"))
      && Defaulted(r.group, Prop(c, "group"), Null)
      && (Truthy(Prop(c, "lastContact")) ==> r.lastContact == Prop(c, "lastContact"))
      && (!Truthy(Prop(c, "lastContact")) && Truthy(Prop(c, "updatedAt")) ==> r.lastContact == Prop(c, "updatedAt"))
      && (!Truthy(Prop(c, "lastContact")) && !Truthy(Prop(c, "updatedAt")) ==> r.lastContact == r.createdAt)
      && Defaulted(r.tags, Prop(c, "tags"), Arr([]))
      && Defaulted(r.createdAt, Prop(c, "createdAt"), Str(""))
  {
  }

  /** The identifying and categorising fields of a mapped contact are always truthy,
      so the "no open dropdown" state (`null`) never equals a contact's id; the text
      fields are never `null` or `undefined`, only avatar and group may be `null`. */
  lemma ToContactDefined(c: Value, index: nat)
    requires !Nullish(c)
    ensures var r := ToContact(c, index);
      && Truthy(r.id) && Truthy(r.source) && Truthy(r.temperature) && Truthy(r.stage) && Truthy(r.tags)
      && !Nullish(r.name) && !Nullish(r.email) && !Nullish(r.phone)
      && !Nullish(r.lastContact) && !Nullish(r.createdAt)
      && (Truthy(r.avatar) || r.avatar == Null) && (Truthy(r.group) || r.group == Null)
  {
  }

  /** The name falls back, in order, to the trimmed "firstName lastName" when the
      first name is truthy, to the e-mail, and to the placeholder. */
  lemma ContactNameFallbacks(c: Value)
    requires !Nullish(c)
    ensures Truthy(Prop(c, "name")) ==> ContactName(c) == Prop(c, "name")
    ensures !Truthy(Prop(c, "name")) && Truthy(Prop(c, "firstName")) ==> ContactName(c) == Str(ComposedName(c))
    ensures (!Truthy(Prop(c, "name")) && !Truthy(Prop(c, "firstName")) && Truthy(Prop(c, "email")))
      ==> ContactName(c) == Prop(c, "email")
    ensures (!Truthy(Prop(c, "name")) && !Truthy(Prop(c, "firstName")) && !Truthy(Prop(c, "email")))
      ==> ContactName(c) == Str(UnknownName)
  {
  }

  /** A mapped name is blank exactly when the record has no truthy name but a truthy
      first name whose composition with the last name is white space only; neither
      the e-mail nor the placeholder is then consulted. */
  lemma ContactNameBlank(c: Value)
    requires !Nullish(c)
    ensures !Truthy(ContactName(c)) <==>
      !Truthy(Prop(c, "name")) && Truthy(Prop(c, "firstName"))
      && AllSpace(Show(Prop(c, "firstName")) + " " + Show(Or(Prop(c, "lastName"), Str(""))))
    ensures !Truthy(ContactName(c)) ==> ContactName(c) == Str("")
  {
    TrimSpec(Show(Prop(c, "firstName")) + " " + Show(Or(Prop(c, "lastName"), Str(""))));
  }

  /** A record with only an e-mail address is named after it. */
  lemma NamedAfterEmail()
    ensures ContactName(Obj(map["email" := Str("a@b.com")])) == Str("a@b.com")
  {
    var c := Obj(map["email" := Str("a@b.com")]);
    assert Prop(c, "name") == Undefined;
    assert Prop(c, "firstName") == Undefined;
  }

  /** A numeric `_id` of 0 is falsy, so the id falls back to the 1-based position. */
  lemma ZeroIdFallsBack(index: nat)
    ensures ToContact(Obj(map["_id" := Num(0)]), index).id == Num(index + 1)
  {
    var c := Obj(map["_id" := Num(0)]);
    assert Prop(c, "id") == Undefined;
  }

  /** A numeric `_id` of 0 gives way to a truthy `id`. */
  lemma ZeroIdGivesWayToId(index: nat)
    ensures ToContact(Obj(map["_id" := Num(0), "id" := Str("x")]), index).id == Str("x")
  {
    var d := Obj(map["_id" := Num(0), "id" := Str("x")]);
    assert Prop(d, "id") == Str("x");
  }

  /** The first truthy of `response.contacts`, `response.data`, `response`, `[]`. */
  function Envelope(response: Value): (r: Value)
    requires !Nullish(response)
  {
    Or(Or(Or(Prop(response, "contacts"), Prop(response, "data")), response), Arr([]))
  }

  /** The contact array of a list response. Reading `.contacts` of `null` or
      `undefined` throws, and so does mapping over a chosen value that is not an
      array (an object envelope or a string, for instance). */
  function ContactArray(response: Value): (r: Result<seq<Value>>)
    ensures r.Ok? <==> !Nullish(response) && Envelope(response).Arr?
    ensures r.Ok? ==> r.value == Envelope(response).elems
  {
    if Nullish(response) then Err(TypeErrorMessage)
    else
      var chosen := Envelope(response);
      if chosen.Arr? then Ok(chosen.elems) else Err(TypeErrorMessage)
  }

  /** The envelope precedence: a truthy `contacts` wins (an empty array is truthy),
      else a truthy `data`, else the response itself when truthy, else nothing. */
  lemma EnvelopePrecedence(response: Value)
    requires !Nullish(response)
    ensures Truthy(Prop(response, "contacts")) ==> Envelope(response) == Prop(response, "contacts")
    ensures (!Truthy(Prop(response, "contacts")) && Truthy(Prop(response, "data")))
      ==> Envelope(response) == Prop(response, "data")
    ensures (!Truthy(Prop(response, "contacts")) && !Truthy(Prop(response, "data")) && Truthy(response))
      ==> Envelope(response) == response
    ensures !Truthy(response) ==> Envelope(response) == Arr([])
  {
  }

  /** The three flat shapes `{contacts: A}`, `{data: A}` and the bare array `A` give
      the same contact array; the nested `{data: {contacts: A}}` is not unwrapped
      and makes the page throw. */
  lemma EnvelopeShapes(a: seq<Value>)
    ensures ContactArray(Obj(map["contacts" := Arr(a)])) == Ok(a)
    ensures ContactArray(Obj(map["data" := Arr(a)])) == Ok(a)
    ensures ContactArray(Arr(a)) == Ok(a)
    ensures ContactArray(Obj(map["data" := Obj(map["contacts" := Arr(a)])])).Err?
  {
    assert Prop(Obj(map["data" := Arr(a)]), "contacts") == Undefined;
    var nested := Obj(map["data" := Obj(map["contacts" := Arr(a)])]);
    assert Prop(nested, "contacts") == Undefined;
  }

  /** An empty `contacts` array wins over whatever `data` holds. */
  lemma EmptyContactsWin(data: Value)
    ensures ContactArray(Obj(map["contacts" := Arr([]), "data" := data])) == Ok([])
  {
  }

  /** `records.map(f)` over the records from index `i` on, where the callback `f`
      reads properties of its record: every record is mapped with its own index, in
      order, unless one is `null` or `undefined`, on which the callback throws. */
  function MapRecords(a: seq<Value>, i: nat, f: (Value, nat) --> Contact): (r: Result<seq<Contact>>)
    requires i <= |a|
    requires forall c, n :: !Nullish(c) ==> f.requires(c, n)
    ensures r.Ok? <==> forall j :: i <= j < |a| ==> !Nullish(a[j])
    ensures r.Ok? ==> |r.value| == |a| - i
    ensures r.Ok? ==> forall j :: i <= j < |a| ==> r.value[j - i] == f(a[j], j)
    decreases |a| - i
  {
    if i == |a| then Ok([])
    else if Nullish(a[i]) then Err(TypeErrorMessage)
    else
      match MapRecords(a, i + 1, f)
      case Err(e) => Err(e)
      case Ok(rest) => Ok([f(a[i], i)] + rest)
  }

  /** A normalised list page: the contacts and the total count. */
  datatype Listing = Listing(contacts: seq<Contact>, total: Value)

  /** `fetchContacts`' use of a list response: the mapped contacts, and
      `response.total || response.totalCount || mappedContacts.length`. */
  function NormalizeList(response: Value): (r: Result<Listing>)
    ensures r.Ok? <==> ContactArray(response).Ok? && forall j :: 0 <= j < |ContactArray(response).value| ==> !Nullish(ContactArray(response).value[j])
    ensures r.Ok? ==> |r.value.contacts| == |ContactArray(response).value|
    ensures r.Ok? ==> forall j :: 0 <= j < |r.value.contacts| ==> r.value.contacts[j] == ToContact(ContactArray(response).value[j], j)
    ensures r.Ok? ==> Truthy(r.value.total) || r.value.total == Num(0)
  {
    match ContactArray(response)
    case Err(e) => Err(e)
    case Ok(records) =>
      match MapRecords(records, 0, ToContact)
      case Err(e) => Err(e)
      case Ok(contacts) =>
        Ok(Listing(contacts, Or(Or(Prop(response, "total"), Prop(response, "totalCount")), Num(|contacts|))))
  }

  /** The total is `total`, else `totalCount`, else the number of mapped contacts;
      a record without a truthy `_id` or `id` gets its 1-based position as id. */
  lemma NormalizeListCount(response: Value)
    requires NormalizeList(response).Ok?
    ensures var l := NormalizeList(response).value;
      && (Truthy(Prop(response, "total")) ==> l.total == Prop(response, "total"))
      && (!Truthy(Prop(response, "total")) && Truthy(Prop(response, "totalCount")) ==> l.total == Prop(response, "totalCount"))
      && (!Truthy(Prop(response, "total")) && !Truthy(Prop(response, "totalCount")) ==> l.total == Num(|l.contacts|))
    ensures var l := NormalizeList(response).value;
            var a := ContactArray(response).value;
      forall i :: 0 <= i < |a| && !Truthy(Prop(a[i], "_id")) && !Truthy(Prop(a[i], "id")) ==>
        l.contacts[i].id == Num(i + 1)
  {
  }

  /** The stats panel's counters. */
  datatype Stats = Stats(total: Value, hot: Value, ghlTransfers: Value, frozen: Value)

  /** The counters before the first stats response. */
  const ZeroStats := Stats(Num(0), Num(0), Num(0), Num(0))

  /** `fetchStats`' use of a stats response: each counter through its key alias, then 0. */
  function NormalizeStats(response: Value): (r: Result<Stats>)
    ensures r.Ok? <==> !Nullish(response)
  {
    if Nullish(response) then Err(TypeErrorMessage)
    else Ok(Stats(
      total := Or(Or(Prop(response, "total"), Prop(response, "totalContacts")), Num(0)),
      hot := Or(Or(Prop(response, "hot"), Prop(response, "hotLeads")), Num(0)),
      ghlTransfers := Or(Prop(response, "ghlTransfers"), Num(0)),
      frozen := Or(Or(Prop(response, "frozen"), Prop(response, "frozenContacts")), Num(0))))
  }

  /** A counter is never `undefined`: it is a truthy server value or 0. */
  predicate Counter(v: Value) {
    Truthy(v) || v == Num(0)
  }

  /** Each counter is the primary key's value, else its alias's, else 0. */
  lemma NormalizeStatsAliases(response: Value)
    requires !Nullish(response)
    ensures var s := NormalizeStats(response).value;
      && Counter(s.total) && Counter(s.hot) && Counter(s.ghlTransfers) && Counter(s.frozen)
      && Defaulted(s.total, Or(Prop(response, "total"), Prop(response, "totalContacts")), Num(0))
      && (!Truthy(Prop(response, "total")) ==> s.total == Or(Prop(response, "totalContacts"), Num(0)))
      && Defaulted(s.hot, Or(Prop(response, "hot"), Prop(response, "hotLeads")), Num(0))
      && (!Truthy(Prop(response, "hot")) ==> s.hot == Or(Prop(response, "hotLeads"), Num(0)))
      && Defaulted(s.ghlTransfers, Prop(response, "ghlTransfers"), Num(0))
      && Defaulted(s.frozen, Or(Prop(response, "frozen"), Prop(response, "frozenContacts")), Num(0))
      && (!Truthy(Prop(response, "frozen")) ==> s.frozen == Or(Prop(response, "frozenContacts"), Num(0)))
  {
  }
}
