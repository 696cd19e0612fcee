/** GET and POST /api/properties (app/api/properties/route.ts): the active
    listings newest first, and creating a listing after checking its
    required fields. */
module PropertiesRoute {
  import opened Wrappers
  import opened Seqs
  import opened Keyed
  import opened Strings
  import opened Types
  import opened Store

  /** The JSON body. `None` is a missing or null field; numbers are taken to
      arrive as JSON numbers. */
  datatype PropertyBody = PropertyBody(
    title: Option<string>,
    price: Option<int>,
    address: Option<string>,
    bedrooms: Option<int>,
    bathrooms: Option<int>,
    description: Option<string>,
    status: Option<string>,
    sqft: Option<int>,
    propertyType: Option<string>)

  /** JavaScript truthiness of a number field: present and not 0. */
  predicate PresentNumber(field: Option<int>)
  {
    field.Some? && field.value != 0
  }

  /** The required fields. */
  datatype Field = Title | Price | Address | Bedrooms | Bathrooms | Description | Status

  function FieldName(f: Field): string
  {
    match f
    case Title => "title"
    case Price => "price"
    case Address => "address"
    case Bedrooms => "bedrooms"
    case Bathrooms => "bathrooms"
    case Description => "description"
    case Status => "status"
  }

  /** The required fields in the order they are checked. */
  const REQUIRED_FIELDS: seq<Field> := [Title, Price, Address, Bedrooms, Bathrooms, Description, Status]

  /** Whether the check for field `f` fails: strings and the price must be
      truthy, the two room counts only have to be there. */
  predicate IsMissing(b: PropertyBody, f: Field)
  {
    match f
    case Title => !Present(b.title)
    case Price => !PresentNumber(b.price)
    case Address => !Present(b.address)
    case Bedrooms => b.bedrooms.None?
    case Bathrooms => b.bathrooms.None?
    case Description => !Present(b.description)
    case Status => !Present(b.status)
  }

  function MissingTest(b: PropertyBody): Field -> bool
  {
    (f: Field) => IsMissing(b, f)
  }

  /** The fields the handler reports, in check order. */
  function Missing(b: PropertyBody): seq<Field>
  {
    Filter(MissingTest(b), REQUIRED_FIELDS)
  }

  function Names(fs: seq<Field>): (r: seq<string>)
    ensures |r| == |fs|
    ensures forall i :: 0 <= i < |fs| ==> r[i] == FieldName(fs[i])
  {
    if fs == [] then [] else [FieldName(fs[0])] + Names(fs[1..])
  }

  /** The successive `if (...) missingFields.push(...)` checks; `checked`
      is the list of fields checked so far. */
  method MissingFields(b: PropertyBody) returns (missingFields: seq<Field>)
    ensures missingFields == Missing(b)
  {
    missingFields := [];
    missingFields := Check(missingFields, !Present(b.title), b, [], Title);
    missingFields := Check(missingFields, !PresentNumber(b.price), b, [] + [Title], Price);
    missingFields := Check(missingFields, !Present(b.address), b, [] + [Title] + [Price], Address);
    missingFields := Check(missingFields, b.bedrooms == None, b, [] + [Title] + [Price] + [Address], Bedrooms);
    missingFields := Check(missingFields, b.bathrooms == None, b, [] + [Title] + [Price] + [Address] + [Bedrooms], Bathrooms);
    missingFields := Check(missingFields, !Present(b.description), b, [] + [Title] + [Price] + [Address] + [Bedrooms] + [Bathrooms], Description);
    missingFields := Check(missingFields, !Present(b.status), b, [] + [Title] + [Price] + [Address] + [Bedrooms] + [Bathrooms] + [Description], Status);
    assert [] + [Title] + [Price] + [Address] + [Bedrooms] + [Bathrooms] + [Description] + [Status] == REQUIRED_FIELDS;
  }

  /** One check: push `f` when its test fails. */
  method Check(missingFields: seq<Field>, missing: bool, ghost b: PropertyBody, ghost checked: seq<Field>, f: Field)
    returns (r: seq<Field>)
    requires missing == IsMissing(b, f)
    requires missingFields == Filter(MissingTest(b), checked)
    ensures r == Filter(MissingTest(b), checked + [f])
  {
    r := missingFields;
    if missing {
      r := r + [f];
    }
    FilterAppend(MissingTest(b), checked, f);
  }

  /** The checks one field at a time. */
  lemma MissingSteps(b: PropertyBody)
    ensures Filter(MissingTest(b), [] + [Title]) == Filter(MissingTest(b), []) + (if IsMissing(b, Title) then [Title] else [])
    ensures Filter(MissingTest(b), [] + [Title] + [Price]) == Filter(MissingTest(b), [] + [Title]) + (if IsMissing(b, Price) then [Price] else [])
    ensures Filter(MissingTest(b), [] + [Title] + [Price] + [Address]) == Filter(MissingTest(b), [] + [Title] + [Price]) + (if IsMissing(b, Address) then [Address] else [])
    ensures Filter(MissingTest(b), [] + [Title] + [Price] + [Address] + [Bedrooms]) == Filter(MissingTest(b), [] + [Title] + [Price] + [Address]) + (if IsMissing(b, Bedrooms) then [Bedrooms] else [])
    ensures Filter(MissingTest(b), [] + [Title] + [Price] + [Address] + [Bedrooms] + [Bathrooms]) == Filter(MissingTest(b), [] + [Title] + [Price] + [Address] + [Bedrooms]) + (if IsMissing(b, Bathrooms) then [Bathrooms] else [])
    ensures Filter(MissingTest(b), [] + [Title] + [Price] + [Address] + [Bedrooms] + [Bathrooms] + [Description]) == Filter(MissingTest(b), [] + [Title] + [Price] + [Address] + [Bedrooms] + [Bathrooms]) + (if IsMissing(b, Description) then [Description] else [])
    ensures Filter(MissingTest(b), [] + [Title] + [Price] + [Address] + [Bedrooms] + [Bathrooms] + [Description] + [Status]) == Filter(MissingTest(b), [] + [Title] + [Price] + [Address] + [Bedrooms] + [Bathrooms] + [Description]) + (if IsMissing(b, Status) then [Status] else [])
    ensures Missing(b) == Filter(MissingTest(b), [] + [Title] + [Price] + [Address] + [Bedrooms] + [Bathrooms] + [Description] + [Status])
  {
    FilterAppend(MissingTest(b), [], Title);
    FilterAppend(MissingTest(b), [] + [Title], Price);
    FilterAppend(MissingTest(b), [] + [Title] + [Price], Address);
    FilterAppend(MissingTest(b), [] + [Title] + [Price] + [Address], Bedrooms);
    FilterAppend(MissingTest(b), [] + [Title] + [Price] + [Address] + [Bedrooms], Bathrooms);
    FilterAppend(MissingTest(b), [] + [Title] + [Price] + [Address] + [Bedrooms] + [Bathrooms], Description);
    FilterAppend(MissingTest(b), [] + [Title] + [Price] + [Address] + [Bedrooms] + [Bathrooms] + [Description], Status);
    assert [] + [Title] + [Price] + [Address] + [Bedrooms] + [Bathrooms] + [Description] + [Status] == REQUIRED_FIELDS;
  }

  /** The reported fields keep the check order. */
  lemma MissingIsOrdered(b: PropertyBody)
    ensures IsSubsequence(Missing(b), REQUIRED_FIELDS)
  {
    FilterIsSubsequence(MissingTest(b), REQUIRED_FIELDS);
  }

  /** A field is reported exactly when its check fails. */
  lemma MissingMember(b: PropertyBody, f: Field)
    ensures f in Missing(b) <==> IsMissing(b, f)
  {
    FilterMultiset(MissingTest(b), REQUIRED_FIELDS, f);
    AllFieldsRequired(f);
  }

  /** Nothing is reported missing exactly when every check passes. */
  lemma NoneMissing(b: PropertyBody)
    ensures Missing(b) == [] <==>
              Present(b.title) && PresentNumber(b.price) && Present(b.address) && b.bedrooms.Some? &&
              b.bathrooms.Some? && Present(b.description) && Present(b.status)
  {
    if Missing(b) != [] {
      MissingMember(b, Missing(b)[0]);
    }
    if IsMissing(b, Title) { MissingMember(b, Title); }
    else if IsMissing(b, Price) { MissingMember(b, Price); }
    else if IsMissing(b, Address) { MissingMember(b, Address); }
    else if IsMissing(b, Bedrooms) { MissingMember(b, Bedrooms); }
    else if IsMissing(b, Bathrooms) { MissingMember(b, Bathrooms); }
    else if IsMissing(b, Description) { MissingMember(b, Description); }
    else if IsMissing(b, Status) { MissingMember(b, Status); }
  }

  lemma AllFieldsRequired(f: Field)
    ensures f in REQUIRED_FIELDS
  {
    match f
    case Title => assert REQUIRED_FIELDS[0] == f;
    case Price => assert REQUIRED_FIELDS[1] == f;
    case Address => assert REQUIRED_FIELDS[2] == f;
    case Bedrooms => assert REQUIRED_FIELDS[3] == f;
    case Bathrooms => assert REQUIRED_FIELDS[4] == f;
    case Description => assert REQUIRED_FIELDS[5] == f;
    case Status => assert REQUIRED_FIELDS[6] == f;
  }

  /** A price of 0 is missing, zero bedrooms or bathrooms are not. */
  lemma ZeroPriceIsMissing(b: PropertyBody)
    requires b.price == Some(0) && b.bedrooms == Some(0) && b.bathrooms == Some(0)
    requires Present(b.title) && Present(b.address) && Present(b.description) && Present(b.status)
    ensures Missing(b) == [Price]
  {
    MissingSteps(b);
    assert Filter(MissingTest(b), []) == [];
  }

  /** A body whose only fault is a zero price gets the message naming
      just the price. */
  lemma ZeroPriceMessage(b: PropertyBody)
    requires b.price == Some(0) && b.bedrooms == Some(0) && b.bathrooms == Some(0)
    requires Present(b.title) && Present(b.address) && Present(b.description) && Present(b.status)
    ensures "Missing required fields: " + Join(Names(Missing(b)), ", ") == "Missing required fields: price"
  {
    ZeroPriceIsMissing(b);
  }

  /** The row `property.create` writes: the mock agent, `sqft` and
      `propertyType` null when falsy, no image, listed on the UTC date of the
      clock reading and stamped with it. */
  function NewProperty(b: PropertyBody, id: string, now: Ms): (p: Property)
    requires Missing(b) == []
    ensures p.id == id && p.agentId == MOCK_AGENT_ID
    ensures p.title == b.title.value && p.price == b.price.value && p.address == b.address.value
    ensures p.bedrooms == b.bedrooms.value && p.bathrooms == b.bathrooms.value
    ensures p.description == b.description.value && p.status == b.status.value
    ensures p.sqft.None? <==> !PresentNumber(b.sqft)
    ensures p.sqft.Some? ==> p.sqft == b.sqft
    ensures p.propertyType.None? <==> !Present(b.propertyType)
    ensures p.propertyType.Some? ==> p.propertyType == b.propertyType
    ensures p.imageUrl.None? && p.dateListed == DayOf(now) && p.createdAt == now && p.updatedAt == now
  {
    NoneMissing(b);
    Property(id, MOCK_AGENT_ID, b.title.value, b.price.value, b.address.value, b.bedrooms.value,
             b.bathrooms.value, b.description.value, b.status.value, None, DayOf(now),
             if PresentNumber(b.sqft) then b.sqft else None,
             if Present(b.propertyType) then b.propertyType else None,
             now, now)
  }

  predicate IsActive(p: Property) { p.status == "active" }

  function CreatedAt(p: Property): int { p.createdAt }

  /** GET: the active listings, newest first. */
  method Get(db: Db) returns (r: seq<Property>)
    ensures SortedDesc(CreatedAt, r)
    ensures multiset(r) == multiset(Filter(IsActive, db.properties))
    ensures forall i :: 0 <= i < |r| ==> IsActive(r[i]) && r[i] in db.properties
  {
    r := SortDesc(CreatedAt, Filter(IsActive, db.properties));
    forall i | 0 <= i < |r| ensures IsActive(r[i]) && r[i] in db.properties {
      assert r[i] in multiset(Filter(IsActive, db.properties));
    }
  }

  /** POST; `newId` is the id the store draws, `now` the request's clock
      reading. A clash on the primary key fails the create. */
  method Post(db: Db, body: PropertyBody, newId: string, now: Ms) returns (reply: Reply<Property>)
    requires db.Valid()
    modifies db
    ensures db.Valid()
    ensures Missing(body) != [] ==>
              reply == Error(400, "Missing required fields: " + Join(Names(Missing(body)), ", ")) &&
              db.State() == old(db.State())
    ensures Missing(body) == [] && Find(PropertyId, old(db.properties), newId).Some? ==>
              reply == Error(500, "Failed to create property") && db.State() == old(db.State())
    ensures Missing(body) == [] && Find(PropertyId, old(db.properties), newId).None? ==>
              reply == Ok(201, NewProperty(body, newId, now)) &&
              db.State() == old(db.State()).(properties := old(db.properties) + [NewProperty(body, newId, now)])
  {
    var missingFields := MissingFields(body);
    if |missingFields| > 0 {
      return Error(400, "Missing required fields: " + Join(Names(missingFields), ", "));
    }
    if Find(PropertyId, db.properties, newId).Some? {
      return Error(500, "Failed to create property");
    }
    var property := NewProperty(body, newId, now);
    ghost var before := db.State();
    db.properties := db.properties + [property];
    assert db.State() == before.(properties := before.properties + [property]);
    return Ok(201, property);
  }

  /** Creating keeps the property ids unique. */
  lemma CreateKeepsIdsUnique(ps: seq<Property>, p: Property)
    requires KeysUnique(PropertyId, ps) && Find(PropertyId, ps, p.id).None?
    ensures KeysUnique(PropertyId, ps + [p])
  {
    var t := ps + [p];
    forall i, j | 0 <= i < j < |t| ensures PropertyId(t[i]) != PropertyId(t[j]) {
      if j == |ps| {
        assert t[i] == ps[i];
      } else {
        assert t[i] == ps[i] && t[j] == ps[j];
      }
    }
  }
}
