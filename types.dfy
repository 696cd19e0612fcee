/** The records of the application (the Prisma tables and the shared
    TypeScript interfaces) and its fixed constants. Times are integer
    milliseconds since the Unix epoch; a calendar date, the 'YYYY-MM-DD'
    string the code uses as a key, is the number of whole UTC days since the
    epoch (ISO date strings compare in the same order as these numbers). */
module Types {
  import opened Wrappers

  type Ms = int
  type Day = int

  const MS_PER_MINUTE: int := 60_000
  const MS_PER_HOUR: int := 3_600_000
  const MS_PER_DAY: int := 86_400_000

  datatype Property = Property(
    id: string,
    agentId: string,
    title: string,
    price: int,
    address: string,
    bedrooms: int,
    bathrooms: int,
    description: string,
    status: string,
    imageUrl: Option<string>,
    dateListed: Day,
    sqft: Option<int>,
    propertyType: Option<string>,
    createdAt: Ms,
    updatedAt: Ms)

  datatype Inquiry = Inquiry(
    id: string,
    propertyId: string,
    name: string,
    email: string,
    phone: Option<string>,
    message: string,
    isRead: bool,
    dateSubmitted: Ms,
    createdAt: Ms)

  datatype Agent = Agent(id: string, name: string, email: string)

  /** One row of the page-view log. */
  datatype ListingView = ListingView(
    propertyId: string,
    sessionId: string,
    userAgent: string,
    ipAddress: string,
    referrer: string,
    viewedAt: Ms)

  /** One row of the per-property daily roll-up, unique on (propertyId, date). */
  datatype PropertyAnalyticsRow = PropertyAnalyticsRow(
    propertyId: string,
    date: Day,
    views: nat,
    uniqueVisitors: nat,
    inquiries: nat)

  /** One row of the global daily roll-up, unique on date. */
  datatype AnalyticsSummaryRow = AnalyticsSummaryRow(
    date: Day,
    totalViews: nat,
    uniqueVisitors: nat,
    totalInquiries: nat)

  /** The kinds of dashboard activity (the `type` union of an activity item). */
  datatype ActivityType = ListingActivity | InquiryActivity | PriceUpdate | StatusChange

  function TypeName(t: ActivityType): string
  {
    match t
    case ListingActivity => "listing"
    case InquiryActivity => "inquiry"
    case PriceUpdate => "price_update"
    case StatusChange => "status_change"
  }

  /** An HTTP reply: a status with a body, or a status with `{ error }`. */
  datatype Reply<+T> = Ok(status: int, value: T) | Error(status: int, error: string)

  const MOCK_AGENT_ID: string := "agent123"
  const MockAgent: Agent := Agent(MOCK_AGENT_ID, "John Doe (Agent)", "john.doe@properview.com")

  /** JavaScript truthiness of a string field of a request body that may be
      missing or null (`None`): only a non-empty string is truthy. */
  predicate Present(field: Option<string>)
  {
    field.Some? && field.value != ""
  }

  /** The primary key of the property table. */
  function PropertyId(p: Property): string { p.id }
}
