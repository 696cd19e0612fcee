/** The context lookup of providers/InquiriesProvider.tsx. The provider's
    state is the `InquiryList` of InquiryState; a component below the
    provider sees it, any other component gets `undefined`. */
module InquiriesProvider {
  import opened Wrappers
  import opened InquiryState

  const OUTSIDE_PROVIDER := "useInquiriesContext must be used within an InquiriesProvider"

  /** `useInquiriesContext()`: the provider's state, or the error it throws. */
  function UseInquiriesContext(context: Option<InquiryList>): (r: Result<InquiryList, string>)
    ensures r.Failure? <==> context.None?
    ensures r.Failure? ==> r.error == OUTSIDE_PROVIDER
    ensures r.Success? ==> r.value == context.value
  {
    match context
    case None => Failure(OUTSIDE_PROVIDER)
    case Some(state) => Success(state)
  }
}
