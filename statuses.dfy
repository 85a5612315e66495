/** The compliance statuses the app's records and company data carry. */
module Statuses {
  const Compliant := "Compliant"
  const UnderReview := "Under Review"
  const NonCompliant := "Non-Compliant"
}
