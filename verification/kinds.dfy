/** The three kinds of business document the studio produces and lists. */
module Kinds {

  datatype DocumentType = Proposal | Email | Estimate
}
