/** Who may approve, and what counts as text: shared by the decision and submission workspaces. */
module Validation {

  predicate MayApprove(role: string) {
    role == "OWNER" || role == "ADMIN" || role == "ANALYST"
  }

  // Some character is not white space.
  ghost predicate SaysSomething(text: string) {
    exists i | 0 <= i < |text| :: text[i] !in " \t\n\r\U{000B}\U{000C}"
  }

  lemma SaysSomethingIffNotBlank(text: string)
    ensures SaysSomething(text) <==> !Blank(text)
  {
  }

  // No character survives stripping white space.
  predicate Blank(text: string) {
    forall i | 0 <= i < |text| :: text[i] in " \t\n\r\U{000B}\U{000C}"
  }
}
