/** What every converter tells its client when the upstream is cut. */
module Interruption {
  const CUT_MESSAGE := "connection lost mid-reply"
}
