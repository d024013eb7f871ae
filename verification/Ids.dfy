/** The names the runtime's parts share. */
module Ids {
  datatype SessionId = SessionId(text: string)

  /** A session entry, made by FindOrCreateEntry; a new entry never has the identity of an old one. */
  datatype EntryId = EntryId(n: nat)
}
