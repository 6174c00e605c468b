/** The names the traffic components share. */
module Identities {
  /**
   * A backend URL. Pool entries are built as "protocol://host", so they are never
   * the empty string and every truth test on one only asks whether it is there.
   */
  datatype Server = Server(url: string)

  datatype Ip = Ip(address: string)

  /** The name under which a pool is configured. */
  datatype Name = Name(text: string)

  datatype Session = Session(id: string)
}
