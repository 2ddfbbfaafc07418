/** The fields of goth.User that the sign-in flow reads once the OAuth handshake is complete. */
module Goth {

  datatype GothUser = GothUser(
    userID: string,     // the identifier the provider assigns to the account
    email: string,
    firstName: string,
    lastName: string,
    provider: string    // the provider's name, e.g. "github"
  )
}
