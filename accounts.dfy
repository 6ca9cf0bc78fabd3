/** The part of a horde user record that the text endpoints read or change. */
module Accounts {

  class User {
    const id: string
    var kudos: int
    var trusted: bool

    constructor (id: string, kudos: int, trusted: bool)
      ensures this.id == id && this.kudos == kudos && this.trusted == trusted
    {
      this.id := id;
      this.kudos := kudos;
      this.trusted := trusted;
    }
  }
}
