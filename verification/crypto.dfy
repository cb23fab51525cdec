/**
 * bcrypt as the routes use it. The primitive itself is not modelled: the
 * hash and the comparison are whatever functions the store is built with.
 */
module Crypto {

  /**
   * `hash(senha, salt)` stands for `bcrypt.hashSync(senha, salt)` with `salt`
   * drawn by `genSaltSync(12)`; `compare(senha, guardado)` stands for
   * `bcrypt.compareSync`.
   */
  datatype Hasher = Hasher(hash: (string, string) -> string, compare: (string, string) -> bool)

  /** What bcrypt promises: a password matches every hash made from it. */
  ghost predicate Matches(h: Hasher, senha: string, salt: string) {
    h.compare(senha, h.hash(senha, salt))
  }
}
