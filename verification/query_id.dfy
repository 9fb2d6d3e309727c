/**
 * `GetQueryUUID` of services/utils.go: the identifier of a (restaurant, user)
 * pair under which reservations and reviews are cached and stored. The
 * name-based SHA-1 UUID of the UUID library is not part of this model; the
 * parameter `sha` stands for it (name bytes to UUID text). Its error result
 * cannot occur (the digest is always 16 bytes) and every caller drops it.
 */
module QueryId {

  function GetQueryUuid(sha: string -> string, restaurantName: string, userName: string): string
  {
    sha(restaurantName + userName)
  }

  /** The identifier depends on the two names only through their concatenation. */
  lemma SameConcatenationSameId(sha: string -> string, r1: string, u1: string, r2: string, u2: string)
    requires r1 + u1 == r2 + u2
    ensures GetQueryUuid(sha, r1, u1) == GetQueryUuid(sha, r2, u2)
  {
  }

  /** Hence different pairs can share an identifier: ("ab", "c") and ("a", "bc"). */
  lemma SplitPairsCollide(sha: string -> string)
    ensures GetQueryUuid(sha, "ab", "c") == GetQueryUuid(sha, "a", "bc")
  {
    assert "ab" + "c" == "a" + "bc";
  }
}
