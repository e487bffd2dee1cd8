/**
 * The authentication principal presented to the remote service
 * (main.go:70-75): the bare username for a local account, `username@domain`
 * for a domain account.
 */
module Principal {

  /** The character between user and domain. */
  const At: char := '@'

  /** The principal for `username` in `domain`; total, with no failure case. */
  function Identity(username: string, domain: string): (principal: string)
    ensures principal == username <==> domain == []
    ensures |username| <= |principal| && principal[..|username|] == username
    ensures domain != [] ==> principal[|username|] == At && principal[|username| + 1..] == domain
  {
    if domain == [] then username else username + [At] + domain
  }

  /**
   * Reads a principal back: the part before the first `@` and the part after it
   * (an empty domain when there is no `@`).
   */
  function SplitPrincipal(principal: string): (parts: (string, string))
    ensures At !in parts.0
    ensures At in principal ==> principal == parts.0 + [At] + parts.1
    ensures At !in principal ==> parts == (principal, [])
  {
    if principal == [] then ([], [])
    else if principal[0] == At then ([], principal[1..])
    else
      var (user, domain) := SplitPrincipal(principal[1..]);
      assert principal == [principal[0]] + principal[1..];
      ([principal[0]] + user, domain)
  }

  /** The first `@` of `user@domain` is the one Identity inserted, when the user has none. */
  lemma {:induction false} SplitQualified(username: string, domain: string)
    requires At !in username
    ensures SplitPrincipal(username + [At] + domain) == (username, domain)
  {
    var p := username + [At] + domain;
    if username == [] {
      assert p[0] == At && p[1..] == domain;
    } else {
      SplitQualified(username[1..], domain);
      assert p[0] == username[0];
      assert p[1..] == username[1..] + [At] + domain;
      assert [username[0]] + username[1..] == username;
    }
  }

  /**
   * Identity loses nothing when the username holds no `@`: both the user and the
   * domain (empty for a local account) can be read back from the principal.
   */
  lemma IdentityRoundTrip(username: string, domain: string)
    requires At !in username
    ensures SplitPrincipal(Identity(username, domain)) == (username, domain)
  {
    if domain != [] {
      SplitQualified(username, domain);
    }
  }

  /**
   * Why the round trip needs an `@`-free username: a local name that already
   * holds an `@` is indistinguishable from a domain-qualified one.
   */
  lemma IdentityAmbiguous()
    ensures Identity("u@d", "") == Identity("u", "d")
  {
  }
}
