/** The e-mail cleaner `limpiarCorreoVtex`: the commerce platform appends a
    tenant suffix after a '-' to the domain of the e-mails it hands out
    ("ana@mail.com-cl"); the cleaner strips it. */
module VtexEmail {
  import opened Wrappers
  import opened JsText

  /** `limpiarCorreoVtex(correoCompleto)`. `None` is a value that is not a
      string (null, undefined, a number ...), which comes back as it was. */
  function CleanEmail(email: Option<string>): (r: Option<string>)
    ensures email.None? ==> r.None?
    ensures email.Some? && '@' !in email.value ==> r == email
    ensures email.Some? ==> r.Some?
  {
    match email
    case None => email
    case Some(s) =>
      if '@' !in s then email
      else
        // const [nombreUsuario, dominioCompleto] = s.split('@'): every piece
        // after the second one is dropped.
        var parts := Split(s, '@');
        var user := parts[0];
        var domain := parts[1];
        Some(user + "@" + Split(domain, '-')[0])
  }

  /** Where the cleaned address ends: a position after the first '@' of `s`,
      with neither '@' nor '-' between that '@' and it, and either the end of
      `s` or an '@' or '-' at it. */
  predicate IsStop(c: char) { c == '@' || c == '-' }

  ghost predicate CutsAtStop(s: string, m: nat)
    requires '@' in s
  {
    var i := IndexOf(s, '@');
    && i < m <= |s|
    && (forall k :: i < k < m ==> !IsStop(s[k]))
    && (m == |s| || IsStop(s[m]))
  }

  /** The domain kept by the cleaner, read off what follows the first '@'. */
  function KeptDomain(t: string): string {
    Split(Split(t, '@')[0], '-')[0]
  }

  /** The kept domain is the longest prefix of `t` free of '@' and '-'. */
  lemma KeptDomainSpec(t: string)
    ensures var e := KeptDomain(t);
      && e == t[..|e|]
      && (forall k :: 0 <= k < |e| ==> !IsStop(e[k]))
      && (|e| == |t| || IsStop(t[|e|]))
  {
  }

  /** Without the tenant suffix: the user part, '@', the kept domain. */
  lemma CleanEmailParts(s: string)
    requires '@' in s
    ensures var i := IndexOf(s, '@');
      CleanEmail(Some(s)) == Some(s[..i] + "@" + KeptDomain(s[i + 1..]))
  {
  }

  /** Gluing the user part, the '@' and a prefix of what follows it gives
      back a prefix of the address. */
  lemma Splice(s: string, i: nat, e: string)
    requires i < |s| && s[i] == '@'
    requires |e| <= |s| - i - 1 && e == s[i + 1..][..|e|]
    ensures s[..i] + "@" + e == s[..i + 1 + |e|]
  {
  }

  /** The cleaner truncates the address just before the first '-' or '@'
      that follows its first '@' (or keeps it whole when there is none):
      the user part, the '@', and the domain up to its tenant suffix. */
  lemma CleanEmailTruncates(s: string)
    requires '@' in s
    ensures var r := CleanEmail(Some(s)).value;
      |r| <= |s| && r == s[..|r|] && CutsAtStop(s, |r|)
  {
    var i := IndexOf(s, '@');
    var t := s[i + 1..];
    CleanEmailParts(s);
    var e := KeptDomain(t);
    KeptDomainSpec(t);
    Splice(s, i, e);
    var m := i + 1 + |e|;
    assert forall k :: i < k < m ==> s[k] == e[k - i - 1];
    assert m < |s| ==> s[m] == t[|e|];
  }

  /** The cleaned address has one '@' and no '-' after it: it is a user
      part without '@', the '@', and a domain with neither '@' nor '-'. */
  lemma CleanEmailShape(s: string)
    requires '@' in s
    ensures var r := CleanEmail(Some(s)).value;
      exists user, domain ::
        r == user + "@" + domain && user == s[..IndexOf(s, '@')] &&
        '@' !in user && '@' !in domain && '-' !in domain
  {
    CleanEmailTruncates(s);
    var r := CleanEmail(Some(s)).value;
    var i := IndexOf(s, '@');
    var user, domain := s[..i], r[i + 1..];
    assert r == user + "@" + domain by {
      assert r[..i] == s[..i];
      assert r == r[..i] + [r[i]] + r[i + 1..];
    }
    assert forall k :: 0 <= k < |domain| ==> domain[k] == s[i + 1 + k];
  }

  /** Cleaning an already cleaned address changes nothing. */
  lemma CleanEmailIdempotent(email: Option<string>)
    ensures CleanEmail(CleanEmail(email)) == CleanEmail(email)
  {
    if email.Some? && '@' in email.value {
      var s := email.value;
      CleanEmailShape(s);
      var r := CleanEmail(email).value;
      var user, domain :| r == user + "@" + domain && user == s[..IndexOf(s, '@')] &&
        '@' !in user && '@' !in domain && '-' !in domain;
      assert r[|user|] == '@' && r[..|user|] == user;
      assert '@' in r;
      IndexOfUnique(r, '@', |user|);
      assert r[|user| + 1..] == domain;
      SplitWithout(domain, '@');
      assert Split(r, '@') == [user, domain];
      SplitWithout(domain, '-');
    }
  }

  /** The cut position is unique, so finding one pins the cleaned address
      down. */
  lemma CleanEmailAt(s: string, m: nat)
    requires '@' in s && CutsAtStop(s, m)
    ensures CleanEmail(Some(s)) == Some(s[..m])
  {
    CleanEmailTruncates(s);
  }
}
