/**
 * The edge middleware: a fresh nonce per request, taken from a random UUID
 * with its dashes removed, sent back in `x-csp-nonce` and embedded in the
 * `script-src` directive of the Content-Security-Policy header. The UUID is a
 * parameter; the response headers are a map keyed by lower-case names, since
 * header names are case-insensitive and stored lower-cased.
 */
module Middleware {
  import opened Text

  type Headers = map<string, string>

  const NonceHeader := "x-csp-nonce"
  const CspHeader := "content-security-policy"

  /** `uuid.replace(/-/g, '')`. */
  function Nonce(uuid: string): (n: string)
    ensures '-' !in n && |n| <= |uuid|
    ensures forall i :: 0 <= i < |n| ==> n[i] in uuid
  {
    RemoveChar(uuid, '-')
  }

  const DefaultSrc := "default-src 'self'"
  const ScriptSrcHead := "script-src 'self' 'nonce-"
  const StyleSrc := "style-src 'self' 'unsafe-inline'"
  const ImgSrc := "img-src 'self' data:"
  const FontSrc := "font-src 'self' data:"
  const ConnectSrc := "connect-src 'self' https:"

  /** The six directives, in the order they are joined. */
  function Directives(nonce: string): seq<string> {
    [DefaultSrc, ScriptSrcHead + nonce + "'", StyleSrc, ImgSrc, FontSrc, ConnectSrc]
  }

  /** The policy: the directives joined by `"; "`. */
  function Csp(nonce: string): string {
    Join(Directives(nonce), "; ")
  }

  /** What comes before the nonce in every policy. */
  const CspHead := DefaultSrc + "; " + ScriptSrcHead
  /** What comes after it. */
  const CspTail := "'" + "; " + StyleSrc + "; " + ImgSrc + "; " + FontSrc + "; " + ConnectSrc

  /** Joining at least two parts puts the separator after the first. */
  lemma JoinStep(parts: seq<string>, sep: string)
    requires |parts| >= 2
    ensures Join(parts, sep) == parts[0] + sep + Join(parts[1..], sep)
  {
  }

  /** Joining six parts puts the separator between each neighbouring pair. */
  lemma JoinSix(p0: string, p1: string, p2: string, p3: string, p4: string, p5: string, sep: string)
    ensures Join([p0, p1, p2, p3, p4, p5], sep) == p0 + sep + p1 + sep + p2 + sep + p3 + sep + p4 + sep + p5
  {
    var ps := [p0, p1, p2, p3, p4, p5];
    JoinStep(ps, sep);
    JoinStep(ps[1..], sep);
    JoinStep(ps[2..], sep);
    JoinStep(ps[3..], sep);
    JoinStep(ps[4..], sep);
    assert ps[1..][1..] == ps[2..] && ps[2..][1..] == ps[3..] && ps[3..][1..] == ps[4..];
    assert ps[4..][1..] == [p5];
  }

  /** Regrouping the joined directives around the nonce. */
  lemma Regroup(d: string, sh: string, n: string, q: string, s: string, i: string, f: string, c: string, sep: string)
    ensures d + sep + (sh + n + q) + sep + s + sep + i + sep + f + sep + c
         == (d + sep + sh) + n + (q + sep + s + sep + i + sep + f + sep + c)
  {
  }

  /** Every policy is the fixed head, the nonce and the fixed tail. */
  lemma CspShape(nonce: string)
    ensures Csp(nonce) == CspHead + nonce + CspTail
  {
    JoinSix(DefaultSrc, ScriptSrcHead + nonce + "'", StyleSrc, ImgSrc, FontSrc, ConnectSrc, "; ");
    Regroup(DefaultSrc, ScriptSrcHead, nonce, "'", StyleSrc, ImgSrc, FontSrc, ConnectSrc, "; ");
  }

  /** The policy begins with `default-src 'self'`. */
  lemma CspBeginsWithDefault(nonce: string)
    ensures StartsWith(Csp(nonce), "default-src 'self'")
  {
    CspShape(nonce);
    assert (CspHead + nonce + CspTail)[..18] == CspHead[..18];
  }

  /** Reads the nonce back out of a policy: what lies between the head and the tail. */
  function NonceOfCsp(csp: string): string {
    if |CspHead| + |CspTail| <= |csp| then csp[|CspHead|..|csp| - |CspTail|] else ""
  }

  /** The nonce is recovered from the policy, so distinct nonces give distinct policies. */
  lemma CspCarriesNonce(nonce: string)
    ensures NonceOfCsp(Csp(nonce)) == nonce
  {
    CspShape(nonce);
    var csp := CspHead + nonce + CspTail;
    assert csp[|CspHead|..|csp| - |CspTail|] == nonce;
  }

  /** `middleware`: the response of `NextResponse.next()` with the two headers set and nothing else changed. */
  function Respond(uuid: string, headers: Headers): (r: Headers)
    ensures r.Keys == headers.Keys + {NonceHeader, CspHeader}
    ensures r[NonceHeader] == Nonce(uuid)
    ensures StartsWith(r[CspHeader], "default-src 'self'")
    ensures NonceOfCsp(r[CspHeader]) == r[NonceHeader]
    ensures forall k :: k in headers && k !in {NonceHeader, CspHeader} ==> r[k] == headers[k]
  {
    var nonce := Nonce(uuid);
    CspBeginsWithDefault(nonce);
    CspCarriesNonce(nonce);
    headers[NonceHeader := nonce][CspHeader := Csp(nonce)]
  }

  /** Two requests with different nonces get different policies. */
  lemma DistinctNoncesDistinctPolicies(a: string, b: string)
    requires Nonce(a) != Nonce(b)
    ensures Respond(a, map[])[CspHeader] != Respond(b, map[])[CspHeader]
  {
  }

  // ---------------------------------------------------------------------------
  // The canonical UUID
  // ---------------------------------------------------------------------------

  /** The 8-4-4-4-12 form `crypto.randomUUID()` returns: dashes at 8, 13, 18 and 23 and nowhere else. */
  predicate CanonicalUuid(u: string) {
    |u| == 36 && forall i :: 0 <= i < |u| ==> (u[i] == '-' <==> i == 8 || i == 13 || i == 18 || i == 23)
  }

  /** A stretch without dashes is kept whole. */
  lemma KeepsDashFree(s: string)
    requires forall i :: 0 <= i < |s| ==> s[i] != '-'
    ensures Nonce(s) == s
  {
    RemoveCharKeeps(s, '-');
  }

  /** Removing dashes distributes over concatenation. */
  lemma NonceConcat(a: string, b: string)
    ensures Nonce(a + b) == Nonce(a) + Nonce(b)
  {
    RemoveCharConcat(a, b, '-');
  }

  /** Removing dashes from a stretch of `u` splits at any point inside it. */
  lemma NonceSplit(u: string, i: nat, j: nat, k: nat)
    requires i <= j <= k <= |u|
    ensures Nonce(u[i..k]) == Nonce(u[i..j]) + Nonce(u[j..k])
  {
    assert u[i..k] == u[i..j] + u[j..k];
    NonceConcat(u[i..j], u[j..k]);
  }

  /** A group of `u` followed by its dash loses just the dash. */
  lemma GroupThenDash(u: string, i: nat, j: nat)
    requires i < j <= |u| && u[j - 1] == '-'
    requires forall p :: i <= p < j - 1 ==> u[p] != '-'
    ensures Nonce(u[i..j]) == u[i..j - 1]
  {
    NonceSplit(u, i, j - 1, j);
    KeepsDashFree(u[i..j - 1]);
    assert u[j - 1..j] == ['-'];
    assert Nonce(['-']) == [];
  }

  /** The nonce of a 36-character string is the nonce of its five stretches, in order. */
  lemma SplitAtDashes(u: string)
    requires |u| == 36
    ensures Nonce(u) == Nonce(u[0..9]) + (Nonce(u[9..14]) + (Nonce(u[14..19]) + (Nonce(u[19..24]) + Nonce(u[24..36]))))
  {
    NonceSplit(u, 0, 9, 36);
    NonceSplit(u, 9, 14, 36);
    NonceSplit(u, 14, 19, 36);
    NonceSplit(u, 19, 24, 36);
    assert u[0..36] == u;
  }

  /** In a canonical UUID each stretch is a group and its dash, and the last is a bare group. */
  lemma GroupsOf(u: string)
    requires CanonicalUuid(u)
    ensures Nonce(u[0..9]) == u[0..8] && Nonce(u[9..14]) == u[9..13] && Nonce(u[14..19]) == u[14..18]
    ensures Nonce(u[19..24]) == u[19..23] && Nonce(u[24..36]) == u[24..36]
  {
    GroupThenDash(u, 0, 9);
    GroupThenDash(u, 9, 14);
    GroupThenDash(u, 14, 19);
    GroupThenDash(u, 19, 24);
    KeepsDashFree(u[24..36]);
  }

  /** A canonical UUID gives a 32-character nonce: its five groups, concatenated. */
  lemma CanonicalNonce(u: string)
    requires CanonicalUuid(u)
    ensures Nonce(u) == u[..8] + u[9..13] + u[14..18] + u[19..23] + u[24..]
    ensures |Nonce(u)| == 32
  {
    SplitAtDashes(u);
    GroupsOf(u);
    assert u[0..8] == u[..8] && u[24..36] == u[24..];
    AppendFive(u[..8], u[9..13], u[14..18], u[19..23], u[24..]);
  }

  /** Concatenation of five strings does not depend on grouping. */
  lemma AppendFive(a: string, b: string, c: string, d: string, e: string)
    ensures a + (b + (c + (d + e))) == a + b + c + d + e
  {
  }
}
