/**
 * The ZooKeeper path under which a candidate takes part in the election:
 * LeaderInitiator.buildLeaderPath together with the two library predicates
 * it relies on, StringUtils.hasText and Character.isWhitespace.
 */
module LeaderPath {
  import opened Nullable

  /** LeaderInitiator.DEFAULT_NAMESPACE. */
  const DefaultNamespace: string := "/spring-integration/leader/"

  /**
   * java.lang.Character.isWhitespace on one character, with the Unicode 6.2
   * tables of Java 8: the Unicode space, line and paragraph separators
   * (U+180E MONGOLIAN VOWEL SEPARATOR is still a space separator there)
   * except the non-breaking ones (U+00A0, U+2007, U+202F), plus
   * U+0009..U+000D and U+001C..U+001F.
   */
  predicate IsWhitespace(c: char) {
    ('\U{9}' <= c <= '\U{D}') || ('\U{1C}' <= c <= ' ') || c == '\U{1680}' || c == '\U{180E}'
    || ('\U{2000}' <= c <= '\U{2006}') || ('\U{2008}' <= c <= '\U{200A}')
    || c == '\U{2028}' || c == '\U{2029}' || c == '\U{205F}' || c == '\U{3000}'
  }

  /** StringUtils.hasText on a non-null string: scans for a character that is not whitespace. */
  predicate HasText(s: string) {
    |s| > 0 && (!IsWhitespace(s[0]) || HasText(s[1..]))
  }

  /** HasText holds exactly when some character of the string is not whitespace. */
  lemma {:induction false} HasTextMeans(s: string)
    ensures HasText(s) <==> exists i :: 0 <= i < |s| && !IsWhitespace(s[i])
  {
    if |s| > 0 {
      HasTextMeans(s[1..]);
      assert forall i :: 1 <= i < |s| ==> s[i] == s[1..][i - 1];
      if exists i :: 0 <= i < |s| && !IsWhitespace(s[i]) {
        var i :| 0 <= i < |s| && !IsWhitespace(s[i]);
        if i > 0 {
          assert !IsWhitespace(s[1..][i - 1]);
        }
      }
    }
  }

  /** StringUtils.hasText on a reference that may be null (null has no text). */
  predicate HasTextOrNull(ns: Option<string>) {
    ns.Some? && HasText(ns.value)
  }

  predicate StartsWithSlash(s: string) {
    |s| > 0 && s[0] == '/'
  }

  predicate EndsWithSlash(s: string) {
    |s| > 0 && s[|s| - 1] == '/'
  }

  /**
   * The prefix buildLeaderPath puts in front of the role: the configured
   * namespace, or the default one when it is null or blank, with a '/'
   * added at the front and at the end where one is missing. Nothing is
   * trimmed: every character of a namespace with text is kept, in order.
   */
  function NormalizeNamespace(ns: Option<string>): (r: string)
    ensures StartsWithSlash(r) && EndsWithSlash(r)
    ensures !HasTextOrNull(ns) ==> r == DefaultNamespace
    ensures HasTextOrNull(ns) ==>
      |r| == |ns.value| + (if StartsWithSlash(ns.value) then 0 else 1) + (if EndsWithSlash(ns.value) then 0 else 1)
      && r in {ns.value, "/" + ns.value, ns.value + "/", "/" + ns.value + "/"}
  {
    var base := if HasTextOrNull(ns) then ns.value else DefaultNamespace;
    var lead := if StartsWithSlash(base) then base else "/" + base;
    if EndsWithSlash(lead) then lead else lead + "/"
  }

  /**
   * buildLeaderPath: the normalised namespace followed by the role. The
   * path is absolute, ends with the role, and the role sits right after a
   * '/'; a null or blank namespace yields the default namespace.
   */
  function BuildLeaderPath(ns: Option<string>, role: string): (p: string)
    ensures StartsWithSlash(p)
    ensures |p| > |role| && p[|p| - |role|..] == role && p[|p| - |role| - 1] == '/'
    ensures !HasTextOrNull(ns) ==> p == DefaultNamespace + role
    ensures HasTextOrNull(ns) ==>
      |p| == |ns.value| + (if StartsWithSlash(ns.value) then 0 else 1) + (if EndsWithSlash(ns.value) then 0 else 1) + |role|
      && p[..|p| - |role|] in {ns.value, "/" + ns.value, ns.value + "/", "/" + ns.value + "/"}
  {
    NormalizeNamespace(ns) + role
  }

  /** A '/' at either end of a namespace is text, so such a namespace is never blank. */
  lemma SlashIsText(s: string)
    requires StartsWithSlash(s) || EndsWithSlash(s)
    ensures HasText(s)
  {
  }

  /** A namespace that already starts and ends with '/' is used unchanged as the prefix. */
  lemma SlashedNamespaceUnchanged(s: string, role: string)
    requires StartsWithSlash(s) && EndsWithSlash(s)
    ensures NormalizeNamespace(Some(s)) == s
    ensures BuildLeaderPath(Some(s), role) == s + role
  {
  }

  /**
   * The four spellings "ns", "/ns", "ns/" and "/ns/" of one namespace all
   * name the same election path "/ns/" + role.
   */
  lemma SeparatorVariantsAgree(s: string, role: string)
    requires HasText(s) && !StartsWithSlash(s) && !EndsWithSlash(s)
    ensures BuildLeaderPath(Some(s), role) == "/" + s + "/" + role
    ensures BuildLeaderPath(Some("/" + s), role) == "/" + s + "/" + role
    ensures BuildLeaderPath(Some(s + "/"), role) == "/" + s + "/" + role
    ensures BuildLeaderPath(Some("/" + s + "/"), role) == "/" + s + "/" + role
  {
    var lead, trail := "/" + s, s + "/";
    assert StartsWithSlash(lead) && !EndsWithSlash(lead) by { assert lead[|s|] == s[|s| - 1]; }
    assert EndsWithSlash(trail) && !StartsWithSlash(trail) by { assert trail[0] == s[0]; }
    SlashIsText(lead);
    SlashIsText(trail);
    assert NormalizeNamespace(Some(s)) == "/" + s + "/";
    assert NormalizeNamespace(Some(lead)) == "/" + s + "/";
    assert NormalizeNamespace(Some(trail)) == "/" + s + "/";
    SlashedNamespaceUnchanged("/" + s + "/", role);
  }

  /** Normalising an already normalised namespace changes nothing. */
  lemma NormalizeIdempotent(ns: Option<string>)
    ensures NormalizeNamespace(Some(NormalizeNamespace(ns))) == NormalizeNamespace(ns)
  {
  }

  /** A null, empty or whitespace-only namespace gives the default path. */
  lemma BlankNamespaceExamples()
    ensures BuildLeaderPath(None, "worker") == DefaultNamespace + "worker"
    ensures BuildLeaderPath(Some(""), "worker") == DefaultNamespace + "worker"
    ensures BuildLeaderPath(Some(" \t"), "worker") == DefaultNamespace + "worker"
  {
  }

  /** "ns" and "/ns/" both give "/ns/worker". */
  lemma SpelledNamespaceExamples()
    ensures BuildLeaderPath(Some("ns"), "worker") == "/ns/worker"
    ensures BuildLeaderPath(Some("/ns/"), "worker") == "/ns/worker"
  {
  }
}
