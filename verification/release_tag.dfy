/** The version part of the tool-cache key (src/installer.ts:38): the
    release tag with the regular expression `^v` replaced by nothing. */
module ReleaseTag {

  /** The tag begins with the letter `v`, the one thing `^v` matches. */
  predicate HasVPrefix(tag: string) {
    |tag| > 0 && tag[0] == 'v'
  }

  /** `tag.replace(/^v/, '')`: without the `g` flag the anchored pattern
      matches at most once, so at most one leading `v` goes. */
  function NormalizeTag(tag: string): (r: string)
    ensures tag == (if HasVPrefix(tag) then "v" else "") + r
  {
    if HasVPrefix(tag) then tag[1..] else tag
  }

  /** Exactly one `v` is removed, whatever follows it: `"vv1"` becomes
      `"v1"`, and normalising is not idempotent. */
  lemma StripsOneV(rest: string)
    ensures NormalizeTag("v" + rest) == rest
  {
  }

  /** Worked cases from the tag formats releases use. */
  lemma NormalizeExamples()
    ensures NormalizeTag("v1.5.0") == "1.5.0"
    ensures NormalizeTag("2.0.0") == "2.0.0"
    ensures NormalizeTag("vv1") == "v1"
    ensures NormalizeTag(NormalizeTag("vv1")) == "1"
    ensures NormalizeTag("") == ""
  {
  }

  /** Two tags share a cache key exactly when they are equal or one is the
      other with a single `v` put in front of a text that does not already
      start with `v` (so `v1.2.3` and `1.2.3` land in the same cache slot). */
  lemma SameCacheKey(tag1: string, tag2: string)
    ensures NormalizeTag(tag1) == NormalizeTag(tag2) <==>
      || tag1 == tag2
      || (tag1 == "v" + tag2 && !HasVPrefix(tag2))
      || (tag2 == "v" + tag1 && !HasVPrefix(tag1))
  {
  }
}
