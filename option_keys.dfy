/**
 * The reserved key family `options.<name>.{description,default,type}` and the
 * description-key pattern `^options\.([a-zA-Z\-_0-9]+)\.description$`.
 */
module OptionKeys {
  import opened Wrappers

  const OptionsPrefix: string := "options."
  const DescriptionSuffix: string := ".description"
  const DefaultSuffix: string := ".default"
  const TypeSuffix: string := ".type"

  /** The character class `[a-zA-Z\-_0-9]` of the pattern. */
  predicate IsNameChar(c: char) {
    ('a' <= c <= 'z') || ('A' <= c <= 'Z') || ('0' <= c <= '9') || c == '-' || c == '_'
  }

  /** What the capturing group `([a-zA-Z\-_0-9]+)` accepts. */
  predicate IsOptionName(n: string) {
    |n| > 0 && forall i :: 0 <= i < |n| ==> IsNameChar(n[i])
  }

  function DescriptionKey(n: string): string { OptionsPrefix + n + DescriptionSuffix }

  /** The sibling key `String.format("options.%s.default", n)`. */
  function DefaultKey(n: string): string { OptionsPrefix + n + DefaultSuffix }

  /** The sibling key `String.format("options.%s.type", n)`. */
  function TypeKey(n: string): string { OptionsPrefix + n + TypeSuffix }

  /**
   * `DESCRIPTION_KEY_PATTERN.matcher(key).matches()` followed by `group(1)`:
   * the captured option name when the whole key matches, `None` otherwise.
   */
  function MatchDescriptionKey(key: string): (r: Option<string>)
    ensures r.Some? ==> IsOptionName(r.value) && key == DescriptionKey(r.value)
  {
    var lo, hi := |OptionsPrefix|, |key| - |DescriptionSuffix|;
    if lo < hi && key[..lo] == OptionsPrefix && key[hi..] == DescriptionSuffix && IsOptionName(key[lo..hi])
    then
      assert key == key[..lo] + key[lo..hi] + key[hi..];
      Some(key[lo..hi])
    else None
  }

  /** The pattern matches exactly the keys `"options." + n + ".description"` with a well-formed `n`, and captures that `n`. */
  lemma MatchExactly(key: string, n: string)
    ensures MatchDescriptionKey(key) == Some(n) <==> IsOptionName(n) && key == DescriptionKey(n)
  {
  }

  /** A name with a dot in it, `options.a.b.description` say, is not captured: the key does not match at all. */
  lemma DottedNameRejected(n: string)
    requires '.' in n
    ensures MatchDescriptionKey(DescriptionKey(n)) == None
  {
  }

  /** A `default` or `type` sibling key never matches the description pattern by itself. */
  lemma SiblingKeysNeverMatch(n: string)
    ensures MatchDescriptionKey(DefaultKey(n)) == None
    ensures MatchDescriptionKey(TypeKey(n)) == None
  {
    var d, t := DefaultKey(n), TypeKey(n);
    assert d[|d| - 1] == 't' && t[|t| - 1] == 'e';
    assert DescriptionSuffix[|DescriptionSuffix| - 1] == 'n';
  }
}
