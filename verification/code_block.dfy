/**
 * The two string computations of the markdown `code` renderer: the language
 * named by a fenced block's class (`/language-(\w+)/.exec(className || "")`)
 * and the block text with one trailing newline removed (`replace(/\n$/, "")`).
 */
module CodeBlock {
  import opened Wrappers

  const LanguagePrefix := "language-"

  /** The regular-expression class `\w`: ASCII letters, digits and underscore. */
  predicate IsWordChar(c: char) {
    ('a' <= c <= 'z') || ('A' <= c <= 'Z') || ('0' <= c <= '9') || c == '_'
  }

  /** The pattern `language-\w` matches at position `k` of `s`. */
  predicate MatchesAt(s: string, k: int) {
    0 <= k && k + |LanguagePrefix| < |s|
    && s[k..k + |LanguagePrefix|] == LanguagePrefix
    && IsWordChar(s[k + |LanguagePrefix|])
  }

  /** Length of the longest run of word characters starting at `j` (the greedy `\w+`). */
  function WordRun(s: string, j: nat): (n: nat)
    requires j <= |s|
    decreases |s| - j
    ensures j + n <= |s|
    ensures forall i :: j <= i < j + n ==> IsWordChar(s[i])
    ensures j + n == |s| || !IsWordChar(s[j + n])
  {
    if j < |s| && IsWordChar(s[j]) then 1 + WordRun(s, j + 1) else 0
  }

  /** The leftmost position at or after `from` where the pattern matches, as `exec` scans. */
  function FirstMatch(s: string, from: nat): (k: Option<nat>)
    requires from <= |s|
    decreases |s| - from
    ensures k.Some? ==> from <= k.value && MatchesAt(s, k.value)
    ensures k.Some? ==> forall j :: from <= j < k.value ==> !MatchesAt(s, j)
    ensures k.None? ==> forall j :: from <= j ==> !MatchesAt(s, j)
  {
    if from == |s| then None
    else if MatchesAt(s, from) then Some(from)
    else FirstMatch(s, from + 1)
  }

  /** `className || ""`: an absent class reads as the empty string. */
  function ClassText(className: Option<string>): string {
    if className.Some? then className.value else ""
  }

  /** `match ? match[1] : ""`: the captured language name, or "" without a match. */
  function CodeLanguage(className: Option<string>): (lang: string)
    ensures forall i :: 0 <= i < |lang| ==> IsWordChar(lang[i])
    ensures lang == "" <==> forall k :: !MatchesAt(ClassText(className), k)
  {
    var s := ClassText(className);
    match FirstMatch(s, 0)
    case None => ""
    case Some(k) =>
      var start := k + |LanguagePrefix|;
      s[start..start + WordRun(s, start)]
  }

  /** `className || ""`: a block with no class and a block with an empty class
      both name no language. */
  lemma NoClassNoLanguage()
    ensures CodeLanguage(None) == ""
    ensures CodeLanguage(Some("")) == ""
  {
  }

  /** When `k` is the leftmost match, the language is the whole run of word
      characters right after that `language-`, up to the first non-word character. */
  lemma LanguageAtLeftmostMatch(className: Option<string>, k: nat)
    requires MatchesAt(ClassText(className), k)
    requires forall j :: 0 <= j < k ==> !MatchesAt(ClassText(className), j)
    ensures var s, lang, start := ClassText(className), CodeLanguage(className), k + |LanguagePrefix|;
      |lang| > 0 && start + |lang| <= |s| && lang == s[start..start + |lang|]
      && (start + |lang| == |s| || !IsWordChar(s[start + |lang|]))
  {
  }

  /** A class written as `language-<name>` followed by anything that does not
      continue the name yields exactly that name. */
  lemma LanguageOfTaggedClass(name: string, rest: string)
    requires |name| > 0 && forall i :: 0 <= i < |name| ==> IsWordChar(name[i])
    requires rest == [] || !IsWordChar(rest[0])
    ensures CodeLanguage(Some(LanguagePrefix + name + rest)) == name
  {
    var s := LanguagePrefix + name + rest;
    var p := |LanguagePrefix|;
    assert s[..p] == LanguagePrefix;
    assert s[p] == name[0];
    assert MatchesAt(s, 0);
    LanguageAtLeftmostMatch(Some(s), 0);
    assert s[p..p + |name|] == name;
  }

  /** `String(children).replace(/\n$/, "")`: at most one final newline is removed. */
  function StripTrailingNewline(text: string): (r: string)
    ensures r == text || r + "\n" == text
    ensures r != text <==> (|text| > 0 && text[|text| - 1] == '\n')
  {
    if |text| > 0 && text[|text| - 1] == '\n' then text[..|text| - 1] else text
  }

  /** Stripping undoes appending one newline, and only one: a second stays. */
  lemma StripUndoesOneNewline(s: string)
    ensures StripTrailingNewline(s + "\n") == s
    ensures StripTrailingNewline(s + "\n\n") == s + "\n"
  {
  }
}
