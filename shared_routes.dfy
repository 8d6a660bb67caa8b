/** `buildUrl` (HealthGuardAI/Silent-Sentinel/shared/routes.ts): fills `:key` placeholders of a
    route path from an ordered list of `(key, value)` entries. */
module SharedRoutes {
  import opened Common

  /** The first index at or after `i` where `pat` occurs in `s`, if any. */
  function FindFrom(s: string, pat: string, i: nat): (r: Option<nat>)
    requires i <= |s|
    ensures r.Some? ==> i <= r.value && OccursAt(pat, s, r.value)
    ensures r.Some? ==> forall j :: i <= j < r.value ==> !OccursAt(pat, s, j)
    ensures r.None? ==> forall j :: i <= j ==> !OccursAt(pat, s, j)
    decreases |s| - i
  {
    if i + |pat| > |s| then None
    else if s[i..i + |pat|] == pat then Some(i)
    else FindFrom(s, pat, i + 1)
  }

  /** `s.indexOf(pat)`: the first occurrence, present exactly when `s.includes(pat)`. */
  function IndexOf(s: string, pat: string): (r: Option<nat>)
    ensures r.Some? <==> IsInfix(pat, s)
    ensures r.Some? ==> OccursAt(pat, s, r.value) && forall j :: 0 <= j < r.value ==> !OccursAt(pat, s, j)
  {
    FindFrom(s, pat, 0)
  }

  /** The replacement text `String.prototype.replace` inserts for a string pattern: `$$` is a
      dollar sign, `` $` `` the text before the match, `$&` the match, `$'` the text after it; with no
      capture groups every other `$` stands for itself. */
  function Substitution(replacement: string, matched: string, before: string, after: string): (r: string)
    ensures '$' !in replacement ==> r == replacement
  {
    assert replacement != [] ==> forall c :: c in replacement[1..] ==> c in replacement;
    if replacement == [] then []
    else if replacement[0] == '$' && |replacement| >= 2
         && (replacement[1] == '$' || replacement[1] == '&' || replacement[1] == '`' || replacement[1] == '\'') then
      var inserted := match replacement[1]
        case '$' => "$"
        case '&' => matched
        case '`' => before
        case _ => after;
      inserted + Substitution(replacement[2..], matched, before, after)
    else [replacement[0]] + Substitution(replacement[1..], matched, before, after)
  }

  /** `s.replace(pat, replacement)` with a string pattern: only the first occurrence is replaced. */
  function ReplaceFirst(s: string, pat: string, replacement: string): (r: string)
    ensures !IsInfix(pat, s) ==> r == s
    ensures IsInfix(pat, s) ==> s[..IndexOf(s, pat).value] <= r
  {
    match IndexOf(s, pat)
    case None => s
    case Some(k) =>
      var inserted := Substitution(replacement, pat, s[..k], s[k + |pat|..]);
      PrefixOfConcat(s[..k], inserted + s[k + |pat|..]);
      assert s[..k] + inserted + s[k + |pat|..] == s[..k] + (inserted + s[k + |pat|..]);
      s[..k] + inserted + s[k + |pat|..]
  }

  /** With a plain value, the first occurrence of the pattern, and only it, becomes the value; the
      text before and after it is kept. */
  lemma ReplaceFirstPlain(s: string, pat: string, value: string, k: nat)
    requires '$' !in value
    requires OccursAt(pat, s, k) && forall j :: 0 <= j < k ==> !OccursAt(pat, s, j)
    ensures ReplaceFirst(s, pat, value) == s[..k] + value + s[k + |pat|..]
  {
    var i := IndexOf(s, pat);
    assert i.Some? by {
      assert IsInfix(pat, s);
    }
    assert i.value == k;
  }

  /** The placeholder text for a key. */
  function Placeholder(key: string): string
  {
    ":" + key
  }

  /** One `forEach` step: replace the placeholder's first occurrence when the url contains it. */
  function ApplyParam(url: string, key: string, value: string): (r: string)
    ensures ':' !in url ==> r == url
    ensures !IsInfix(Placeholder(key), url) ==> r == url
  {
    if IsInfix(Placeholder(key), url) then
      InfixHead(Placeholder(key), url);
      ReplaceFirst(url, Placeholder(key), value)
    else url
  }

  /** The entries applied in order, each to the result of the ones before. */
  function ApplyParams(url: string, params: seq<(string, string)>): (r: string)
    ensures ':' !in url ==> r == url
    decreases |params|
  {
    if params == [] then url else ApplyParams(ApplyParam(url, params[0].0, params[0].1), params[1..])
  }

  /** Applying two lists one after the other is applying their concatenation. */
  lemma {:induction false} ApplyParamsConcat(url: string, first: seq<(string, string)>, second: seq<(string, string)>)
    ensures ApplyParams(url, first + second) == ApplyParams(ApplyParams(url, first), second)
    decreases |first|
  {
    if first == [] {
      assert first + second == second;
    } else {
      assert (first + second)[1..] == first[1..] + second;
      ApplyParamsConcat(ApplyParam(url, first[0].0, first[0].1), first[1..], second);
    }
  }

  /** `buildUrl(path, params)`: without params (or with none listed) the path comes back unchanged. */
  method BuildUrl(path: string, params: Option<seq<(string, string)>>) returns (url: string)
    ensures params.Some? ==> url == ApplyParams(path, params.value)
    ensures params.None? || params == Some([]) ==> url == path
  {
    url := path;
    if params.Some? {
      var entries := params.value;
      var i := 0;
      while i < |entries|
        invariant 0 <= i <= |entries|
        invariant ApplyParams(url, entries[i..]) == ApplyParams(path, entries)
      {
        var (key, value) := entries[i];
        assert entries[i..][1..] == entries[i + 1..];
        if IsInfix(Placeholder(key), url) {
          url := ReplaceFirst(url, Placeholder(key), value);
        }
        i := i + 1;
      }
    }
  }

  /** In a url whose text before a placeholder has no colon, that placeholder is the first match. */
  lemma FirstPlaceholder(pre: string, key: string, post: string)
    requires ':' !in pre
    ensures IndexOf(pre + Placeholder(key) + post, Placeholder(key)) == Some(|pre|)
  {
    var url, pat := pre + Placeholder(key) + post, Placeholder(key);
    assert OccursAt(pat, url, |pre|) by {
      assert url[|pre|..|pre| + |pat|] == pat;
    }
    forall j | 0 <= j < |pre|
      ensures !OccursAt(pat, url, j)
    {
      assert url[j] == pre[j] != ':' == pat[0];
      if j + |pat| <= |url| {
        assert url[j..j + |pat|][0] == url[j];
      }
    }
  }

  /** Filling a plain value: the first placeholder becomes the value and everything after it, other
      placeholders included, is kept. The text after may continue the key (`:idx` for key `id`):
      matching has no word boundary. */
  lemma FillFirstPlaceholder(pre: string, key: string, post: string, value: string)
    requires ':' !in pre && '$' !in value
    ensures ApplyParam(pre + Placeholder(key) + post, key, value) == pre + value + post
  {
    var url, pat := pre + Placeholder(key) + post, Placeholder(key);
    FirstPlaceholder(pre, key, post);
    ReplaceFirstPlain(url, pat, value, |pre|);
    assert url[..|pre|] == pre && url[|pre| + |pat|..] == post;
  }

  /** Entries apply in order to the previous result, so a later key can fill a placeholder that an
      earlier value put into the url. */
  lemma ValueCanIntroducePlaceholder(pre: string, first: string, second: string, post: string, value: string)
    requires ':' !in pre && '$' !in second && '$' !in value && ':' !in second
    ensures ApplyParams(pre + Placeholder(first) + post, [(first, Placeholder(second)), (second, value)]) == pre + value + post
  {
    var url, ps := pre + Placeholder(first) + post, [(first, Placeholder(second)), (second, value)];
    FillFirstPlaceholder(pre, first, post, Placeholder(second));
    var filled := ApplyParam(url, first, Placeholder(second));
    assert ApplyParams(url, ps) == ApplyParams(filled, ps[1..]);
    FillFirstPlaceholder(pre, second, post, value);
    assert ApplyParams(filled, ps[1..]) == ApplyParams(ApplyParam(filled, second, value), ps[1..][1..]);
    assert ps[1..][1..] == [];
  }

  /** `$&` alone inserts exactly the matched text. */
  lemma MatchedPattern(matched: string, before: string, after: string)
    ensures Substitution("$&", matched, before, after) == matched
  {
    var dollar: string := ['$', '&'];
    assert dollar == "$&";
    assert dollar[2..] == [];
    assert Substitution(dollar, matched, before, after) == matched + Substitution([], matched, before, after);
  }

  /** A value `$&` is a replacement pattern that inserts the matched placeholder, so the url stays. */
  lemma DollarValueKeepsPlaceholder(pre: string, key: string, post: string)
    requires ':' !in pre
    ensures ApplyParam(pre + Placeholder(key) + post, key, "$&") == pre + Placeholder(key) + post
  {
    var url, pat := pre + Placeholder(key) + post, Placeholder(key);
    FirstPlaceholder(pre, key, post);
    MatchedPattern(pat, url[..|pre|], url[|pre| + |pat|..]);
    assert url[..|pre|] == pre && url[|pre| + |pat|..] == post;
  }
}
